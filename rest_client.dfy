// src/market_data/rest_client.cpp: the C REST client handle, its GET
// wrapper's return codes and the two book fetchers. libcurl is replaced
// by a `Transport` outcome and the response body by its parsed form; the
// URLs requested are recorded in a ghost log.
module RestClient {
  import opened Wrappers
  import opened Books
  import opened BookStruct
  import opened DepthReply
  import opened Symbols

  /** What libcurl reported for one request: whether `curl_easy_perform`
      returned CURLE_OK, and the HTTP status. */
  datatype Transport = Transport(performed: bool, httpCode: int)

  /** The "price" member of a ticker reply. `get<double>()` throws on a
      member that is not a JSON number. */
  datatype PriceField = PriceNumber(v: real) | PriceNotNumber

  /** A ticker reply: unparsable, or a document with or without "price". */
  datatype PriceReply = PriceUnparsable | PriceDoc(price: Option<PriceField>)

  /** A depth reply: unparsable, or a document with its "bids" and "asks"
      (`None` for a side that is absent or not an array). */
  datatype DepthDoc = DepthUnparsable | DepthJson(bids: Option<seq<Entry>>, asks: Option<seq<Entry>>)

  const TickerEndpoint := "/api/v3/ticker/price?symbol=BTCUSDT"
  const DepthPath := "/api/v3/depth?symbol="
  const DepthLimit := "&limit=20"

  /** The depth endpoint for a pair; values outside the enum ask for
      BTCUSDT. */
  function DepthEndpoint(symbol: int): (r: string)
    ensures |r| == |DepthPath| + |ExchangeSymbol(symbol)| + |DepthLimit|
    ensures r[..|DepthPath|] == DepthPath && r[|r| - |DepthLimit|..] == DepthLimit
  {
    var r := DepthPath + ExchangeSymbol(symbol) + DepthLimit;
    assert r[..|DepthPath|] == DepthPath;
    assert r[|r| - |DepthLimit|..] == DepthLimit;
    r
  }

  /** The pair can be read back from the endpoint between its fixed path
      and its limit parameter. */
  lemma DepthEndpointNamesPair(symbol: int)
    ensures var e := DepthEndpoint(symbol);
            e[|DepthPath|..|e| - |DepthLimit|] == ExchangeSymbol(symbol)
    ensures var e := DepthEndpoint(symbol);
            0 <= symbol < 3 ==> SymbolOf(e[|DepthPath|..|e| - |DepthLimit|]) == symbol
  {
    var e := DepthEndpoint(symbol);
    var x := ExchangeSymbol(symbol);
    assert e == DepthPath + x + DepthLimit;
    assert e[|DepthPath|..|e| - |DepthLimit|] == x;
    SymbolOfInvertsExchangeSymbol(symbol, x);
  }

  /** The book `get_market_data` writes for a ticker price `p`: zeroed,
      then one bid at p-5 and one ask at p+5, each of quantity 1. */
  function PriceBook(symbol: int, p: real, now: u64): (r: OrderBook)
    ensures Bounded(r) && r.symbol == symbol && r.timestamp == now
    ensures r.bidCount == 1 && r.askCount == 1
    ensures r.bids[0] == Level(p - 5.0, 1.0, 0) && r.asks[0] == Level(p + 5.0, 1.0, 0)
    ensures forall i :: 1 <= i < Depth ==> r.bids[i] == ZeroLevel && r.asks[i] == ZeroLevel
  {
    Book(symbol, ZeroLevels()[0 := Level(p - 5.0, 1.0, 0)],
         ZeroLevels()[0 := Level(p + 5.0, 1.0, 0)], 1, 1, now)
  }

  /** At the pair's base price the ticker book is the synthetic fallback
      book. */
  lemma PriceBookAtBaseIsSynthetic(symbol: int, now: u64)
    ensures PriceBook(symbol, 50000.0 + 1000.0 * symbol as real, now) == SyntheticBook(symbol, now)
  {
  }

  /** The caller's book after a parsed depth reply, with the return code:
      each present side gets its clamped count and its readable levels,
      written over the caller's slots (nothing is zeroed); a throwing cell
      stops with -1 and the writes made so far; on success the symbol and
      the time are set and 0 is returned. */
  function DepthInto(b: OrderBook, symbol: int, bids: Option<seq<Entry>>, asks: Option<seq<Entry>>,
                     now: u64): (r: (int, OrderBook))
    requires Shaped(b)
    ensures Shaped(r.1) && (r.0 == 0 || r.0 == -1)
    ensures r.0 == 0 ==> r.1.symbol == symbol && r.1.timestamp == now
    ensures r.0 == -1 ==> r.1.symbol == b.symbol && r.1.timestamp == b.timestamp
  {
    var bs := ReadSide(b.bids, b.bidCount, bids);
    if !bs.ok then (-1, b.(bids := bs.levels, bidCount := bs.count))
    else
      var as_ := ReadSide(b.asks, b.askCount, asks);
      if !as_.ok then (-1, b.(bids := bs.levels, bidCount := bs.count, asks := as_.levels, askCount := as_.count))
      else (0, Book(symbol, bs.levels, as_.levels, bs.count, as_.count, now))
  }

  /** A reply whose visited levels all read succeeds. Each present side
      then shows its entries below the new count and keeps the caller's
      stale levels past it; an absent side keeps its old count and slots. */
  lemma DepthIntoSpec(b: OrderBook, symbol: int, bids: Option<seq<Entry>>, asks: Option<seq<Entry>>, now: u64)
    requires Shaped(b)
    ensures var r := DepthInto(b, symbol, bids, asks, now);
            r.0 == 0 <==> SideReadable(bids) && SideReadable(asks)
    ensures var r := DepthInto(b, symbol, bids, asks, now);
            r.0 == 0 && bids.Some? ==>
              r.1.bidCount == Clamped(|bids.value|) &&
              (forall j :: 0 <= j < Clamped(|bids.value|) ==> r.1.bids[j] == Read(b.bids[j], bids.value[j])) &&
              r.1.bids[Clamped(|bids.value|)..] == b.bids[Clamped(|bids.value|)..]
    ensures var r := DepthInto(b, symbol, bids, asks, now);
            r.0 == 0 && asks.Some? ==>
              r.1.askCount == Clamped(|asks.value|) &&
              (forall j :: 0 <= j < Clamped(|asks.value|) ==> r.1.asks[j] == Read(b.asks[j], asks.value[j])) &&
              r.1.asks[Clamped(|asks.value|)..] == b.asks[Clamped(|asks.value|)..]
    ensures var r := DepthInto(b, symbol, bids, asks, now);
            bids.None? && r.0 == 0 ==> r.1.bids == b.bids && r.1.bidCount == b.bidCount
    ensures var r := DepthInto(b, symbol, bids, asks, now);
            asks.None? && r.0 == 0 ==> r.1.asks == b.asks && r.1.askCount == b.askCount
  {
    if bids.Some? {
      ReadSideSpec(b.bids, b.bidCount, bids.value);
    }
    if asks.Some? {
      ReadSideSpec(b.asks, b.askCount, asks.value);
    }
  }

  /** `struct rest_client`. */
  class RestClient {
    var baseUrl: string
    var apiKey: string
    var apiSecret: string
    var timeout: int
    var initialized: bool
    ghost var requested: seq<string>

    constructor (baseUrl: string)
      ensures this.baseUrl == baseUrl && apiKey == "" && apiSecret == ""
      ensures timeout == 10 && !initialized && requested == []
    {
      this.baseUrl := baseUrl;
      apiKey := "";
      apiSecret := "";
      timeout := 10;
      initialized := false;
      requested := [];
    }
  }

  predicate Usable(c: RestClient?)
    reads c
  {
    c != null && c.initialized
  }

  /** `rest_client_create`: no client when curl cannot be set up;
      otherwise an initialised client with a 10-second timeout and the
      base URL (empty for a null one). */
  method Create(baseUrl: Option<string>, curlOk: bool) returns (c: RestClient?)
    ensures curlOk <==> c != null
    ensures c != null ==> fresh(c) && c.initialized && c.timeout == 10 &&
                          c.baseUrl == (if baseUrl.Some? then baseUrl.value else "") &&
                          c.apiKey == "" && c.apiSecret == "" && c.requested == []
  {
    if !curlOk {
      return null;
    }
    c := new RestClient(if baseUrl.Some? then baseUrl.value else "");
    c.initialized := true;
  }

  /** `rest_client_set_credentials`: -1 for an unusable client; a null
      key or secret leaves that field as it was. */
  method SetCredentials(c: RestClient?, key: Option<string>, secret: Option<string>) returns (rc: int)
    modifies c
    ensures !Usable(c) ==> rc == -1
    ensures Usable(c) ==> rc == 0
    ensures c != null && Usable(c) ==>
              c.apiKey == (if key.Some? then key.value else old(c.apiKey)) &&
              c.apiSecret == (if secret.Some? then secret.value else old(c.apiSecret))
    ensures c != null && !Usable(c) ==> c.apiKey == old(c.apiKey) && c.apiSecret == old(c.apiSecret)
    ensures c != null ==> c.baseUrl == old(c.baseUrl) && c.timeout == old(c.timeout) &&
                          c.initialized == old(c.initialized) && c.requested == old(c.requested)
  {
    if !Usable(c) {
      return -1;
    }
    if key.Some? {
      c.apiKey := key.value;
    }
    if secret.Some? {
      c.apiSecret := secret.value;
    }
    rc := 0;
  }

  /** `rest_client_get`: -1 without a request for an unusable client or a
      null endpoint; otherwise base URL + endpoint is requested and the
      result is 0 exactly for a completed transfer with HTTP 200. */
  method Get(c: RestClient?, endpoint: Option<string>, t: Transport) returns (rc: int)
    modifies c
    ensures !Usable(c) || endpoint.None? ==> rc == -1
    ensures c != null && (!Usable(c) || endpoint.None?) ==> c.requested == old(c.requested)
    ensures Usable(c) && endpoint.Some? ==>
              c.requested == old(c.requested) + [c.baseUrl + endpoint.value] &&
              (rc == 0 <==> t.performed && t.httpCode == 200) && (rc == 0 || rc == -1)
    ensures c != null ==> c.baseUrl == old(c.baseUrl) && c.apiKey == old(c.apiKey) &&
                          c.apiSecret == old(c.apiSecret) && c.timeout == old(c.timeout) &&
                          c.initialized == old(c.initialized)
  {
    if !Usable(c) || endpoint.None? {
      return -1;
    }
    c.requested := c.requested + [c.baseUrl + endpoint.value];
    if !t.performed || t.httpCode != 200 {
      return -1;
    }
    rc := 0;
  }

  /** `rest_client_get_market_data`: always the BTCUSDT ticker, whatever
      the pair asked for. 0 and the one-level book around the price only
      for a reply whose "price" is a JSON number; -1 with the caller's
      book untouched otherwise. */
  method GetMarketData(c: RestClient?, symbol: int, out: Orderbook?, t: Transport,
                       reply: PriceReply, now: u64) returns (rc: int)
    requires out != null ==> out.Valid()
    modifies c, out, if out != null then {out.bids, out.asks} else {}
    ensures rc == 0 || rc == -1
    ensures !Usable(c) || out == null ==> rc == -1
    ensures c != null && (!Usable(c) || out == null) ==> c.requested == old(c.requested)
    ensures Usable(c) && out != null ==> c.requested == old(c.requested) + [c.baseUrl + TickerEndpoint]
    ensures c != null ==> c.baseUrl == old(c.baseUrl) && c.apiKey == old(c.apiKey) &&
                          c.apiSecret == old(c.apiSecret) && c.timeout == old(c.timeout) &&
                          c.initialized == old(c.initialized)
    ensures rc == 0 <==> Usable(c) && out != null && t.performed && t.httpCode == 200 &&
                         reply.PriceDoc? && reply.price.Some? && reply.price.value.PriceNumber?
    ensures out != null ==> out.Valid() && out.bids == old(out.bids) && out.asks == old(out.asks)
    ensures rc == 0 ==> out.Value() == PriceBook(symbol, reply.price.value.v, now)
    ensures rc != 0 && out != null ==> out.Value() == old(out.Value())
  {
    if !Usable(c) || out == null {
      return -1;
    }
    rc := Get(c, Some(TickerEndpoint), t);
    if rc != 0 {
      return -1;
    }
    if reply.PriceDoc? && reply.price.Some? && reply.price.value.PriceNumber? {
      out.Assign(PriceBook(symbol, reply.price.value.v, now));
      rc := 0;
    } else {
      rc := -1;
    }
  }

  /** `rest_client_get_orderbook`: the depth endpoint of the pair is
      requested, and a parsed reply is written into the caller's book as
      `DepthInto` describes; an invalid call, a failed request or an
      unparsable body give -1 with the book untouched. */
  method GetOrderbook(c: RestClient?, symbol: int, out: Orderbook?, t: Transport,
                      reply: DepthDoc, now: u64) returns (rc: int)
    requires out != null ==> out.Valid()
    modifies c, out, if out != null then {out.bids, out.asks} else {}
    ensures !Usable(c) || out == null ==> rc == -1
    ensures c != null && (!Usable(c) || out == null) ==> c.requested == old(c.requested)
    ensures Usable(c) && out != null ==> c.requested == old(c.requested) + [c.baseUrl + DepthEndpoint(symbol)]
    ensures c != null ==> c.baseUrl == old(c.baseUrl) && c.apiKey == old(c.apiKey) &&
                          c.apiSecret == old(c.apiSecret) && c.timeout == old(c.timeout) &&
                          c.initialized == old(c.initialized)
    ensures out != null ==> out.Valid() && out.bids == old(out.bids) && out.asks == old(out.asks)
    ensures Usable(c) && out != null && t.performed && t.httpCode == 200 && reply.DepthJson? ==>
              (rc, out.Value()) == DepthInto(old(out.Value()), symbol, reply.bids, reply.asks, now)
    ensures out != null && !(Usable(c) && t.performed && t.httpCode == 200 && reply.DepthJson?) ==>
              rc == -1 && out.Value() == old(out.Value())
  {
    if !Usable(c) || out == null {
      return -1;
    }
    rc := Get(c, Some(DepthEndpoint(symbol)), t);
    if rc != 0 {
      return -1;
    }
    if reply.DepthUnparsable? {
      return -1;
    }
    var ok := ReadBids(out, reply.bids);
    if !ok {
      return -1;
    }
    ok := ReadAsks(out, reply.asks);
    if !ok {
      return -1;
    }
    out.symbol := symbol;
    out.timestamp := now;
    rc := 0;
  }
}
