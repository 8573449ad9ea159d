// `MarketDataProvider` of src/strategy/strategy_engine_impl.cpp: the
// initialised and running flags, and the book each pass of its data thread
// produces: a REST depth fetch when the exchange source is on, the
// synthetic book when that fetch fails or the source is off.
module DataProvider {
  import opened Wrappers
  import opened Books
  import opened BookStruct
  import opened DepthReply
  import RestClient

  const BaseUrl := "https://api.binance.com"

  /** `fetchOrderbookFromBinance`: a zeroed book carrying only the pair
      when no REST client can be made; the synthetic book when the request
      or its reply fails; otherwise the zeroed book filled from the reply.
      Every such book carries the pair asked for and stays within 20 levels
      a side, and once a client exists it is stamped with the current
      time. */
  function FetchedBook(symbol: int, curlOk: bool, t: RestClient.Transport, reply: RestClient.DepthDoc,
                       now: u64): (r: OrderBook)
    ensures r.symbol == symbol && Bounded(r)
    ensures !curlOk ==> r == ZeroBook().(symbol := symbol)
    ensures curlOk ==> r.timestamp == now
  {
    var start := ZeroBook().(symbol := symbol);
    if !curlOk then start
    else if !(t.performed && t.httpCode == 200) || reply.DepthUnparsable? then SyntheticBook(symbol, now)
    else
      var d := RestClient.DepthInto(start, symbol, reply.bids, reply.asks, now);
      RestClient.DepthIntoSpec(start, symbol, reply.bids, reply.asks, now);
      if d.0 == 0 then d.1 else SyntheticBook(symbol, now)
  }

  /** Every fetched book carries the pair asked for and stays within 20
      levels a side. Without a REST client it is empty and unstamped (no
      fallback); a fetched reply gives each side its clamped count, its
      entries below the count and zero slots past it; any other failure
      gives the synthetic book. */
  lemma FetchedBookSpec(symbol: int, curlOk: bool, t: RestClient.Transport, reply: RestClient.DepthDoc, now: u64)
    ensures var r := FetchedBook(symbol, curlOk, t, reply, now);
            r.symbol == symbol && Bounded(r)
    ensures !curlOk ==> FetchedBook(symbol, curlOk, t, reply, now) == ZeroBook().(symbol := symbol)
    ensures curlOk && !(t.performed && t.httpCode == 200 && reply.DepthJson?) ==>
              FetchedBook(symbol, curlOk, t, reply, now) == SyntheticBook(symbol, now)
    ensures curlOk && t.performed && t.httpCode == 200 && reply.DepthJson? ==>
              var r := FetchedBook(symbol, curlOk, t, reply, now);
              if SideReadable(reply.bids) && SideReadable(reply.asks) then
                r.timestamp == now &&
                (forall j :: 0 <= j < Depth && j >= r.bidCount ==> r.bids[j] == ZeroLevel) &&
                (forall j :: 0 <= j < Depth && j >= r.askCount ==> r.asks[j] == ZeroLevel) &&
                (reply.bids.Some? ==> r.bidCount == Clamped(|reply.bids.value|)) &&
                (reply.asks.Some? ==> r.askCount == Clamped(|reply.asks.value|))
              else r == SyntheticBook(symbol, now)
  {
    if curlOk && t.performed && t.httpCode == 200 && reply.DepthJson? {
      FetchedReplySpec(symbol, t, reply, now);
    }
  }

  /** The case of a reply that arrived: the depth reader's result, or the
      synthetic book when a side cannot be read. */
  lemma FetchedReplySpec(symbol: int, t: RestClient.Transport, reply: RestClient.DepthDoc, now: u64)
    requires t.performed && t.httpCode == 200 && reply.DepthJson?
    ensures var r := FetchedBook(symbol, true, t, reply, now);
            r.symbol == symbol && Bounded(r) &&
            if SideReadable(reply.bids) && SideReadable(reply.asks) then
              r.timestamp == now &&
              (forall j :: 0 <= j < Depth && j >= r.bidCount ==> r.bids[j] == ZeroLevel) &&
              (forall j :: 0 <= j < Depth && j >= r.askCount ==> r.asks[j] == ZeroLevel) &&
              (reply.bids.Some? ==> r.bidCount == Clamped(|reply.bids.value|)) &&
              (reply.asks.Some? ==> r.askCount == Clamped(|reply.asks.value|))
            else r == SyntheticBook(symbol, now)
  {
    var start := ZeroBook().(symbol := symbol);
    RestClient.DepthIntoSpec(start, symbol, reply.bids, reply.asks, now);
    var d := RestClient.DepthInto(start, symbol, reply.bids, reply.asks, now);
    if d.0 == 0 {
      if reply.bids.Some? {
        var n := Clamped(|reply.bids.value|);
        assert forall j :: n <= j < Depth ==> d.1.bids[j] == d.1.bids[n..][j - n];
      }
      if reply.asks.Some? {
        var n := Clamped(|reply.asks.value|);
        assert forall j :: n <= j < Depth ==> d.1.asks[j] == d.1.asks[n..][j - n];
      }
    }
  }

  class MarketDataProvider {
    var initialized: bool
    var running: bool
    var apiKey: string
    var apiSecret: string
    var useBinance: bool
    var useCoingecko: bool
    var callback: Option<int>
    var currentSymbol: int
    ghost var delivered: seq<OrderBook>
    ghost var workers: nat

    constructor ()
      ensures !initialized && !running && useBinance && useCoingecko && callback.None?
      ensures apiKey == "" && apiSecret == "" && delivered == [] && workers == 0
    {
      initialized := false;
      running := false;
      apiKey := "";
      apiSecret := "";
      useBinance := true;
      useCoingecko := true;
      callback := None;
      currentSymbol := BtcUsdt;
      delivered := [];
      workers := 0;
    }

    method Initialize() returns (ok: bool)
      modifies this`initialized
      ensures ok && initialized
    {
      initialized := true;
      ok := true;
    }

    /** Stops a running provider and clears the initialised flag (the
        source calls `stop` while holding the mutex `stop` takes again;
        modelled sequentially). */
    method Cleanup()
      modifies this`initialized, this`running
      ensures !initialized && !running
    {
      if running {
        Stop();
      }
      initialized := false;
    }

    method SetCallback(cb: Option<int>)
      modifies this`callback
      ensures callback == cb
    {
      callback := cb;
    }

    /** `start`: false when not initialised; true with no change when
        already running; otherwise running on the pair with one data thread
        started. */
    method Start(symbol: int) returns (ok: bool)
      modifies this`running, this`currentSymbol, this`workers
      ensures ok == initialized
      ensures !initialized || old(running) ==>
                running == old(running) && currentSymbol == old(currentSymbol) && workers == old(workers)
      ensures initialized && !old(running) ==> running && currentSymbol == symbol && workers == old(workers) + 1
    {
      if !initialized {
        return false;
      }
      if running {
        return true;
      }
      running := true;
      currentSymbol := symbol;
      workers := workers + 1;
      ok := true;
    }

    /** `stop`: a no-op when not running. */
    method Stop()
      modifies this`running
      ensures !running
    {
      if !running {
        return;
      }
      running := false;
    }

    method SetApiKey(key: string, secret: string)
      modifies this`apiKey, this`apiSecret
      ensures apiKey == key && apiSecret == secret
    {
      apiKey := key;
      apiSecret := secret;
    }

    method SetDataSources(binance: bool, coingecko: bool)
      modifies this`useBinance, this`useCoingecko
      ensures useBinance == binance && useCoingecko == coingecko
    {
      useBinance := binance;
      useCoingecko := coingecko;
    }

    /** `generateOrderbook`: the REST fetch when the exchange source is
        on, the synthetic book otherwise. */
    method GenerateOrderbook(symbol: int, curlOk: bool, t: RestClient.Transport,
                             reply: RestClient.DepthDoc, now: u64) returns (r: OrderBook)
      ensures r == if useBinance then FetchedBook(symbol, curlOk, t, reply, now) else SyntheticBook(symbol, now)
    {
      if !useBinance {
        return SyntheticBook(symbol, now);
      }
      var ob := new Orderbook();
      ob.symbol := symbol;
      var client := RestClient.Create(Some(BaseUrl), curlOk);
      if client == null {
        return ob.Value();
      }
      assert ob.Value() == ZeroBook().(symbol := symbol);
      var rc := RestClient.GetOrderbook(client, symbol, ob, t, reply, now);
      assert useBinance && curlOk && RestClient.Usable(client);
      if rc != 0 {
        if t.performed && t.httpCode == 200 && reply.DepthJson? {
          assert RestClient.DepthInto(ZeroBook().(symbol := symbol), symbol, reply.bids, reply.asks, now).0 != 0;
        }
        return SyntheticBook(symbol, now);
      }
      r := ob.Value();
    }

    /** One pass of the data thread: the generated book for the current
        pair goes to the callback when one is set. */
    method Tick(curlOk: bool, t: RestClient.Transport, reply: RestClient.DepthDoc, now: u64)
      requires running
      modifies this`delivered
      ensures delivered == old(delivered) +
                (if callback.Some?
                 then [if useBinance then FetchedBook(currentSymbol, curlOk, t, reply, now)
                       else SyntheticBook(currentSymbol, now)]
                 else [])
    {
      var b := GenerateOrderbook(currentSymbol, curlOk, t, reply, now);
      if callback.Some? {
        delivered := delivered + [b];
      }
    }
  }

  /** `generateFallbackOrderbook`: one level a side around
      50000 + 1000·symbol, never crossed. */
  function GenerateFallbackOrderbook(symbol: int, now: u64): (r: OrderBook)
    ensures Bounded(r) && r.symbol == symbol && r.timestamp == now
    ensures r.bidCount == 1 && r.askCount == 1
    ensures r.bids[0].price < r.asks[0].price
    ensures r.bids[0].price + 5.0 == 50000.0 + 1000.0 * symbol as real == r.asks[0].price - 5.0
  {
    SyntheticBook(symbol, now)
  }
}
