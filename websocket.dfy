// src/market_data/websocket_client.cpp: the payload handler
// `websocket_write_callback` and the flag logic of the C client handle.
// The payload arrives already parsed (`Message`); the worker thread, the
// upgrade headers and the reconnect loop are transport and not modelled.
module WebSocket {
  import opened Wrappers
  import opened Books
  import opened BookStruct
  import opened DepthReply
  import opened Symbols

  /** The "stream" member of a payload. */
  datatype StreamField = Missing | NotText | Name(s: string)

  /** The "data" member: its "bids" and "asks" when they are arrays
      (`None` for an absent or non-array side). */
  datatype DepthData = DepthData(bids: Option<seq<Entry>>, asks: Option<seq<Entry>>)

  /** A payload after `json::parse`: a parse error, or a document with its
      two members of interest. */
  datatype Message = Unparsable | Json(stream: StreamField, data: Option<DepthData>)

  /** `std::string::find(t) != npos`. */
  predicate Contains(s: string, t: string)
    decreases |s|
  {
    |t| <= |s| && (t <= s || Contains(s[1..], t))
  }

  lemma {:induction false} ContainsAfter(p: string, t: string, q: string)
    ensures Contains(p + t + q, t)
    decreases |p|
  {
    if p == [] {
      assert t <= p + t + q;
    } else {
      assert (p + t + q)[1..] == p[1..] + t + q;
      ContainsAfter(p[1..], t, q);
    }
  }

  /** A string lacking one of `t`'s characters does not contain `t`. */
  lemma {:induction false} MissingCharNotContained(s: string, t: string, k: nat)
    requires k < |t| && t[k] !in s
    ensures !Contains(s, t)
    decreases |s|
  {
    if |t| <= |s| {
      assert s[k] in s;
      assert forall c :: c in s[1..] ==> c in s;
      MissingCharNotContained(s[1..], t, k);
    }
  }

  /** The pair named by a stream: the first of btcusdt, ethusdt, btceth
      found in it, else the zeroed book's SYMBOL_BTC_USDT. */
  function StreamSymbol(name: string): (r: int)
    ensures 0 <= r < 3
    ensures r == 1 <==> !Contains(name, "btcusdt") && Contains(name, "ethusdt")
    ensures r == 2 <==> !Contains(name, "btcusdt") && !Contains(name, "ethusdt") && Contains(name, "btceth")
  {
    if Contains(name, "btcusdt") then BtcUsdt
    else if Contains(name, "ethusdt") then EthUsdt
    else if Contains(name, "btceth") then BtcEth
    else BtcUsdt
  }

  /** The book a payload delivers to the subscriber, if any: only a
      document with a textual "stream" containing "@depth" and a "data"
      member whose sides read without a throwing cell. The book starts
      zeroed, takes the stream's pair and the arrival time, and each
      present side gets the clamped count of its array. */
  function DepthBook(msg: Message, now: u64): (r: Option<OrderBook>)
    ensures r.Some? ==> msg.Json? && msg.stream.Name? && msg.data.Some? && Contains(msg.stream.s, "@depth")
    ensures r.Some? ==> Bounded(r.value) && r.value.timestamp == now &&
                        r.value.symbol == StreamSymbol(msg.stream.s)
  {
    match msg
    case Unparsable => None
    case Json(stream, data) =>
      if !stream.Name? || data.None? || !Contains(stream.s, "@depth") then None
      else
        var bids := ReadSide(ZeroLevels(), 0, data.value.bids);
        var asks := ReadSide(ZeroLevels(), 0, data.value.asks);
        if !bids.ok || !asks.ok then None
        else Some(Book(StreamSymbol(stream.s), bids.levels, asks.levels, bids.count, asks.count, now))
  }

  /** The count a side gets from a payload: the clamped array size, 0 when
      the side is absent. */
  function CountOf(field: Option<seq<Entry>>): (r: nat)
    ensures r <= Depth
  {
    if field.Some? then Clamped(|field.value|) else 0
  }

  /** A depth payload is delivered exactly when every visited level of
      both sides reads without a throw; each counted slot then holds its
      entry's numbers, or zero for an entry that is not a level (still
      counted), and every slot past the count is zero. */
  lemma DepthBookSpec(name: string, d: DepthData, now: u64)
    requires Contains(name, "@depth")
    ensures DepthBook(Json(Name(name), Some(d)), now).Some? <==> SideReadable(d.bids) && SideReadable(d.asks)
    ensures var r := DepthBook(Json(Name(name), Some(d)), now);
            r.Some? ==>
              r.value.bidCount == CountOf(d.bids) && r.value.askCount == CountOf(d.asks) &&
              (forall j :: 0 <= j < CountOf(d.bids) ==> r.value.bids[j] == Read(ZeroLevel, d.bids.value[j])) &&
              (forall j :: 0 <= j < CountOf(d.asks) ==> r.value.asks[j] == Read(ZeroLevel, d.asks.value[j])) &&
              (forall j :: CountOf(d.bids) <= j < Depth ==> r.value.bids[j] == ZeroLevel) &&
              (forall j :: CountOf(d.asks) <= j < Depth ==> r.value.asks[j] == ZeroLevel)
  {
    var z := ZeroLevels();
    if d.bids.Some? {
      ReadSideSpec(z, 0, d.bids.value);
      var b := ReadSide(z, 0, d.bids);
      var n := CountOf(d.bids);
      assert forall j :: n <= j < Depth ==> b.levels[j] == b.levels[n..][j - n];
    }
    if d.asks.Some? {
      ReadSideSpec(z, 0, d.asks.value);
      var a := ReadSide(z, 0, d.asks);
      var n := CountOf(d.asks);
      assert forall j :: n <= j < Depth ==> a.levels[j] == a.levels[n..][j - n];
    }
  }

  /** Payloads without a depth stream are never delivered. */
  lemma NonDepthIgnored(msg: Message, now: u64)
    requires msg.Unparsable? || !msg.stream.Name? || msg.data.None? || !Contains(msg.stream.s, "@depth")
    ensures DepthBook(msg, now).None?
  {
  }

  /** The fetcher's stream for each pair (its exchange name in lower case,
      followed by "@depth20@100ms") is a depth stream that names that pair. */
  lemma StreamNameClassifies(symbol: int)
    requires 0 <= symbol < 3
    ensures Contains(Lower(ExchangeSymbol(symbol)) + "@depth20@100ms", "@depth")
    ensures StreamSymbol(Lower(ExchangeSymbol(symbol)) + "@depth20@100ms") == symbol
  {
    var low := Lower(ExchangeSymbol(symbol));
    LowerNames(symbol);
    StreamOf(low, "@depth20@100ms", symbol);
  }

  lemma LowerNames(symbol: int)
    requires 0 <= symbol < 3
    ensures symbol == 0 ==> Lower(ExchangeSymbol(symbol)) == "btcusdt"
    ensures symbol == 1 ==> Lower(ExchangeSymbol(symbol)) == "ethusdt"
    ensures symbol == 2 ==> Lower(ExchangeSymbol(symbol)) == "btceth"
  {
  }

  lemma StreamOf(low: string, tail: string, symbol: int)
    requires tail == "@depth20@100ms"
    requires symbol == 0 ==> low == "btcusdt"
    requires symbol == 1 ==> low == "ethusdt"
    requires symbol == 2 ==> low == "btceth"
    requires 0 <= symbol < 3
    ensures Contains(low + tail, "@depth")
    ensures StreamSymbol(low + tail) == symbol
  {
    assert low + tail == low + "@depth" + "20@100ms";
    ContainsAfter(low, "@depth", "20@100ms");
    if symbol == 0 {
      NamesPair(low, tail);
    } else if symbol == 1 {
      NamesEth(low, tail);
    } else {
      NamesBtcEth(low, tail);
    }
  }

  lemma NamesPair(low: string, tail: string)
    ensures Contains(low + tail, low)
  {
    assert [] + low + tail == low + tail;
    ContainsAfter([], low, tail);
  }

  lemma NamesEth(low: string, tail: string)
    requires low == "ethusdt" && tail == "@depth20@100ms"
    ensures !Contains(low + tail, "btcusdt") && Contains(low + tail, "ethusdt")
  {
    NamesPair(low, tail);
    assert 'b' !in low + tail;
    MissingCharNotContained(low + tail, "btcusdt", 0);
  }

  lemma NamesBtcEth(low: string, tail: string)
    requires low == "btceth" && tail == "@depth20@100ms"
    ensures !Contains(low + tail, "btcusdt") && !Contains(low + tail, "ethusdt") && Contains(low + tail, "btceth")
  {
    NamesPair(low, tail);
    assert 'u' !in low + tail;
    MissingCharNotContained(low + tail, "btcusdt", 3);
    MissingCharNotContained(low + tail, "ethusdt", 3);
  }

  /** One delivery to the registered C callback with its user data. */
  datatype Delivery = Delivery(callback: int, userData: int, book: OrderBook)

  /** `struct websocket_client`; a callback is identified by an integer. */
  class WebSocketClient {
    var url: string
    var initialized: bool
    var running: bool
    var callback: Option<int>
    var userData: int
    ghost var delivered: seq<Delivery>
    ghost var workers: nat

    /** The source's constructor leaves `callback` and `user_data`
        uninitialised; `None` and 0 stand for "not yet set". The one caller,
        market_data_fetcher.cpp, sets the callback before starting. */
    constructor (url: string)
      ensures this.url == url && !initialized && !running && callback.None? && userData == 0
      ensures delivered == [] && workers == 0
    {
      this.url := url;
      initialized := false;
      running := false;
      callback := None;
      userData := 0;
      delivered := [];
      workers := 0;
    }
  }

  /** `websocket_write_callback`: the payload's book reaches the callback
      at most once, and the byte count `size * nmemb` (in `size_t`) is
      returned whatever the payload held. */
  method OnWrite(c: WebSocketClient, size: u64, nmemb: u64, msg: Message, now: u64) returns (n: u64)
    modifies c
    ensures n == (size * nmemb) % 0x1_0000_0000_0000_0000
    ensures c.delivered == old(c.delivered) +
              (if n > 0 && c.callback.Some? && DepthBook(msg, now).Some?
               then [Delivery(c.callback.value, c.userData, DepthBook(msg, now).value)] else [])
    ensures c.url == old(c.url) && c.initialized == old(c.initialized) && c.running == old(c.running)
    ensures c.callback == old(c.callback) && c.userData == old(c.userData) && c.workers == old(c.workers)
  {
    n := (size * nmemb) % 0x1_0000_0000_0000_0000;
    if n > 0 && msg.Json? && msg.stream.Name? && msg.data.Some? && Contains(msg.stream.s, "@depth") {
      var book := new Orderbook();
      book.symbol := StreamSymbol(msg.stream.s);
      book.timestamp := now;
      var ok := ReadBids(book, msg.data.value.bids);
      if ok {
        ok := ReadAsks(book, msg.data.value.asks);
      }
      if ok && c.callback.Some? {
        c.delivered := c.delivered + [Delivery(c.callback.value, c.userData, book.Value())];
      }
    }
  }

  /** `websocket_client_create`: no client when curl cannot be set up;
      otherwise an initialised, stopped client for the URL (empty for a
      null URL). */
  method Create(url: Option<string>, curlOk: bool) returns (c: WebSocketClient?)
    ensures curlOk <==> c != null
    ensures c != null ==> fresh(c) && c.initialized && !c.running && c.callback.None? &&
                          c.url == (if url.Some? then url.value else "") &&
                          c.delivered == [] && c.workers == 0
  {
    if !curlOk {
      return null;
    }
    c := new WebSocketClient(if url.Some? then url.value else "");
    c.initialized := true;
  }

  predicate Usable(c: WebSocketClient?)
    reads c
  {
    c != null && c.initialized
  }

  /** `websocket_client_set_callback`: -1 for an unusable client, else the
      callback and user data are stored and 0 returned. */
  method SetCallback(c: WebSocketClient?, callback: Option<int>, userData: int) returns (rc: int)
    modifies c
    ensures !Usable(c) ==> rc == -1
    ensures Usable(c) ==> rc == 0 && c.callback == callback && c.userData == userData
    ensures c != null ==> c.running == old(c.running) && c.initialized == old(c.initialized) &&
                          c.url == old(c.url) && c.delivered == old(c.delivered) && c.workers == old(c.workers)
    ensures !Usable(c) && c != null ==> c.callback == old(c.callback) && c.userData == old(c.userData)
  {
    if !Usable(c) {
      return -1;
    }
    c.callback := callback;
    c.userData := userData;
    rc := 0;
  }

  /** `websocket_client_start`: -1 for an unusable client; 0 with no new
      worker when already running; otherwise running with one more worker,
      or -1 and stopped again when the thread cannot be created. */
  method Start(c: WebSocketClient?, threadOk: bool) returns (rc: int)
    modifies c
    ensures !Usable(c) ==> rc == -1
    ensures Usable(c) && old(c.running) ==> rc == 0 && c.running && c.workers == old(c.workers)
    ensures Usable(c) && !old(c.running) ==>
              (rc == 0 <==> threadOk) && (rc == 0 || rc == -1) &&
              c.running == threadOk && c.workers == old(c.workers) + (if threadOk then 1 else 0)
    ensures c != null ==> c.callback == old(c.callback) && c.userData == old(c.userData) &&
                          c.initialized == old(c.initialized) && c.url == old(c.url) &&
                          c.delivered == old(c.delivered)
    ensures !Usable(c) && c != null ==> c.running == old(c.running) && c.workers == old(c.workers)
  {
    if !Usable(c) {
      return -1;
    }
    if c.running {
      return 0;
    }
    c.running := true;
    if threadOk {
      c.workers := c.workers + 1;
      rc := 0;
    } else {
      c.running := false;
      rc := -1;
    }
  }

  /** `websocket_client_stop`: -1 for an unusable client; otherwise the
      client is left stopped and 0 returned, so a second stop is a no-op. */
  method Stop(c: WebSocketClient?) returns (rc: int)
    modifies c
    ensures !Usable(c) ==> rc == -1
    ensures Usable(c) ==> rc == 0 && !c.running
    ensures c != null ==> c.callback == old(c.callback) && c.userData == old(c.userData) &&
                          c.initialized == old(c.initialized) && c.url == old(c.url) &&
                          c.delivered == old(c.delivered) && c.workers == old(c.workers)
    ensures !Usable(c) && c != null ==> c.running == old(c.running)
  {
    if !Usable(c) {
      return -1;
    }
    if !c.running {
      return 0;
    }
    c.running := false;
    rc := 0;
  }
}
