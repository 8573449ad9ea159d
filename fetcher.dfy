// crypto_quant::MarketDataFetcher of src/market_data/market_data_fetcher.cpp:
// the stream URL, the WebSocket-client guards, the running flag and one
// iteration of the fallback data thread. The C++ `WebSocketClient` it
// holds is known only through what it answers (`isInitialized`, `start`,
// `isRunning`), which come in as parameters; the held client is recorded
// by its URL.
module Fetcher {
  import opened Wrappers
  import opened Books
  import opened Symbols
  import WebSocket

  const StreamBase := "wss://stream.binance.com:9443/ws/"
  const StreamSuffix := "@depth20@100ms"

  /** `symbolToBinanceSymbol`: the three pairs, BTCUSDT for anything else. */
  function BinanceSymbol(symbol: int): (r: string)
    ensures symbol == BtcUsdt ==> r == "BTCUSDT"
    ensures symbol == EthUsdt ==> r == "ETHUSDT"
    ensures symbol == BtcEth ==> r == "BTCETH"
    ensures !(0 <= symbol < 3) ==> r == "BTCUSDT"
  {
    ExchangeSymbol(symbol)
  }

  /** The depth stream of a pair: base, lower-cased exchange name, suffix. */
  function StreamUrl(symbol: int): (r: string)
    ensures |r| == |StreamBase| + |BinanceSymbol(symbol)| + |StreamSuffix|
    ensures r[..|StreamBase|] == StreamBase && r[|r| - |StreamSuffix|..] == StreamSuffix
  {
    var r := StreamBase + Lower(BinanceSymbol(symbol)) + StreamSuffix;
    assert r[..|StreamBase|] == StreamBase;
    assert r[|r| - |StreamSuffix|..] == StreamSuffix;
    r
  }

  /** The stream named by the URL is a depth stream the WebSocket handler
      files under the same pair; a value outside the enum gets the
      BTCUSDT stream. */
  lemma StreamUrlRoundTrip(symbol: int)
    ensures 0 <= symbol < 3 ==>
              WebSocket.Contains(StreamUrl(symbol)[|StreamBase|..], "@depth") &&
              WebSocket.StreamSymbol(StreamUrl(symbol)[|StreamBase|..]) == symbol
    ensures !(0 <= symbol < 3) ==> StreamUrl(symbol) == StreamUrl(BtcUsdt)
  {
    var low := Lower(BinanceSymbol(symbol));
    assert StreamUrl(symbol) == StreamBase + (low + StreamSuffix);
    assert StreamUrl(symbol)[|StreamBase|..] == low + StreamSuffix;
    if 0 <= symbol < 3 {
      WebSocket.StreamNameClassifies(symbol);
    }
  }

  class MarketDataFetcher {
    var running: bool
    var currentSymbol: int
    var useBinance: bool
    var useCoingecko: bool
    var apiKey: string
    var apiSecret: string
    var callback: Option<int>
    var wsClient: Option<string>
    ghost var delivered: seq<OrderBook>
    ghost var workers: nat

    /** Stopped, both sources on, no callback and no WebSocket client. */
    constructor ()
      ensures !running && useBinance && useCoingecko && callback.None? && wsClient.None?
      ensures apiKey == "" && apiSecret == "" && delivered == [] && workers == 0
    {
      running := false;
      currentSymbol := BtcUsdt;
      useBinance := true;
      useCoingecko := true;
      apiKey := "";
      apiSecret := "";
      callback := None;
      wsClient := None;
      delivered := [];
      workers := 0;
    }

    method Initialize() returns (ok: bool)
      ensures ok
    {
      ok := true;
    }

    /** `initializeWebSocketClient`: true with no change when a client is
        held; otherwise a client for the pair's stream is kept only if it
        reports itself initialised and started, and none is kept (false)
        when either fails. */
    method InitializeWebSocketClient(symbol: int, clientInitialized: bool, clientStarted: bool)
      returns (ok: bool)
      modifies this`wsClient
      ensures old(wsClient).Some? ==> ok && wsClient == old(wsClient)
      ensures old(wsClient).None? ==> (ok <==> clientInitialized && clientStarted)
      ensures old(wsClient).None? ==> wsClient == if ok then Some(StreamUrl(symbol)) else None
    {
      if wsClient.Some? {
        return true;
      }
      var url := StreamUrl(symbol);
      wsClient := Some(url);
      if !clientInitialized {
        wsClient := None;
        return false;
      }
      if !clientStarted {
        wsClient := None;
        return false;
      }
      ok := true;
    }

    /** `start`: 0 and no change while running; otherwise running on the
        pair, a WebSocket client attempted when the exchange source is on,
        and one data thread started. Always 0. */
    method Start(symbol: int, clientInitialized: bool, clientStarted: bool) returns (rc: int)
      modifies this
      ensures rc == 0
      ensures old(running) ==> running && currentSymbol == old(currentSymbol) &&
                               wsClient == old(wsClient) && workers == old(workers)
      ensures !old(running) ==> running && currentSymbol == symbol && workers == old(workers) + 1
      ensures !old(running) && !useBinance ==> wsClient == old(wsClient)
      ensures !old(running) && useBinance && old(wsClient).None? ==>
                wsClient == if clientInitialized && clientStarted then Some(StreamUrl(symbol)) else None
      ensures !old(running) && old(wsClient).Some? ==> wsClient == old(wsClient)
      ensures useBinance == old(useBinance) && useCoingecko == old(useCoingecko) && callback == old(callback)
      ensures apiKey == old(apiKey) && apiSecret == old(apiSecret) && delivered == old(delivered)
    {
      if running {
        return 0;
      }
      running := true;
      currentSymbol := symbol;
      if useBinance {
        var _ := InitializeWebSocketClient(symbol, clientInitialized, clientStarted);
      }
      workers := workers + 1;
      rc := 0;
    }

    /** `stop`: a no-op when not running; otherwise stopped and the
        WebSocket client dropped. */
    method Stop()
      modifies this`running, this`wsClient
      ensures !running
      ensures old(running) ==> wsClient.None?
      ensures !old(running) ==> wsClient == old(wsClient)
    {
      if !running {
        return;
      }
      running := false;
      wsClient := None;
    }

    /** One pass of the data thread: a synthetic book for the current
        pair reaches the callback only when no running WebSocket client is
        held, and the pass then sleeps 5000 ms with one and 1000 ms
        without. */
    method Tick(wsRunning: bool, now: u64) returns (sleepMs: int)
      requires running
      modifies this`delivered
      ensures var live := wsClient.Some? && wsRunning;
              delivered == old(delivered) +
                (if !live && callback.Some? then [SyntheticBook(currentSymbol, now)] else []) &&
              sleepMs == (if live then 5000 else 1000)
    {
      var fallback := !(wsClient.Some? && wsRunning);
      if fallback && callback.Some? {
        delivered := delivered + [GenerateOrderbook(currentSymbol, now)];
      }
      sleepMs := if wsClient.Some? && wsRunning then 5000 else 1000;
    }

    /** The callback the WebSocket client is given: a non-null book is
        passed on when a callback is set. */
    method OnWebSocketBook(book: Option<OrderBook>)
      modifies this`delivered
      ensures delivered == old(delivered) + (if book.Some? && callback.Some? then [book.value] else [])
    {
      if book.Some? && callback.Some? {
        delivered := delivered + [book.value];
      }
    }

    method SetOrderbookCallback(cb: Option<int>)
      modifies this`callback
      ensures callback == cb
    {
      callback := cb;
    }

    /** `getOrderbook`: the synthetic book, whatever the sources say. */
    function GetOrderbook(symbol: int, now: u64): (r: OrderBook)
      ensures r == SyntheticBook(symbol, now)
    {
      GenerateOrderbook(symbol, now)
    }

    method SetApiKey(key: string, secret: string)
      modifies this`apiKey, this`apiSecret
      ensures apiKey == key && apiSecret == secret
    {
      apiKey := key;
      apiSecret := secret;
    }

    method SetDataSources(binance: bool, coingecko: bool)
      modifies this`useBinance, this`useCoingecko
      ensures useBinance == binance && useCoingecko == coingecko
    {
      useBinance := binance;
      useCoingecko := coingecko;
    }
  }

  /** `generateOrderbook`: a zeroed book with one level per side around
      50000 + 1000·symbol, stamped `now`. */
  function GenerateOrderbook(symbol: int, now: u64): (r: OrderBook)
    ensures Bounded(r) && r.bidCount == 1 && r.askCount == 1 && r.symbol == symbol
    ensures r.bids[0].price < r.asks[0].price
    ensures (r.bids[0].price + r.asks[0].price) / 2.0 == 50000.0 + 1000.0 * symbol as real
  {
    SyntheticBook(symbol, now)
  }
}
