// The global-namespace MarketDataFetcher of src/market_data/market_data.cpp
// and its extern "C" wrappers. The data thread is modelled one pass at a
// time (`Tick`); callbacks are identified by integers and every hand-off
// is recorded in a ghost log.
module MarketData {
  import opened Wrappers
  import opened Books
  import opened BookStruct

  /** One book handed to the C callback (with its user data) or to the
      C++ callback. */
  datatype Handoff = ToC(callback: int, userData: int, book: OrderBook) | ToCpp(callback: int, book: OrderBook)

  class MarketDataFetcher {
    var cCallback: Option<int>
    var cUserData: int
    var cppCallback: Option<int>
    var running: bool
    var apiKey: string
    var apiSecret: string
    var useBinance: bool
    var useCoingecko: bool
    var currentSymbol: int
    ghost var handed: seq<Handoff>
    ghost var workers: nat

    /** No callbacks, stopped, both sources on. */
    constructor ()
      ensures cCallback.None? && cppCallback.None? && cUserData == 0 && !running
      ensures useBinance && useCoingecko && apiKey == "" && apiSecret == ""
      ensures handed == [] && workers == 0
    {
      cCallback := None;
      cUserData := 0;
      cppCallback := None;
      running := false;
      apiKey := "";
      apiSecret := "";
      useBinance := true;
      useCoingecko := true;
      currentSymbol := BtcUsdt;
      handed := [];
      workers := 0;
    }

    method SetCCallback(callback: Option<int>, userData: int)
      modifies this`cCallback, this`cUserData
      ensures cCallback == callback && cUserData == userData
    {
      cCallback := callback;
      cUserData := userData;
    }

    method SetCppCallback(callback: Option<int>)
      modifies this`cppCallback
      ensures cppCallback == callback
    {
      cppCallback := callback;
    }

    /** `start`: 0 with no change while running; otherwise running on the
        pair with one data thread started. */
    method Start(symbol: int) returns (rc: int)
      modifies this`running, this`currentSymbol, this`workers
      ensures rc == 0 && running
      ensures old(running) ==> currentSymbol == old(currentSymbol) && workers == old(workers)
      ensures !old(running) ==> currentSymbol == symbol && workers == old(workers) + 1
    {
      if running {
        return 0;
      }
      running := true;
      currentSymbol := symbol;
      workers := workers + 1;
      rc := 0;
    }

    /** `stop`: a no-op when already stopped. */
    method Stop()
      modifies this`running
      ensures !running
    {
      if !running {
        return;
      }
      running := false;
    }

    /** One pass of the data thread: the same synthetic book goes to the C
        callback and then to the C++ callback, each only if set. */
    method Tick(now: u64)
      requires running
      modifies this`handed
      ensures var b := GenerateOrderbook(currentSymbol, now);
              handed == old(handed) +
                (if cCallback.Some? then [ToC(cCallback.value, cUserData, b)] else []) +
                (if cppCallback.Some? then [ToCpp(cppCallback.value, b)] else [])
    {
      var b := GenerateOrderbook(currentSymbol, now);
      if cCallback.Some? {
        handed := handed + [ToC(cCallback.value, cUserData, b)];
      }
      if cppCallback.Some? {
        handed := handed + [ToCpp(cppCallback.value, b)];
      }
    }

    /** `getOrderbook(symbol, orderbook*)`: -1 for a null pointer, else the
        synthetic book is written through it and 0 returned. */
    method GetOrderbookInto(symbol: int, out: Orderbook?, now: u64) returns (rc: int)
      requires out != null ==> out.Valid()
      modifies if out != null then {out, out.bids, out.asks} else {}
      ensures out == null <==> rc == -1
      ensures out != null ==> rc == 0 && out.Valid() && out.Value() == GenerateOrderbook(symbol, now)
    {
      if out == null {
        return -1;
      }
      out.Assign(GenerateOrderbook(symbol, now));
      rc := 0;
    }

    /** `getOrderbook(symbol)`: the synthetic book. */
    function GetOrderbook(symbol: int, now: u64): (r: OrderBook)
      ensures r == SyntheticBook(symbol, now)
    {
      GenerateOrderbook(symbol, now)
    }

    /** `setApiKey(const char*, const char*)`: a null argument leaves its
        field as it was. */
    method SetApiKeyC(key: Option<string>, secret: Option<string>)
      modifies this`apiKey, this`apiSecret
      ensures apiKey == if key.Some? then key.value else old(apiKey)
      ensures apiSecret == if secret.Some? then secret.value else old(apiSecret)
    {
      if key.Some? {
        apiKey := key.value;
      }
      if secret.Some? {
        apiSecret := secret.value;
      }
    }

    /** `setApiKey(const std::string&, const std::string&)`. */
    method SetApiKey(key: string, secret: string)
      modifies this`apiKey, this`apiSecret
      ensures apiKey == key && apiSecret == secret
    {
      apiKey := key;
      apiSecret := secret;
    }

    /** `setDataSources(int, int)`: any non-zero value switches a source on. */
    method SetDataSourcesC(binance: int, coingecko: int)
      modifies this`useBinance, this`useCoingecko
      ensures useBinance == (binance != 0) && useCoingecko == (coingecko != 0)
    {
      useBinance := binance != 0;
      useCoingecko := coingecko != 0;
    }

    method SetDataSources(binance: bool, coingecko: bool)
      modifies this`useBinance, this`useCoingecko
      ensures useBinance == binance && useCoingecko == coingecko
    {
      useBinance := binance;
      useCoingecko := coingecko;
    }
  }

  /** `generateOrderbook`: the synthetic one-level book with base price
      50000 + 1000·symbol. */
  function GenerateOrderbook(symbol: int, now: u64): (r: OrderBook)
    ensures Bounded(r) && r.symbol == symbol && r.timestamp == now
    ensures r.bidCount == 1 && r.askCount == 1
    ensures r.bids[0].price == 50000.0 + 1000.0 * symbol as real - 5.0
    ensures r.asks[0].price == 50000.0 + 1000.0 * symbol as real + 5.0
  {
    SyntheticBook(symbol, now)
  }

  /** `market_data_fetcher_create`: a new stopped fetcher, or none when
      the allocation throws. */
  method FetcherCreate(allocOk: bool) returns (f: MarketDataFetcher?)
    ensures allocOk <==> f != null
    ensures f != null ==> fresh(f) && !f.running && f.cCallback.None? && f.cppCallback.None?
  {
    if !allocOk {
      return null;
    }
    f := new MarketDataFetcher();
  }

  /** `market_data_fetcher_set_callback`. */
  method FetcherSetCallback(f: MarketDataFetcher?, callback: Option<int>, userData: int) returns (rc: int)
    modifies f
    ensures f == null <==> rc == -1
    ensures f != null ==> rc == 0 && f.cCallback == callback && f.cUserData == userData &&
                          f.running == old(f.running) && f.handed == old(f.handed)
    ensures f != null ==> f.cppCallback == old(f.cppCallback) && f.apiKey == old(f.apiKey) &&
                          f.apiSecret == old(f.apiSecret) && f.useBinance == old(f.useBinance) &&
                          f.useCoingecko == old(f.useCoingecko) && f.currentSymbol == old(f.currentSymbol) &&
                          f.workers == old(f.workers)
  {
    if f == null {
      return -1;
    }
    f.SetCCallback(callback, userData);
    rc := 0;
  }

  /** `market_data_fetcher_start`: -1 on null, else what `start` returns. */
  method FetcherStart(f: MarketDataFetcher?, symbol: int) returns (rc: int)
    modifies f
    ensures f == null <==> rc == -1
    ensures f != null ==> rc == 0 && f.running &&
                          (old(f.running) ==> f.currentSymbol == old(f.currentSymbol)) &&
                          (!old(f.running) ==> f.currentSymbol == symbol)
    ensures f != null ==> f.handed == old(f.handed) && f.cCallback == old(f.cCallback)
    ensures f != null ==> f.cUserData == old(f.cUserData) && f.cppCallback == old(f.cppCallback) &&
                          f.apiKey == old(f.apiKey) && f.apiSecret == old(f.apiSecret) &&
                          f.useBinance == old(f.useBinance) && f.useCoingecko == old(f.useCoingecko)
    ensures f != null ==> f.workers == if old(f.running) then old(f.workers) else old(f.workers) + 1
  {
    if f == null {
      return -1;
    }
    rc := f.Start(symbol);
  }

  /** `market_data_fetcher_stop`. */
  method FetcherStop(f: MarketDataFetcher?) returns (rc: int)
    modifies f
    ensures f == null <==> rc == -1
    ensures f != null ==> rc == 0 && !f.running && f.handed == old(f.handed)
    ensures f != null ==> f.cCallback == old(f.cCallback) && f.cUserData == old(f.cUserData) &&
                          f.cppCallback == old(f.cppCallback) && f.apiKey == old(f.apiKey) &&
                          f.apiSecret == old(f.apiSecret) && f.useBinance == old(f.useBinance) &&
                          f.useCoingecko == old(f.useCoingecko) && f.currentSymbol == old(f.currentSymbol) &&
                          f.workers == old(f.workers)
  {
    if f == null {
      return -1;
    }
    f.Stop();
    rc := 0;
  }

  /** `market_data_fetcher_get_orderbook`: -1 on a null fetcher or a null
      book pointer. */
  method FetcherGetOrderbook(f: MarketDataFetcher?, symbol: int, out: Orderbook?, now: u64) returns (rc: int)
    requires out != null ==> out.Valid()
    modifies if out != null then {out, out.bids, out.asks} else {}
    ensures f == null || out == null <==> rc == -1
    ensures out != null ==> out.Valid()
    ensures f != null && out != null ==> rc == 0 && out.Valid() && out.Value() == SyntheticBook(symbol, now)
    ensures f == null && out != null ==> out.Value() == old(out.Value())
  {
    if f == null {
      return -1;
    }
    rc := f.GetOrderbookInto(symbol, out, now);
  }

  /** `market_data_fetcher_set_api_key`. */
  method FetcherSetApiKey(f: MarketDataFetcher?, key: Option<string>, secret: Option<string>) returns (rc: int)
    modifies f
    ensures f == null <==> rc == -1
    ensures f != null ==> f.apiKey == (if key.Some? then key.value else old(f.apiKey)) &&
                          f.apiSecret == (if secret.Some? then secret.value else old(f.apiSecret))
    ensures f != null ==> f.cCallback == old(f.cCallback) && f.cUserData == old(f.cUserData) &&
                          f.cppCallback == old(f.cppCallback) && f.running == old(f.running) &&
                          f.useBinance == old(f.useBinance) && f.useCoingecko == old(f.useCoingecko) &&
                          f.currentSymbol == old(f.currentSymbol) && f.handed == old(f.handed) &&
                          f.workers == old(f.workers)
  {
    if f == null {
      return -1;
    }
    f.SetApiKeyC(key, secret);
    rc := 0;
  }

  /** `market_data_fetcher_set_data_sources`. */
  method FetcherSetDataSources(f: MarketDataFetcher?, binance: int, coingecko: int) returns (rc: int)
    modifies f
    ensures f == null <==> rc == -1
    ensures f != null ==> f.useBinance == (binance != 0) && f.useCoingecko == (coingecko != 0)
    ensures f != null ==> f.cCallback == old(f.cCallback) && f.cUserData == old(f.cUserData) &&
                          f.cppCallback == old(f.cppCallback) && f.running == old(f.running) &&
                          f.apiKey == old(f.apiKey) && f.apiSecret == old(f.apiSecret) &&
                          f.currentSymbol == old(f.currentSymbol) && f.handed == old(f.handed) &&
                          f.workers == old(f.workers)
  {
    if f == null {
      return -1;
    }
    f.SetDataSourcesC(binance, coingecko);
    rc := 0;
  }
}
