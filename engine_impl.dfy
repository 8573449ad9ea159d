// The second set of component classes in src/strategy/strategy_engine_impl.cpp:
// a stub order executor that never talks to an exchange, and an order-book
// store keyed by symbol in a hash map.
module EngineImpl {
  import opened Books
  import opened Trading

  const TwoTo64: int := 0x1_0000_0000_0000_0000

  /** The stub `OrderExecutor`: every order "fills" at once, locally. */
  class OrderExecutor {
    var initialized: bool
    var status: ExecutionStatus
    var risk: RiskParams
    var apiKey: string
    var apiSecret: string
    /** `orders_`, keyed by the locally made id. */
    var orders: map<u64, ExecutionResult>

    constructor ()
      ensures !initialized && status == Idle && orders == map[]
      ensures risk == DefaultRisk && apiKey == "" && apiSecret == ""
    {
      initialized := false;
      status := Idle;
      risk := DefaultRisk;
      apiKey := "";
      apiSecret := "";
      orders := map[];
    }

    method Initialize() returns (ok: bool)
      modifies this
      ensures ok && initialized
      ensures status == old(status) && orders == old(orders)
      ensures risk == old(risk) && apiKey == old(apiKey) && apiSecret == old(apiSecret)
    {
      initialized := true;
      ok := true;
    }

    /** Disconnects a connected executor, then clears the initialized flag
        (the source re-locks its own mutex here; modelled sequentially). */
    method Cleanup()
      modifies this
      ensures !initialized && orders == old(orders)
      ensures status == if old(status) == Connected then Disconnected else old(status)
      ensures risk == old(risk) && apiKey == old(apiKey) && apiSecret == old(apiSecret)
    {
      if status == Connected {
        Disconnect();
      }
      initialized := false;
    }

    method SetRiskParams(params: RiskParams)
      modifies this
      ensures risk == params && status == old(status) && orders == old(orders)
      ensures initialized == old(initialized) && apiKey == old(apiKey) && apiSecret == old(apiSecret)
    {
      risk := params;
    }

    method SetApiCredentials(key: string, secret: string)
      modifies this
      ensures apiKey == key && apiSecret == secret
      ensures status == old(status) && orders == old(orders)
      ensures initialized == old(initialized) && risk == old(risk)
    {
      apiKey := key;
      apiSecret := secret;
    }

    /** Always succeeds: no credentials are checked and nothing is sent. */
    method Connect() returns (ok: bool)
      modifies this
      ensures ok && status == Connected && orders == old(orders)
      ensures initialized == old(initialized) && risk == old(risk) &&
              apiKey == old(apiKey) && apiSecret == old(apiSecret)
    {
      status := Connected;
      ok := true;
    }

    method Disconnect()
      modifies this
      ensures status == Disconnected && orders == old(orders) && initialized == old(initialized)
      ensures risk == old(risk) && apiKey == old(apiKey) && apiSecret == old(apiSecret)
    {
      status := Disconnected;
    }

    /** Never rejects, whatever the connection state or the size: the
        result is SUCCESS, fully filled at the asked price, under id
        seconds·1000 + table size (64-bit), and it is stored under that id. */
    method SubmitOrder(symbol: int, side: int, price: real, quantity: real, nowSeconds: u64)
      returns (r: ExecutionResult)
      modifies this
      ensures r.status == Succeeded && r.filledQuantity == quantity && r.averagePrice == price
      ensures r.orderId == (nowSeconds * 1000 + |old(orders)|) % TwoTo64
      ensures orders == old(orders)[r.orderId := r]
      ensures status == old(status) && initialized == old(initialized) && risk == old(risk) &&
              apiKey == old(apiKey) && apiSecret == old(apiSecret)
    {
      var id := (nowSeconds * 1000 + |orders|) % TwoTo64;
      r := DefaultResult.(status := Succeeded, orderId := id, filledQuantity := quantity, averagePrice := price);
      orders := orders[id := r];
    }

    /** Erases a known id and reports whether it was there. */
    method CancelOrder(id: u64) returns (ok: bool)
      modifies this
      ensures ok <==> id in old(orders)
      ensures orders == old(orders) - {id}
      ensures !ok ==> orders == old(orders)
      ensures status == old(status) && initialized == old(initialized) && risk == old(risk) &&
              apiKey == old(apiKey) && apiSecret == old(apiSecret)
    {
      if id in orders {
        orders := orders - {id};
        ok := true;
      } else {
        ok := false;
      }
    }

    /** Simulated balance. */
    function GetBalance(symbol: int): (r: real)
      ensures r == 10000.0
    {
      10000.0
    }

    /** Simulated position: always flat. */
    function GetPosition(symbol: int): (r: real)
      ensures r == 0.0
    {
      0.0
    }

    /** The stored entry, or FAILED "Order not found". */
    function GetOrderStatus(id: u64): (r: ExecutionResult)
      reads this
      ensures id in orders ==> r == orders[id]
      ensures id !in orders ==> r == FailedWith("Order not found") && r.orderId == 0
    {
      if id in orders then orders[id] else FailedWith("Order not found")
    }

    /** At most `maxCount` distinct known ids. The bound is compared as a
        `size_t`, so a negative `maxCount` wraps to a huge bound and every
        id is returned. */
    method GetOrderHistory(maxCount: i32) returns (ids: seq<u64>)
      ensures forall i :: 0 <= i < |ids| ==> ids[i] in orders
      ensures forall i, j :: 0 <= i < j < |ids| ==> ids[i] != ids[j]
      ensures |ids| == Min(maxCount % TwoTo64, |orders|)
      ensures maxCount >= 0 ==> |ids| == Min(maxCount, |orders|)
      ensures maxCount < 0 && |orders| < 0x8000_0000_0000_0000 ==> |ids| == |orders|
    {
      ids := TakeIds(orders.Keys, maxCount % TwoTo64);
    }
  }

  /** The map-backed `OrderbookManager`: any symbol value gets its own
      entry; absent symbols read as the zero book. */
  class OrderbookManager {
    var initialized: bool
    var books: map<int, OrderBook>

    ghost predicate Valid()
      reads this
    {
      forall s :: s in books ==> Bounded(books[s])
    }

    constructor ()
      ensures Valid() && !initialized && books == map[]
    {
      initialized := false;
      books := map[];
    }

    method Initialize() returns (ok: bool)
      modifies this
      ensures ok && initialized && books == old(books)
    {
      initialized := true;
      ok := true;
    }

    method Cleanup()
      modifies this
      ensures Valid() && !initialized && books == map[]
    {
      books := map[];
      initialized := false;
    }

    /** Inserts or replaces the entry for the book's symbol. The source
        stores any book; every caller shown hands it one whose counts stay
        within the 20 slots, and the store's invariant `Valid()` records
        that every stored book is so. */
    method UpdateOrderbook(book: OrderBook)
      requires Valid() && Bounded(book)
      modifies this
      ensures Valid() && initialized == old(initialized)
      ensures GetOrderbook(book.symbol) == book
      ensures forall s :: s != book.symbol ==> GetOrderbook(s) == old(GetOrderbook(s))
      ensures books.Keys == old(books.Keys) + {book.symbol}
    {
      books := books[book.symbol := book];
    }

    function GetOrderbook(symbol: int): (r: OrderBook)
      reads this
      ensures symbol in books ==> r == books[symbol]
      ensures symbol !in books ==> r == ZeroBook()
    {
      if symbol in books then books[symbol] else ZeroBook()
    }

    lemma GetOrderbookBounded(symbol: int)
      requires Valid()
      ensures Bounded(GetOrderbook(symbol))
    {
    }

    function GetBestBid(symbol: int): (r: real)
      requires Valid()
      reads this
      ensures GetOrderbook(symbol).bidCount > 0 ==> r == GetOrderbook(symbol).bids[0].price
      ensures GetOrderbook(symbol).bidCount == 0 ==> r == 0.0
    {
      var b := GetOrderbook(symbol);
      if b.bidCount > 0 then b.bids[0].price else 0.0
    }

    function GetBestAsk(symbol: int): (r: real)
      requires Valid()
      reads this
      ensures GetOrderbook(symbol).askCount > 0 ==> r == GetOrderbook(symbol).asks[0].price
      ensures GetOrderbook(symbol).askCount == 0 ==> r == 0.0
    {
      var b := GetOrderbook(symbol);
      if b.askCount > 0 then b.asks[0].price else 0.0
    }

    /** Gated on both best prices being positive (not on the counts), so a
        quoted side at price 0 also reads as "no mid". */
    function GetMidPrice(symbol: int): (r: real)
      requires Valid()
      reads this
      ensures r != 0.0 ==> GetOrderbook(symbol).bidCount > 0 && GetOrderbook(symbol).askCount > 0
      ensures GetBestBid(symbol) > 0.0 && GetBestAsk(symbol) > 0.0 ==>
                r == (GetBestBid(symbol) + GetBestAsk(symbol)) / 2.0
      ensures GetBestBid(symbol) <= 0.0 || GetBestAsk(symbol) <= 0.0 ==> r == 0.0
    {
      var bid := GetBestBid(symbol);
      var ask := GetBestAsk(symbol);
      if bid > 0.0 && ask > 0.0 then (bid + ask) / 2.0 else 0.0
    }

    function GetSpread(symbol: int): (r: real)
      requires Valid()
      reads this
      ensures GetBestBid(symbol) > 0.0 && GetBestAsk(symbol) > 0.0 ==>
                r == GetBestAsk(symbol) - GetBestBid(symbol)
      ensures GetBestBid(symbol) <= 0.0 || GetBestAsk(symbol) <= 0.0 ==> r == 0.0
    {
      var bid := GetBestBid(symbol);
      var ask := GetBestAsk(symbol);
      if bid > 0.0 && ask > 0.0 then ask - bid else 0.0
    }

    method GetBidDepth(symbol: int, levels: int) returns (depth: real)
      requires Valid()
      ensures depth == SumQty(GetOrderbook(symbol).bids, Min(levels, GetOrderbook(symbol).bidCount))
      ensures symbol !in books || levels <= 0 ==> depth == 0.0
    {
      var b := GetOrderbook(symbol);
      GetOrderbookBounded(symbol);
      depth := AccumulateDepth(b.bids, b.bidCount, levels);
    }

    method GetAskDepth(symbol: int, levels: int) returns (depth: real)
      requires Valid()
      ensures depth == SumQty(GetOrderbook(symbol).asks, Min(levels, GetOrderbook(symbol).askCount))
      ensures symbol !in books || levels <= 0 ==> depth == 0.0
    {
      var b := GetOrderbook(symbol);
      GetOrderbookBounded(symbol);
      depth := AccumulateDepth(b.asks, b.askCount, levels);
    }

    function GetTimestamp(symbol: int): (r: u64)
      reads this
      ensures r == GetOrderbook(symbol).timestamp
      ensures symbol !in books ==> r == 0
    {
      GetOrderbook(symbol).timestamp
    }

    /** Checks the counts only; the prices are not looked at. */
    predicate IsValid(symbol: int)
      reads this
      ensures IsValid(symbol) <==> GetOrderbook(symbol).bidCount > 0 && GetOrderbook(symbol).askCount > 0
      ensures symbol !in books ==> !IsValid(symbol)
    {
      var b := GetOrderbook(symbol);
      b.bidCount > 0 && b.askCount > 0
    }
  }
}
