// The pure helpers of the command-line program src/main.cpp: the mid and
// spread it displays for each book it receives, and the risk limits it
// derives from the configuration. The symbol maps it uses live in Symbols.
module MainHelpers {
  import opened Books
  import opened Trading
  import EngineImpl

  /** The mid-price and spread `on_market_data` prints. */
  datatype Quote = Quote(mid: real, spread: real)

  /** A side's best price as `on_market_data` reads it: level 0 when the
      side is quoted, 0 otherwise. */
  function BestPrice(side: seq<Level>, count: u32): (r: real)
    requires |side| == Depth
    ensures count > 0 ==> r == side[0].price
    ensures count == 0 ==> r == 0.0
  {
    if count > 0 then side[0].price else 0.0
  }

  /** Both figures are 0 unless both best prices are positive; then the mid
      lies between the two prices and the spread is their distance. */
  function Displayed(b: OrderBook): (r: Quote)
    requires Shaped(b)
    ensures var bid := BestPrice(b.bids, b.bidCount);
            var ask := BestPrice(b.asks, b.askCount);
            if bid > 0.0 && ask > 0.0 then
              r.mid - bid == ask - r.mid && r.spread == ask - bid &&
              (bid <= ask ==> bid <= r.mid <= ask && r.spread >= 0.0)
            else r == Quote(0.0, 0.0)
    ensures r != Quote(0.0, 0.0) ==> b.bidCount > 0 && b.askCount > 0
  {
    var bid := BestPrice(b.bids, b.bidCount);
    var ask := BestPrice(b.asks, b.askCount);
    if bid > 0.0 && ask > 0.0 then Quote((bid + ask) / 2.0, ask - bid) else Quote(0.0, 0.0)
  }

  /** The program prints the same figures the symbol-keyed book store of
      the strategy engine reports for the stored book. */
  lemma DisplayedMatchesMapStore(m: EngineImpl.OrderbookManager, b: OrderBook)
    requires m.Valid() && b.symbol in m.books && m.books[b.symbol] == b
    ensures Displayed(b) == Quote(m.GetMidPrice(b.symbol), m.GetSpread(b.symbol))
  {
  }

  /** The execution limits read from the configuration file. */
  datatype ExecutionConfig = ExecutionConfig(maxOrderSize: real, maxDailyLoss: real, maxOrdersPerSecond: int)

  /** `max_orders_per_second` is stored as a per-minute rate. */
  function OrdersPerMinute(perSecond: int): (r: int)
    ensures r % 60 == 0 && r / 60 == perSecond
    ensures perSecond >= 0 ==> r >= perSecond
  {
    perSecond * 60
  }

  /** The risk parameters handed to the order executor: the position limit
      is ten orders' worth (so never below one order of non-negative size)
      and the other limits are copied. */
  function RiskFromConfig(c: ExecutionConfig): (r: RiskParams)
    ensures r.maxOrderSize == c.maxOrderSize && r.maxDailyLoss == c.maxDailyLoss
    ensures r.maxPositionSize / 10.0 == r.maxOrderSize
    ensures r.maxOrderSize >= 0.0 ==> r.maxPositionSize >= r.maxOrderSize
    ensures r.maxOrdersPerMinute == OrdersPerMinute(c.maxOrdersPerSecond)
  {
    RiskParams(c.maxOrderSize * 10.0, c.maxDailyLoss, c.maxOrderSize, OrdersPerMinute(c.maxOrdersPerSecond))
  }
}
