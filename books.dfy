// The value types shared by every component: symbols, price levels and the
// 20-level order book of include/market_data.h.
module Books {
  type u8 = x: int | 0 <= x < 0x100
  type u32 = x: int | 0 <= x < 0x1_0000_0000
  type u64 = x: int | 0 <= x < 0x1_0000_0000_0000_0000
  type i32 = x: int | -0x8000_0000 <= x < 0x8000_0000

  /** Number of level slots per side in `orderbook_t`. */
  const Depth: nat := 20

  /** `symbol_t`: the three traded pairs, by their enum values. */
  const BtcUsdt: int := 0
  const EthUsdt: int := 1
  const BtcEth: int := 2
  const SymbolCount: nat := 3

  /** `price_level_t`, with prices and quantities as reals. */
  datatype Level = Level(price: real, quantity: real, timestamp: u64)

  /** `orderbook_t`: fixed 20-slot sides, with counts that say how many
      slots are meaningful. */
  datatype Book = Book(symbol: int, bids: seq<Level>, asks: seq<Level>,
                      bidCount: u32, askCount: u32, timestamp: u64)

  type OrderBook = Book

  /** Both sides have exactly the 20 slots the C struct has. */
  predicate Shaped(b: OrderBook) {
    |b.bids| == Depth && |b.asks| == Depth
  }

  /** Shaped, and no count runs past the slots. */
  predicate Bounded(b: OrderBook) {
    Shaped(b) && b.bidCount <= Depth && b.askCount <= Depth
  }

  const ZeroLevel: Level := Level(0.0, 0.0, 0)

  function ZeroLevels(): (r: seq<Level>)
    ensures |r| == Depth && forall i :: 0 <= i < |r| ==> r[i] == ZeroLevel
  {
    seq(Depth, _ => ZeroLevel)
  }

  /** A value-initialised (`memset` to zero) book. */
  function ZeroBook(): (r: OrderBook)
    ensures Bounded(r) && r.bidCount == 0 && r.askCount == 0
    ensures r.symbol == 0 && r.timestamp == 0
  {
    Book(0, ZeroLevels(), ZeroLevels(), 0, 0, 0)
  }

  function Min(a: int, b: int): (r: int)
    ensures r <= a && r <= b && (r == a || r == b)
  {
    if a <= b then a else b
  }

  /** Sum of the quantities of the first `n` levels (none when `n <= 0`). */
  function SumQty(levels: seq<Level>, n: int): (r: real)
    requires n <= |levels|
    decreases if n <= 0 then 0 else n
  {
    if n <= 0 then 0.0 else SumQty(levels, n - 1) + levels[n - 1].quantity
  }

  lemma {:induction false} SumQtyNonNegative(levels: seq<Level>, n: int)
    requires n <= |levels|
    requires forall i :: 0 <= i < |levels| ==> levels[i].quantity >= 0.0
    ensures SumQty(levels, n) >= 0.0
    decreases if n <= 0 then 0 else n
  {
    if n > 0 {
      SumQtyNonNegative(levels, n - 1);
    }
  }

  /** With non-negative quantities, summing more levels never gives less. */
  lemma {:induction false} SumQtyMonotone(levels: seq<Level>, m: int, n: int)
    requires m <= n <= |levels|
    requires forall i :: 0 <= i < |levels| ==> levels[i].quantity >= 0.0
    ensures SumQty(levels, m) <= SumQty(levels, n)
    decreases n - m
  {
    if m < n {
      SumQtyMonotone(levels, m, n - 1);
      if n - 1 <= 0 {
        SumQtyNonNegative(levels, n);
      }
    }
  }

  /** The depth loop both stores run: the sum of the quantities of the
      first min(levels, count) levels, nothing for `levels <= 0`. */
  method AccumulateDepth(side: seq<Level>, count: u32, levels: int) returns (depth: real)
    requires count <= |side|
    ensures depth == SumQty(side, Min(levels, count))
    ensures levels <= 0 || count == 0 ==> depth == 0.0
  {
    depth := 0.0;
    var n := Min(levels, count);
    var i := 0;
    while i < n
      invariant 0 <= i <= |side| && i <= if n < 0 then 0 else n
      invariant depth == SumQty(side, i)
    {
      depth := depth + side[i].quantity;
      i := i + 1;
    }
    assert i == n || (n <= 0 && SumQty(side, n) == 0.0);
  }

  /** The one-level synthetic book every feed falls back to: base price
      50000 + 1000·symbol, one bid at base−5 and one ask at base+5, each of
      quantity 1; the book (not its levels) is stamped `now`; all other
      slots zero. */
  function SyntheticBook(symbol: int, now: u64): (r: OrderBook)
    ensures Bounded(r) && r.symbol == symbol && r.timestamp == now
    ensures r.bidCount == 1 && r.askCount == 1
    ensures r.bids[0].price == 50000.0 + 1000.0 * symbol as real - 5.0
    ensures r.asks[0].price == 50000.0 + 1000.0 * symbol as real + 5.0
    ensures r.asks[0].price - r.bids[0].price == 10.0  // never crossed
    ensures r.bids[0].quantity == 1.0 && r.asks[0].quantity == 1.0
    ensures r.bids[0].timestamp == 0 && r.asks[0].timestamp == 0
    ensures forall i :: 1 <= i < Depth ==> r.bids[i] == ZeroLevel && r.asks[i] == ZeroLevel
  {
    var base := 50000.0 + 1000.0 * symbol as real;
    Book(symbol, ZeroLevels()[0 := Level(base - 5.0, 1.0, 0)],
         ZeroLevels()[0 := Level(base + 5.0, 1.0, 0)], 1, 1, now)
  }

  /** The mid-price the strategies read: levels 0 of both sides, whatever
      the counts say. */
  function TopMid(b: OrderBook): (r: real)
    requires Shaped(b)
    ensures b.bids[0].price <= b.asks[0].price ==> b.bids[0].price <= r <= b.asks[0].price
    ensures r - b.bids[0].price == b.asks[0].price - r
  {
    (b.bids[0].price + b.asks[0].price) / 2.0
  }
}
