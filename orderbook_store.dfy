// The vector-backed order-book store of src/orderbook/orderbook_manager.cpp:
// one slot per symbol index, out-of-range indices ignored.
module OrderbookStore {
  import opened Books

  class OrderbookManager {
    /** `orderbooks_`: three slots after construction, none after cleanup. */
    var slots: seq<OrderBook>

    /** Every stored book keeps its counts within the 20 slots, which is what
        keeps the depth loops in bounds. */
    ghost predicate Valid()
      reads this
    {
      forall i :: 0 <= i < |slots| ==> Bounded(slots[i])
    }

    predicate InRange(symbol: int)
      reads this
    {
      0 <= symbol < |slots|
    }

    /** Three zeroed books, each stamped with the construction time. */
    constructor (now: u64)
      ensures Valid()
      ensures |slots| == SymbolCount
      ensures forall i :: 0 <= i < SymbolCount ==> slots[i] == ZeroBook().(timestamp := now)
    {
      slots := seq(SymbolCount, _ => ZeroBook().(timestamp := now));
    }

    method Cleanup()
      modifies this
      ensures Valid() && slots == []
      ensures forall s :: !InRange(s)
    {
      slots := [];
    }

    /** Overwrites the slot named by the book's own symbol; an index outside
        the slots changes nothing. The source copies any book; every caller
        shown passes one whose counts stay within the 20 slots, which is
        the invariant `Valid()` keeps for every slot. */
    method UpdateOrderbook(book: OrderBook)
      requires Valid() && Bounded(book)
      modifies this
      ensures Valid()
      ensures |slots| == |old(slots)|
      ensures old(InRange(book.symbol)) ==> GetOrderbook(book.symbol) == book
      ensures forall s :: s != book.symbol ==> GetOrderbook(s) == old(GetOrderbook(s))
      ensures !old(InRange(book.symbol)) ==> slots == old(slots)
    {
      if book.symbol < 0 || book.symbol >= |slots| {
        return;
      }
      slots := slots[book.symbol := book];
    }

    /** The stored book, or the zero book for an index outside the slots. */
    function GetOrderbook(symbol: int): (r: OrderBook)
      reads this
      ensures InRange(symbol) ==> r == slots[symbol]
      ensures !InRange(symbol) ==> r == ZeroBook()
    {
      if InRange(symbol) then slots[symbol] else ZeroBook()
    }

    function GetBestBid(symbol: int): (r: real)
      requires Valid()
      reads this
      ensures InRange(symbol) && GetOrderbook(symbol).bidCount > 0 ==> r == GetOrderbook(symbol).bids[0].price
      ensures !InRange(symbol) || GetOrderbook(symbol).bidCount == 0 ==> r == 0.0
    {
      if InRange(symbol) && slots[symbol].bidCount > 0 then slots[symbol].bids[0].price else 0.0
    }

    function GetBestAsk(symbol: int): (r: real)
      requires Valid()
      reads this
      ensures InRange(symbol) && GetOrderbook(symbol).askCount > 0 ==> r == GetOrderbook(symbol).asks[0].price
      ensures !InRange(symbol) || GetOrderbook(symbol).askCount == 0 ==> r == 0.0
    {
      if InRange(symbol) && slots[symbol].askCount > 0 then slots[symbol].asks[0].price else 0.0
    }

    /** Both sides quoted: the mean of the best bid and the best ask. */
    function GetMidPrice(symbol: int): (r: real)
      requires Valid()
      reads this
      ensures TwoSided(symbol) ==> r == (GetBestBid(symbol) + GetBestAsk(symbol)) / 2.0
      ensures !TwoSided(symbol) ==> r == 0.0
    {
      if TwoSided(symbol) then (slots[symbol].bids[0].price + slots[symbol].asks[0].price) / 2.0 else 0.0
    }

    /** Both sides quoted: best ask minus best bid. */
    function GetSpread(symbol: int): (r: real)
      requires Valid()
      reads this
      ensures TwoSided(symbol) ==> r == GetBestAsk(symbol) - GetBestBid(symbol)
      ensures !TwoSided(symbol) ==> r == 0.0
    {
      if TwoSided(symbol) then slots[symbol].asks[0].price - slots[symbol].bids[0].price else 0.0
    }

    /** The slot exists and both of its counts are positive. */
    predicate TwoSided(symbol: int)
      reads this
    {
      InRange(symbol) && slots[symbol].bidCount > 0 && slots[symbol].askCount > 0
    }

    /** Sum of the first min(levels, bid_count) bid quantities; 0 outside
        the slots. */
    method GetBidDepth(symbol: int, levels: int) returns (depth: real)
      requires Valid()
      ensures InRange(symbol) ==> depth == SumQty(slots[symbol].bids, Min(levels, slots[symbol].bidCount))
      ensures !InRange(symbol) || levels <= 0 ==> depth == 0.0
    {
      if symbol < 0 || symbol >= |slots| {
        return 0.0;
      }
      assert Bounded(slots[symbol]);
      depth := AccumulateDepth(slots[symbol].bids, slots[symbol].bidCount, levels);
    }

    /** Sum of the first min(levels, ask_count) ask quantities; 0 outside
        the slots. */
    method GetAskDepth(symbol: int, levels: int) returns (depth: real)
      requires Valid()
      ensures InRange(symbol) ==> depth == SumQty(slots[symbol].asks, Min(levels, slots[symbol].askCount))
      ensures !InRange(symbol) || levels <= 0 ==> depth == 0.0
    {
      if symbol < 0 || symbol >= |slots| {
        return 0.0;
      }
      assert Bounded(slots[symbol]);
      depth := AccumulateDepth(slots[symbol].asks, slots[symbol].askCount, levels);
    }

    function GetTimestamp(symbol: int): (r: u64)
      reads this
      ensures r == GetOrderbook(symbol).timestamp
      ensures !InRange(symbol) ==> r == 0
    {
      if InRange(symbol) then slots[symbol].timestamp else 0
    }

    /** Usable iff both sides are quoted at positive prices. */
    predicate IsValid(symbol: int)
      requires Valid()
      reads this
      ensures IsValid(symbol) <==>
        TwoSided(symbol) && GetBestBid(symbol) > 0.0 && GetBestAsk(symbol) > 0.0
    {
      InRange(symbol) && slots[symbol].bidCount > 0 && slots[symbol].askCount > 0
      && slots[symbol].bids[0].price > 0.0 && slots[symbol].asks[0].price > 0.0
    }
  }

  /** With non-negative quantities, asking for more levels never reports a
      smaller depth (the specification the depth methods are proved
      against). */
  lemma DepthMonotone(book: OrderBook, m: int, n: int)
    requires Bounded(book) && m <= n
    requires forall i :: 0 <= i < Depth ==> book.bids[i].quantity >= 0.0
    requires forall i :: 0 <= i < Depth ==> book.asks[i].quantity >= 0.0
    ensures SumQty(book.bids, Min(m, book.bidCount)) <= SumQty(book.bids, Min(n, book.bidCount))
    ensures SumQty(book.asks, Min(m, book.askCount)) <= SumQty(book.asks, Min(n, book.askCount))
  {
    SumQtyMonotone(book.bids, Min(m, book.bidCount), Min(n, book.bidCount));
    SumQtyMonotone(book.asks, Min(m, book.askCount), Min(n, book.askCount));
  }
}
