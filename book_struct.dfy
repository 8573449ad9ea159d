// `orderbook_t` as a C struct in memory: the object that the REST client
// fills through a pointer, that the WebSocket callback hands to its
// subscriber and that the Python binding wraps. Its value is a `Books.Book`.
module BookStruct {
  import opened Books

  class Orderbook {
    var symbol: int
    var bids: array<Level>
    var asks: array<Level>
    var bidCount: u32
    var askCount: u32
    var timestamp: u64

    ghost predicate Valid()
      reads this
    {
      bids.Length == Depth && asks.Length == Depth && bids != asks
    }

    /** The struct's current contents as a value. */
    function Value(): (r: OrderBook)
      requires Valid()
      reads this, bids, asks
      ensures Shaped(r)
    {
      Book(symbol, bids[..], asks[..], bidCount, askCount, timestamp)
    }

    /** A value-initialised (`memset` to zero) struct. */
    constructor ()
      ensures Valid() && fresh(bids) && fresh(asks)
      ensures Value() == ZeroBook()
    {
      symbol := 0;
      bidCount := 0;
      askCount := 0;
      timestamp := 0;
      bids := new Level[Depth](_ => ZeroLevel);
      asks := new Level[Depth](_ => ZeroLevel);
    }

    /** Structure assignment `*orderbook = b`. */
    method Assign(b: OrderBook)
      requires Valid() && Shaped(b)
      modifies this, bids, asks
      ensures Valid() && bids == old(bids) && asks == old(asks)
      ensures Value() == b
    {
      symbol := b.symbol;
      bidCount := b.bidCount;
      askCount := b.askCount;
      timestamp := b.timestamp;
      CopyAll(bids, b.bids);
      CopyAll(asks, b.asks);
    }
  }

  method CopyAll(side: array<Level>, levels: seq<Level>)
    requires side.Length == |levels|
    modifies side
    ensures side[..] == levels
  {
    var i := 0;
    while i < side.Length
      invariant 0 <= i <= side.Length
      invariant side[..i] == levels[..i]
    {
      side[i] := levels[i];
      i := i + 1;
    }
  }
}
