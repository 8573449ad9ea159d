// The four level accessors pybinding/python_bindings.cpp adds to the
// Python `Orderbook` class, over the wrapped struct. Python may also assign
// the counts directly (`def_readwrite`), so a count above 20 is a reachable
// state.
module PyBinding {
  import opened Books
  import opened BookStruct

  /** The visible part of a side: the first min(count, 20) slots. */
  function Visible(side: seq<Level>, count: u32): (r: seq<Level>)
    requires |side| == Depth
    ensures |r| == Min(count, Depth)
    ensures forall i :: 0 <= i < |r| ==> r[i] == side[i]
  {
    side[..Min(count, Depth)]
  }

  /** A side after `set_bids(xs)` / `set_asks(xs)`: the first
      min(|xs|, 20) slots copied from `xs`, the rest as they were. */
  function Written(side: seq<Level>, xs: seq<Level>): (r: seq<Level>)
    requires |side| == Depth
    ensures |r| == Depth
  {
    xs[..Min(|xs|, Depth)] + side[Min(|xs|, Depth)..]
  }

  /** Reading a side back after writing it gives the first min(|xs|, 20)
      elements of `xs`, and the slots past them keep their old levels. */
  lemma WrittenRoundTrip(side: seq<Level>, xs: seq<Level>)
    requires |side| == Depth
    ensures Visible(Written(side, xs), Min(|xs|, Depth)) == xs[..Min(|xs|, Depth)]
    ensures Written(side, xs)[Min(|xs|, Depth)..] == side[Min(|xs|, Depth)..]
  {
    var n := Min(|xs|, Depth);
    assert Written(side, xs)[..n] == xs[..n];
  }

  /** Writing the slots a side already shows changes nothing. */
  lemma WriteVisibleIsIdentity(side: seq<Level>, count: u32)
    requires |side| == Depth
    ensures Written(side, Visible(side, count)) == side
  {
    var v := Visible(side, count);
    assert Min(|v|, Depth) == |v|;
    assert v[..|v|] == v;
    assert side[..|v|] + side[|v|..] == side;
  }

  /** `get_bids`: the levels `i < bid_count && i < 20`, in order. */
  method GetBids(self: Orderbook) returns (r: seq<Level>)
    requires self.Valid()
    ensures r == Visible(self.bids[..], self.bidCount)
  {
    r := CopyVisible(self.bids, self.bidCount);
  }

  /** `get_asks`, the same loop over the ask side. */
  method GetAsks(self: Orderbook) returns (r: seq<Level>)
    requires self.Valid()
    ensures r == Visible(self.asks[..], self.askCount)
  {
    r := CopyVisible(self.asks, self.askCount);
  }

  /** `set_bids`: the count becomes min(|xs|, 20) and exactly that many
      slots are copied; the asks, the symbol and the timestamp stay. */
  method SetBids(self: Orderbook, xs: seq<Level>)
    requires self.Valid()
    modifies self, self.bids
    ensures self.Valid() && self.bids == old(self.bids) && self.asks == old(self.asks)
    ensures self.bidCount == Min(|xs|, Depth)
    ensures self.bids[..] == Written(old(self.bids[..]), xs)
    ensures self.askCount == old(self.askCount) && self.asks[..] == old(self.asks[..])
    ensures self.symbol == old(self.symbol) && self.timestamp == old(self.timestamp)
  {
    self.bidCount := Min(|xs|, Depth);
    CopyIn(self.bids, xs);
  }

  /** `set_asks`, the mirror image of `set_bids`. */
  method SetAsks(self: Orderbook, xs: seq<Level>)
    requires self.Valid()
    modifies self, self.asks
    ensures self.Valid() && self.bids == old(self.bids) && self.asks == old(self.asks)
    ensures self.askCount == Min(|xs|, Depth)
    ensures self.asks[..] == Written(old(self.asks[..]), xs)
    ensures self.bidCount == old(self.bidCount) && self.bids[..] == old(self.bids[..])
    ensures self.symbol == old(self.symbol) && self.timestamp == old(self.timestamp)
  {
    self.askCount := Min(|xs|, Depth);
    CopyIn(self.asks, xs);
  }

  /** The getters' `push_back` loop. */
  method CopyVisible(side: array<Level>, count: u32) returns (r: seq<Level>)
    requires side.Length == Depth
    ensures r == Visible(side[..], count)
  {
    r := [];
    var i := 0;
    while i < count && i < Depth
      invariant 0 <= i <= Min(count, Depth)
      invariant r == side[..i]
    {
      r := r + [side[i]];
      i := i + 1;
    }
  }

  /** The setters' copy loop over the first min(|xs|, 20) slots. */
  method CopyIn(side: array<Level>, xs: seq<Level>)
    requires side.Length == Depth
    modifies side
    ensures side[..] == Written(old(side[..]), xs)
  {
    var n := Min(|xs|, Depth);
    var i := 0;
    while i < n
      invariant 0 <= i <= n
      invariant side[..i] == xs[..i]
      invariant side[i..] == old(side[..])[i..]
    {
      side[i] := xs[i];
      i := i + 1;
    }
    assert side[..] == side[..n] + side[n..];
  }
}
