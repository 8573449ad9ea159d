// The level-array reader that `rest_client_get_orderbook`
// (src/market_data/rest_client.cpp) and `websocket_write_callback`
// (src/market_data/websocket_client.cpp) both run over a parsed JSON
// "bids"/"asks" array, writing through to an `orderbook_t`.
module DepthReply {
  import opened Books
  import opened Wrappers
  import opened BookStruct

  /** One cell of a level after `get<std::string>()` and `std::stod`: the
      number read, or a cell that throws (not a string, or no number at
      its start). */
  datatype Cell = Num(v: real) | Bad

  /** One element of a side array: anything that is not an array of at
      least two items, or such an array's first two cells. */
  datatype Entry = NotALevel | Pair(price: Cell, quantity: Cell)

  /** How many slots the loop visits: the array size cut to `uint32_t`,
      then clamped to 20. */
  function Clamped(size: nat): (r: nat)
    ensures r <= Depth && r <= size
    ensures size < 0x1_0000_0000 ==> r == Min(size, Depth)
  {
    Min(size % 0x1_0000_0000, Depth)
  }

  /** Slots after the loop, and whether it ran to the end without a
      throwing cell. */
  datatype Fill = Fill(levels: seq<Level>, ok: bool)

  /** The loop from slot `i` to `n`: a pair's price is written, then its
      quantity; a throwing cell ends the loop with the writes made so far;
      a non-level leaves its slot alone. */
  function FillFrom(levels: seq<Level>, entries: seq<Entry>, i: nat, n: nat): (r: Fill)
    requires i <= n <= |levels| && n <= |entries|
    ensures |r.levels| == |levels|
    decreases n - i
  {
    if i == n then Fill(levels, true)
    else match entries[i]
      case NotALevel => FillFrom(levels, entries, i + 1, n)
      case Pair(p, q) =>
        if p.Bad? then Fill(levels, false)
        else
          var priced := levels[i := levels[i].(price := p.v)];
          if q.Bad? then Fill(priced, false)
          else FillFrom(priced[i := priced[i].(quantity := q.v)], entries, i + 1, n)
  }

  /** No level among entries[i..n) has a throwing cell. */
  predicate Readable(entries: seq<Entry>, i: nat, n: nat)
    requires n <= |entries|
  {
    forall j :: i <= j < n ==> Stored(entries[j])
  }

  predicate Stored(e: Entry)
  {
    e.Pair? ==> e.price.Num? && e.quantity.Num?
  }

  /** What a slot holds once its entry has been read without a throw. */
  function Read(l: Level, e: Entry): (r: Level)
    requires Stored(e)
    ensures r.timestamp == l.timestamp
  {
    match e
    case NotALevel => l
    case Pair(p, q) => l.(price := p.v, quantity := q.v)
  }

  /** The loop finishes exactly when every visited level is readable; then
      each visited slot holds its entry's numbers and every slot outside
      [i, n) is untouched. Even after a throw, slots outside [i, n) keep
      their old levels. */
  lemma {:induction false} FillFromSpec(levels: seq<Level>, entries: seq<Entry>, i: nat, n: nat)
    requires i <= n <= |levels| && n <= |entries|
    ensures FillFrom(levels, entries, i, n).ok <==> Readable(entries, i, n)
    ensures forall j :: 0 <= j < |levels| && !(i <= j < n) ==>
              FillFrom(levels, entries, i, n).levels[j] == levels[j]
    ensures Readable(entries, i, n) ==> forall j :: i <= j < n ==>
              FillFrom(levels, entries, i, n).levels[j] == Read(levels[j], entries[j])
    decreases n - i
  {
    if i < n {
      match entries[i]
      case NotALevel =>
        FillFromSpec(levels, entries, i + 1, n);
        assert Readable(entries, i, n) <==> Readable(entries, i + 1, n) by {
          assert Stored(entries[i]);
        }
      case Pair(p, q) =>
        if p.Bad? || q.Bad? {
          assert !Stored(entries[i]);
        } else {
          var next := levels[i := Read(levels[i], entries[i])];
          var priced := levels[i := levels[i].(price := p.v)];
          assert priced[i := priced[i].(quantity := q.v)] == next;
          FillFromSpec(next, entries, i + 1, n);
          assert Readable(entries, i, n) <==> Readable(entries, i + 1, n) by {
            assert Stored(entries[i]);
          }
        }
    }
  }

  /** A side with no throwing cell among the levels the loop visits. */
  predicate SideReadable(field: Option<seq<Entry>>)
  {
    field.Some? ==> Readable(field.value, 0, Clamped(|field.value|))
  }

  /** One side of the reply applied to one side of the struct: an absent
      (or non-array) side changes nothing; otherwise the count becomes the
      clamped size before the loop runs. */
  datatype Side = Side(levels: seq<Level>, count: u32, ok: bool)

  function ReadSide(levels: seq<Level>, count: u32, field: Option<seq<Entry>>): (r: Side)
    requires |levels| == Depth
    ensures |r.levels| == Depth
    ensures field.None? ==> r == Side(levels, count, true)
    ensures field.Some? ==> r.count == Clamped(|field.value|)
  {
    match field
    case None => Side(levels, count, true)
    case Some(es) =>
      var f := FillFrom(levels, es, 0, Clamped(|es|));
      Side(f.levels, Clamped(|es|) as u32, f.ok)
  }

  /** The side reader succeeds exactly when the visited levels are
      readable, and then slot j holds entry j for j below the new count and
      its old level from the count on. */
  lemma ReadSideSpec(levels: seq<Level>, count: u32, es: seq<Entry>)
    requires |levels| == Depth
    ensures ReadSide(levels, count, Some(es)).ok <==> Readable(es, 0, Clamped(|es|))
    ensures Readable(es, 0, Clamped(|es|)) ==>
              (forall j :: 0 <= j < Clamped(|es|) ==>
                 ReadSide(levels, count, Some(es)).levels[j] == Read(levels[j], es[j])) &&
              ReadSide(levels, count, Some(es)).levels[Clamped(|es|)..] == levels[Clamped(|es|)..]
  {
    FillFromSpec(levels, es, 0, Clamped(|es|));
  }

  /** The loop `for (i = 0; i < count; i++)` over one side array. */
  method FillSide(side: array<Level>, entries: seq<Entry>, n: nat) returns (ok: bool)
    requires n <= side.Length && n <= |entries|
    modifies side
    ensures Fill(side[..], ok) == FillFrom(old(side[..]), entries, 0, n)
  {
    var i := 0;
    while i < n
      invariant 0 <= i <= n
      invariant FillFrom(side[..], entries, i, n) == FillFrom(old(side[..]), entries, 0, n)
    {
      match entries[i] {
        case NotALevel =>
        case Pair(p, q) =>
          if p.Bad? {
            return false;
          }
          side[i] := side[i].(price := p.v);
          if q.Bad? {
            return false;
          }
          side[i] := side[i].(quantity := q.v);
      }
      i := i + 1;
    }
    ok := true;
  }

  /** Reading the "bids" field into the struct. */
  method ReadBids(book: Orderbook, field: Option<seq<Entry>>) returns (ok: bool)
    requires book.Valid()
    modifies book, book.bids
    ensures book.Valid() && book.bids == old(book.bids) && book.asks == old(book.asks)
    ensures Side(book.bids[..], book.bidCount, ok) == ReadSide(old(book.bids[..]), old(book.bidCount), field)
    ensures book.asks[..] == old(book.asks[..]) && book.askCount == old(book.askCount)
    ensures book.symbol == old(book.symbol) && book.timestamp == old(book.timestamp)
  {
    ok := true;
    if field.Some? {
      var n := Clamped(|field.value|);
      book.bidCount := n;
      ok := FillSide(book.bids, field.value, n);
    }
  }

  /** Reading the "asks" field into the struct. */
  method ReadAsks(book: Orderbook, field: Option<seq<Entry>>) returns (ok: bool)
    requires book.Valid()
    modifies book, book.asks
    ensures book.Valid() && book.bids == old(book.bids) && book.asks == old(book.asks)
    ensures Side(book.asks[..], book.askCount, ok) == ReadSide(old(book.asks[..]), old(book.askCount), field)
    ensures book.bids[..] == old(book.bids[..]) && book.bidCount == old(book.bidCount)
    ensures book.symbol == old(book.symbol) && book.timestamp == old(book.timestamp)
  {
    ok := true;
    if field.Some? {
      var n := Clamped(|field.value|);
      book.askCount := n;
      ok := FillSide(book.asks, field.value, n);
    }
  }
}
