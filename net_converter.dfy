// `orderbook_to_net` / `orderbook_from_net` of
// src/utils/network_converter.cpp, on the bit image of the C structs:
// every double is its 64-bit IEEE-754 pattern, which the conversions move
// without interpreting it.
module NetConverter {
  import opened Wrappers
  import opened ByteOrder

  /** Level slots per side in both structs. */
  const Slots: bv32 := 20

  /** `price_level_t` and `price_level_net_t` have the same three fields. */
  datatype RawLevel = RawLevel(price: bv64, quantity: bv64, timestamp: bv64)

  const ZeroRaw := RawLevel(0, 0, 0)

  /** `orderbook_t` as bits; the enum symbol is a 32-bit value. */
  datatype HostImage = HostImage(symbol: bv32, bids: seq<RawLevel>, asks: seq<RawLevel>,
                                 bidCount: bv32, askCount: bv32, timestamp: bv64)

  /** `orderbook_net_t`: one symbol byte, three reserved bytes. */
  datatype NetImage = NetImage(symbol: bv8, reserved: seq<bv8>, bidCount: bv32, askCount: bv32,
                               timestamp: bv64, bids: seq<RawLevel>, asks: seq<RawLevel>)

  predicate HostShaped(b: HostImage)
  {
    |b.bids| == 20 && |b.asks| == 20
  }

  predicate NetShaped(n: NetImage)
  {
    |n.reserved| == 3 && |n.bids| == 20 && |n.asks| == 20
  }

  /** The build facts the conversions depend on. */
  datatype Build = Build(macroLittle: bool, hostLittle: bool)

  /** `memset` of each struct. */
  const ZeroNet := NetImage(0, [0, 0, 0], 0, 0, 0, seq(20, _ => ZeroRaw), seq(20, _ => ZeroRaw))
  const ZeroHost := HostImage(0, seq(20, _ => ZeroRaw), seq(20, _ => ZeroRaw), 0, 0, 0)

  /** A level in network order: read back with `LevelFromNet` on the same
      build, it is bit for bit the original. */
  function LevelToNet(l: RawLevel, b: Build): (r: RawLevel)
    ensures LevelFromNet(r, b) == l
  {
    RawLevel(HtonDouble(l.price, b.macroLittle, b.hostLittle),
             HtonDouble(l.quantity, b.macroLittle, b.hostLittle),
             Hton64(l.timestamp, b.macroLittle, b.hostLittle))
  }

  /** A level read from network order: converting each field back to
      network order gives the level as received. */
  function LevelFromNet(l: RawLevel, b: Build): (r: RawLevel)
    ensures HtonDouble(r.price, b.macroLittle, b.hostLittle) == l.price
    ensures HtonDouble(r.quantity, b.macroLittle, b.hostLittle) == l.quantity
    ensures Hton64(r.timestamp, b.macroLittle, b.hostLittle) == l.timestamp
  {
    RoundTrips(0, 0, l.price, b.macroLittle, b.hostLittle);
    RoundTrips(0, 0, l.quantity, b.macroLittle, b.hostLittle);
    RoundTrips(0, 0, l.timestamp, b.macroLittle, b.hostLittle);
    RawLevel(NtohDouble(l.price, b.macroLittle, b.hostLittle),
             NtohDouble(l.quantity, b.macroLittle, b.hostLittle),
             Ntoh64(l.timestamp, b.macroLittle, b.hostLittle))
  }

  /** How many slots a loop `i < count && i < 20` visits. */
  function Visited(count: bv32): (r: nat)
    ensures r <= 20
  {
    if count < Slots then count as int else 20
  }

  /** The first `count` levels (at most 20) converted by `f`, the rest zero. */
  function ConvertLevels(levels: seq<RawLevel>, count: bv32, f: RawLevel -> RawLevel): (r: seq<RawLevel>)
    requires |levels| == 20
    ensures |r| == 20
    ensures forall i :: 0 <= i < 20 ==> r[i] == if i < Visited(count) then f(levels[i]) else ZeroRaw
  {
    seq(20, i requires 0 <= i < 20 => if i < Visited(count) then f(levels[i]) else ZeroRaw)
  }

  /** `orderbook_to_net` as a value: header converted, the symbol cut to
      its low byte, the first min(count, 20) levels of each side
      converted and every other byte zero. */
  function WireImage(local: HostImage, b: Build): (n: NetImage)
    requires HostShaped(local)
    ensures NetShaped(n) && n.reserved == [0, 0, 0]
    ensures forall i :: Visited(local.bidCount) <= i < 20 ==> n.bids[i] == ZeroRaw
    ensures forall i :: Visited(local.askCount) <= i < 20 ==> n.asks[i] == ZeroRaw
  {
    NetImage((local.symbol & 0xFF) as bv8, [0, 0, 0],
             Hton32(local.bidCount, b.hostLittle), Hton32(local.askCount, b.hostLittle),
             Hton64(local.timestamp, b.macroLittle, b.hostLittle),
             ConvertLevels(local.bids, local.bidCount, l => LevelToNet(l, b)),
             ConvertLevels(local.asks, local.askCount, l => LevelToNet(l, b)))
  }

  /** `orderbook_from_net` as a value: the symbol byte widened, the counts
      converted and kept as they are (even above 20), and the first
      min(count, 20) levels converted. */
  function HostOf(net: NetImage, b: Build): (h: HostImage)
    requires NetShaped(net)
    ensures HostShaped(h)
    ensures forall i :: Visited(h.bidCount) <= i < 20 ==> h.bids[i] == ZeroRaw
    ensures forall i :: Visited(h.askCount) <= i < 20 ==> h.asks[i] == ZeroRaw
  {
    var bidCount := Ntoh32(net.bidCount, b.hostLittle);
    var askCount := Ntoh32(net.askCount, b.hostLittle);
    HostImage(net.symbol as bv32,
              ConvertLevels(net.bids, bidCount, l => LevelFromNet(l, b)),
              ConvertLevels(net.asks, askCount, l => LevelFromNet(l, b)),
              bidCount, askCount, Ntoh64(net.timestamp, b.macroLittle, b.hostLittle))
  }

  /** A host book with its levels from the count on (or from 20) zeroed:
      what a round trip can keep. */
  function Kept(h: HostImage): (r: HostImage)
    requires HostShaped(h)
  {
    h.(bids := ConvertLevels(h.bids, h.bidCount, l => l),
       asks := ConvertLevels(h.asks, h.askCount, l => l))
  }

  /** One side: converting the visited levels there and back keeps them. */
  lemma LevelsRoundTrip(levels: seq<RawLevel>, count: bv32, b: Build)
    requires |levels| == 20
    ensures ConvertLevels(ConvertLevels(levels, count, l => LevelToNet(l, b)), count, l => LevelFromNet(l, b)) ==
            ConvertLevels(levels, count, l => l)
  {
    var there := ConvertLevels(levels, count, l => LevelToNet(l, b));
    var back := ConvertLevels(there, count, l => LevelFromNet(l, b));
    forall i | 0 <= i < 20
      ensures back[i] == ConvertLevels(levels, count, l => l)[i]
    {
      assert back[i] == if i < Visited(count) then LevelFromNet(LevelToNet(levels[i], b), b) else ZeroRaw;
    }
  }

  lemma SymbolByte(symbol: bv32)
    requires symbol < 0x100
    ensures ((symbol & 0xFF) as bv8) as bv32 == symbol
  {
  }

  /** Reading back what was written gives the book back, header and the
      first min(count, 20) levels of each side, with every later level
      zero; the symbol survives when it fits in a byte. */
  lemma RoundTrip(local: HostImage, b: Build)
    requires HostShaped(local) && local.symbol < 0x100
    ensures HostOf(WireImage(local, b), b) == Kept(local)
  {
    RoundTrips(0, local.bidCount, 0, b.macroLittle, b.hostLittle);
    RoundTrips(0, local.askCount, 0, b.macroLittle, b.hostLittle);
    RoundTrips(0, 0, local.timestamp, b.macroLittle, b.hostLittle);
    LevelsRoundTrip(local.bids, local.bidCount, b);
    LevelsRoundTrip(local.asks, local.askCount, b);
    SymbolByte(local.symbol);
  }

  /** One side's loop: starting from the zeroed slots, converts slot i for
      as long as i < count and i < 20. */
  method ConvertSide(src: seq<RawLevel>, count: bv32, f: RawLevel -> RawLevel) returns (dst: seq<RawLevel>)
    requires |src| == 20
    ensures dst == ConvertLevels(src, count, f)
  {
    dst := seq(20, _ => ZeroRaw);
    var i := 0;
    while i < Visited(count)
      invariant 0 <= i <= Visited(count) && |dst| == 20
      invariant forall k :: 0 <= k < 20 ==> dst[k] == if k < i then f(src[k]) else ZeroRaw
    {
      dst := dst[i := f(src[i])];
      i := i + 1;
    }
  }

  /** `orderbook_to_net`: a null argument (None) leaves the output as it
      was; otherwise the output is zeroed and filled field by field. */
  method OrderbookToNet(local: Option<HostImage>, net: Option<NetImage>, b: Build) returns (r: Option<NetImage>)
    requires local.Some? ==> HostShaped(local.value)
    ensures local.None? || net.None? ==> r == net
    ensures local.Some? && net.Some? ==> r == Some(WireImage(local.value, b))
  {
    if local.None? || net.None? {
      return net;
    }
    var l := local.value;
    var n := ZeroNet;
    n := n.(symbol := (l.symbol & 0xFF) as bv8);
    n := n.(bidCount := Hton32(l.bidCount, b.hostLittle), askCount := Hton32(l.askCount, b.hostLittle));
    n := n.(timestamp := Hton64(l.timestamp, b.macroLittle, b.hostLittle));
    var bids := ConvertSide(l.bids, l.bidCount, x => LevelToNet(x, b));
    var asks := ConvertSide(l.asks, l.askCount, x => LevelToNet(x, b));
    n := n.(bids := bids, asks := asks);
    r := Some(n);
  }

  /** `orderbook_from_net`: the same shape the other way; the loops are
      bounded by the converted counts, which are stored as received. */
  method OrderbookFromNet(net: Option<NetImage>, local: Option<HostImage>, b: Build) returns (r: Option<HostImage>)
    requires net.Some? ==> NetShaped(net.value)
    ensures net.None? || local.None? ==> r == local
    ensures net.Some? && local.Some? ==> r == Some(HostOf(net.value, b))
  {
    if net.None? || local.None? {
      return local;
    }
    var n := net.value;
    var h := ZeroHost;
    h := h.(symbol := n.symbol as bv32);
    h := h.(bidCount := Ntoh32(n.bidCount, b.hostLittle), askCount := Ntoh32(n.askCount, b.hostLittle));
    h := h.(timestamp := Ntoh64(n.timestamp, b.macroLittle, b.hostLittle));
    var bids := ConvertSide(n.bids, h.bidCount, x => LevelFromNet(x, b));
    var asks := ConvertSide(n.asks, h.askCount, x => LevelFromNet(x, b));
    h := h.(bids := bids, asks := asks);
    r := Some(h);
  }
}
