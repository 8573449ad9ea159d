// Host/network byte-order conversions of src/utils/network_utils.h, on
// bit-vectors. Two facts about the build enter as parameters: whether the
// header's endianness detection concluded little-endian (`macroLittle`,
// which selects the 64-bit code path) and whether the host really is
// little-endian (`hostLittle`, which decides what the POSIX `htons`/
// `htonl` do).
module ByteOrder {
  import opened Wrappers

  /** The values of `__ORDER_LITTLE_ENDIAN__` and `__ORDER_BIG_ENDIAN__`. */
  const OrderLittleEndian := 1234
  const OrderBigEndian := 4321

  /** `IS_LITTLE_ENDIAN`: from `__BYTE_ORDER__` when it is defined, else
      from the little-endian hints (`__LITTLE_ENDIAN__`, `_WIN32`,
      `__i386__`, `__x86_64__`) and then `__BIG_ENDIAN__`; anything
      unrecognised counts as little-endian. */
  function IsLittleEndian(byteOrder: Option<int>, littleHint: bool, bigHint: bool): (r: bool)
    ensures !r <==> byteOrder == Some(OrderBigEndian) || (byteOrder.None? && !littleHint && bigHint)
  {
    match byteOrder
    case Some(v) => if v == OrderLittleEndian then true else if v == OrderBigEndian then false else true
    case None => if littleHint then true else if bigHint then false else true
  }

  function Swap16(x: bv16): bv16
  {
    (x << 8) | (x >> 8)
  }

  function Swap32(x: bv32): bv32
  {
    (x << 24) | ((x << 8) & 0xFF_0000) | ((x >> 8) & 0xFF00) | (x >> 24)
  }

  /** POSIX `htons`/`ntohs`: a swap on a little-endian host, else nothing. */
  function Htons(x: bv16, hostLittle: bool): bv16
  {
    if hostLittle then Swap16(x) else x
  }

  /** POSIX `htonl`/`ntohl`. */
  function Htonl(x: bv32, hostLittle: bool): bv32
  {
    if hostLittle then Swap32(x) else x
  }

  function High(x: bv64): bv32
  {
    (x >> 32) as bv32
  }

  function Low(x: bv64): bv32
  {
    (x & 0xFFFF_FFFF) as bv32
  }

  /** `hton16`: the network value converts back to the host value; on a
      little-endian host its two bytes are the host value's, swapped. */
  function Hton16(host: bv16, hostLittle: bool): (net: bv16)
    ensures Htons(net, hostLittle) == host
    ensures hostLittle ==> (net & 0xFF) == (host >> 8) && (net >> 8) == (host & 0xFF)
    ensures !hostLittle ==> net == host
  {
    SwapsAreInvolutions(host, 0);
    Htons(host, hostLittle)
  }

  /** `ntoh16`: the same swap read the other way. */
  function Ntoh16(net: bv16, hostLittle: bool): (host: bv16)
    ensures Htons(host, hostLittle) == net
    ensures hostLittle ==> (host & 0xFF) == (net >> 8) && (host >> 8) == (net & 0xFF)
    ensures !hostLittle ==> host == net
  {
    SwapsAreInvolutions(net, 0);
    Htons(net, hostLittle)
  }

  /** `hton32`: converts back under `htonl`, and is the identity on a
      big-endian host. */
  function Hton32(host: bv32, hostLittle: bool): (net: bv32)
    ensures Htonl(net, hostLittle) == host
    ensures !hostLittle ==> net == host
  {
    HtonlInvolution(host, hostLittle);
    Htonl(host, hostLittle)
  }

  function Ntoh32(net: bv32, hostLittle: bool): (host: bv32)
    ensures Htonl(host, hostLittle) == net
    ensures !hostLittle ==> host == net
  {
    HtonlInvolution(net, hostLittle);
    Htonl(net, hostLittle)
  }

  /** The 64-bit little-endian path of the header: htonl of the high half
      becomes the low half and htonl of the low half the high half. */
  function Crossed(x: bv64, hostLittle: bool): bv64
  {
    (Htonl(High(x), hostLittle) as bv64) | ((Htonl(Low(x), hostLittle) as bv64) << 32)
  }

  /** `hton64`: the crossed halves when the header detected a
      little-endian build, else the value itself. `ntoh64` restores the
      value on every build, even one whose detection disagrees with the
      host. */
  function Hton64(host: bv64, macroLittle: bool, hostLittle: bool): (net: bv64)
    ensures Ntoh64(net, macroLittle, hostLittle) == host
    ensures !macroLittle ==> net == host
  {
    if !macroLittle then host
    else
      CrossedInvolution(host, hostLittle);
      Crossed(host, hostLittle)
  }

  /** `ntoh64`, written out separately in the header with the same body:
      crossing the halves of the result again gives back what was
      received. */
  function Ntoh64(net: bv64, macroLittle: bool, hostLittle: bool): (host: bv64)
    ensures macroLittle ==> Crossed(host, hostLittle) == net
    ensures !macroLittle ==> host == net
  {
    if !macroLittle then net
    else
      CrossedInvolution(net, hostLittle);
      Crossed(net, hostLittle)
  }

  /** `hton_double`/`ntoh_double` act on a double's 64-bit pattern. */
  function HtonDouble(bits: bv64, macroLittle: bool, hostLittle: bool): (net: bv64)
    ensures NtohDouble(net, macroLittle, hostLittle) == bits
    ensures !macroLittle ==> net == bits
  {
    Hton64(bits, macroLittle, hostLittle)
  }

  function NtohDouble(bits: bv64, macroLittle: bool, hostLittle: bool): (host: bv64)
    ensures macroLittle ==> Crossed(host, hostLittle) == bits
    ensures !macroLittle ==> host == bits
  {
    Ntoh64(bits, macroLittle, hostLittle)
  }

  /** Byte `k` of a value, counting from the least significant. */
  function Byte(x: bv64, k: bv7): bv8
    requires k < 8
  {
    ((x >> (8 * k)) & 0xFF) as bv8
  }

  /** The bytes of a value, most significant first (network order). */
  function BigEndianBytes(x: bv64): (r: seq<bv8>)
    ensures |r| == 8
  {
    [Byte(x, 7), Byte(x, 6), Byte(x, 5), Byte(x, 4), Byte(x, 3), Byte(x, 2), Byte(x, 1), Byte(x, 0)]
  }

  /** The bytes a little-endian host keeps in memory, least significant
      first. */
  function LittleEndianBytes(x: bv64): (r: seq<bv8>)
    ensures |r| == 8
  {
    [Byte(x, 0), Byte(x, 1), Byte(x, 2), Byte(x, 3), Byte(x, 4), Byte(x, 5), Byte(x, 6), Byte(x, 7)]
  }

  lemma SwapsAreInvolutions(x16: bv16, x32: bv32)
    ensures Swap16(Swap16(x16)) == x16 && Swap32(Swap32(x32)) == x32
  {
  }

  /** A value is its two halves put together. */
  lemma HalvesTogether(x: bv64)
    ensures (Low(x) as bv64) | ((High(x) as bv64) << 32) == x
  {
  }

  lemma HtonlInvolution(x: bv32, hostLittle: bool)
    ensures Htonl(Htonl(x, hostLittle), hostLittle) == x
  {
    SwapsAreInvolutions(0, x);
  }

  /** The halves of a converted value are the converted halves, crossed. */
  lemma HighOfHton64(x: bv64, hostLittle: bool)
    ensures High(Hton64(x, true, hostLittle)) == Htonl(Low(x), hostLittle)
  {
  }

  lemma LowOfHton64(x: bv64, hostLittle: bool)
    ensures Low(Hton64(x, true, hostLittle)) == Htonl(High(x), hostLittle)
  {
  }

  /** Crossing the halves twice restores the value. */
  lemma CrossedInvolution(x: bv64, hostLittle: bool)
    ensures Crossed(Crossed(x, hostLittle), hostLittle) == x
  {
    HighOfCrossed(x, hostLittle);
    LowOfCrossed(x, hostLittle);
    CrossedHalvesRestore(Crossed(x, hostLittle), x, hostLittle);
  }

  lemma HighOfCrossed(x: bv64, hostLittle: bool)
    ensures High(Crossed(x, hostLittle)) == Htonl(Low(x), hostLittle)
  {
  }

  lemma LowOfCrossed(x: bv64, hostLittle: bool)
    ensures Low(Crossed(x, hostLittle)) == Htonl(High(x), hostLittle)
  {
  }

  /** A value whose halves are the converted halves of `x`, crossed,
      crosses back to `x`. */
  lemma CrossedHalvesRestore(y: bv64, x: bv64, hostLittle: bool)
    requires High(y) == Htonl(Low(x), hostLittle) && Low(y) == Htonl(High(x), hostLittle)
    ensures Crossed(y, hostLittle) == x
  {
    HtonlInvolution(High(x), hostLittle);
    HtonlInvolution(Low(x), hostLittle);
    HalvesTogether(x);
  }

  /** Every conversion is undone by its counterpart, on every build. */
  lemma RoundTrips(x16: bv16, x32: bv32, x64: bv64, macroLittle: bool, hostLittle: bool)
    ensures Ntoh16(Hton16(x16, hostLittle), hostLittle) == x16
    ensures Hton16(Ntoh16(x16, hostLittle), hostLittle) == x16
    ensures Ntoh32(Hton32(x32, hostLittle), hostLittle) == x32
    ensures Hton32(Ntoh32(x32, hostLittle), hostLittle) == x32
    ensures Ntoh64(Hton64(x64, macroLittle, hostLittle), macroLittle, hostLittle) == x64
    ensures Hton64(Ntoh64(x64, macroLittle, hostLittle), macroLittle, hostLittle) == x64
    ensures NtohDouble(HtonDouble(x64, macroLittle, hostLittle), macroLittle, hostLittle) == x64
  {
    Ntoh64IsHton64(x64, macroLittle, hostLittle);
    Ntoh64IsHton64(Hton64(x64, macroLittle, hostLittle), macroLittle, hostLittle);
  }

  /** `hton64` and `ntoh64` are one and the same function. */
  lemma Ntoh64IsHton64(x: bv64, macroLittle: bool, hostLittle: bool)
    ensures Ntoh64(x, macroLittle, hostLittle) == Hton64(x, macroLittle, hostLittle)
  {
  }

  /** On a little-endian host whose build detected it, the converted value
      sits in memory as the original's network-order bytes: `hton64` is a
      full 8-byte reversal. On a big-endian build it is the identity. */
  lemma Hton64IsByteReversal(x: bv64)
    ensures LittleEndianBytes(Hton64(x, true, true)) == BigEndianBytes(x)
    ensures Hton64(x, false, false) == x
  {
  }

  /** `hton32` is a 4-byte reversal on a little-endian host. */
  lemma Hton32IsByteReversal(x: bv32)
    ensures (Hton32(x, true) & 0xFF) == (x >> 24)
    ensures ((Hton32(x, true) >> 8) & 0xFF) == ((x >> 16) & 0xFF)
    ensures ((Hton32(x, true) >> 16) & 0xFF) == ((x >> 8) & 0xFF)
    ensures (Hton32(x, true) >> 24) == (x & 0xFF)
  {
  }
}
