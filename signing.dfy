// Request signing of src/execution/order_executor.cpp: the lowercase
// base-16 rendering of an HMAC-SHA256 digest, the decimal rendering of
// numbers written into queries, and the composition of the signed query
// string "<query>&timestamp=<ms>&signature=<hex>".
module Signing {
  import opened Books
  import opened Wrappers

  /** A SHA-256 digest: 32 bytes. */
  type Digest = d: seq<u8> | |d| == 32 witness seq(32, i => 0 as u8)

  /** Text with no '&': one field of a query string. */
  type Token = s: string | '&' !in s

  predicate IsHexDigit(c: char)
  {
    '0' <= c <= '9' || 'a' <= c <= 'f'
  }

  function HexDigit(v: int): (c: char)
    requires 0 <= v < 16
    ensures IsHexDigit(c)
  {
    if v < 10 then ('0' as int + v) as char else ('a' as int + v - 10) as char
  }

  function HexValue(c: char): int
  {
    if '0' <= c <= '9' then c as int - '0' as int
    else if 'a' <= c <= 'f' then c as int - 'a' as int + 10
    else 0
  }

  /** `std::hex << setw(2) << setfill('0')` on one byte. */
  function HexByte(b: u8): (r: string)
    ensures |r| == 2 && IsHexDigit(r[0]) && IsHexDigit(r[1])
    ensures HexValue(r[0]) * 16 + HexValue(r[1]) == b
  {
    [HexDigit(b / 16), HexDigit(b % 16)]
  }

  /** The bytes in order, two digits each. */
  function HexString(d: seq<u8>): (r: string)
    ensures |r| == 2 * |d|
    ensures forall i :: 0 <= i < |r| ==> IsHexDigit(r[i])
  {
    if |d| == 0 then "" else HexString(d[..|d| - 1]) + HexByte(d[|d| - 1])
  }

  /** Reads the digits back, two per byte. */
  function Unhex(s: string): (r: seq<int>)
    requires |s| % 2 == 0
  {
    if |s| == 0 then []
    else Unhex(s[..|s| - 2]) + [HexValue(s[|s| - 2]) * 16 + HexValue(s[|s| - 1])]
  }

  /** The encoding loses nothing: decoding it gives the digest back. */
  lemma {:induction false} UnhexHexString(d: seq<u8>)
    ensures Unhex(HexString(d)) == d
  {
    if |d| > 0 {
      var init, last := d[..|d| - 1], d[|d| - 1];
      var s := HexString(d);
      var h := HexByte(last);
      assert s == HexString(init) + h;
      assert s[..|s| - 2] == HexString(init);
      assert s[|s| - 2] == h[0] && s[|s| - 1] == h[1];
      assert HexValue(s[|s| - 2]) * 16 + HexValue(s[|s| - 1]) == last as int;
      assert Unhex(s) == Unhex(HexString(init)) + [last as int];
      UnhexHexString(init);
      assert d == init + [last];
    }
  }

  /** The 32-iteration loop of `hmac_sha256`: 64 lowercase hex digits. */
  method HexDigest(d: Digest) returns (s: string)
    ensures s == HexString(d) && |s| == 64
  {
    s := "";
    var i := 0;
    while i < 32
      invariant 0 <= i <= 32
      invariant s == HexString(d[..i])
    {
      assert d[..i + 1][..i] == d[..i];
      s := s + HexByte(d[i]);
      i := i + 1;
    }
    assert d[..32] == d;
  }

  /** The signature text: the digest in hex, or "" when HMAC gave none. */
  function Signature(digest: Option<Digest>): (r: string)
    ensures digest.None? <==> r == ""
    ensures digest.Some? ==> |r| == 64 && Unhex(r) == digest.value
    ensures forall i :: 0 <= i < |r| ==> IsHexDigit(r[i])
  {
    match digest
    case None => ""
    case Some(d) => UnhexHexString(d); HexString(d)
  }

  /** `std::to_string` / `operator<<` of a non-negative integer. */
  function Decimal(n: nat): (r: string)
    ensures |r| >= 1 && forall i :: 0 <= i < |r| ==> '0' <= r[i] <= '9'
  {
    if n < 10 then [('0' as int + n) as char]
    else Decimal(n / 10) + [('0' as int + n % 10) as char]
  }

  /** Reads a run of decimal digits, most significant first; the inverse
      of `Decimal`, and never negative on digits. */
  function ParseDecimal(s: string): (r: int)
    ensures (forall i :: 0 <= i < |s| ==> '0' <= s[i] <= '9') ==> r >= 0
  {
    if |s| == 0 then 0
    else ParseDecimal(s[..|s| - 1]) * 10 + (s[|s| - 1] as int - '0' as int)
  }

  /** The decimal text reads back as the number it renders. */
  lemma {:induction false} ParseDecimalOfDecimal(n: nat)
    ensures ParseDecimal(Decimal(n)) == n
  {
    if n >= 10 {
      var s := Decimal(n);
      assert s[..|s| - 1] == Decimal(n / 10);
      ParseDecimalOfDecimal(n / 10);
    }
  }

  /** The fields of a query string, split at every '&'. */
  function Fields(s: string): (r: seq<string>)
    ensures |r| >= 1
  {
    if |s| == 0 then [""]
    else if s[0] == '&' then [""] + Fields(s[1..])
    else var rest := Fields(s[1..]); [[s[0]] + rest[0]] + rest[1..]
  }

  /** Text without '&' is a single field. */
  lemma {:induction false} FieldsOfToken(t: string)
    requires '&' !in t
    ensures Fields(t) == [t]
  {
    if |t| > 0 {
      assert '&' !in t[1..] by {
        forall k | 0 <= k < |t[1..]| ensures t[1..][k] != '&' { assert t[1..][k] == t[k + 1]; }
      }
      FieldsOfToken(t[1..]);
      assert [t[0]] + t[1..] == t;
    }
  }

  /** Joining two strings with '&' joins their field lists. */
  lemma {:induction false} FieldsOfJoin(a: string, b: string)
    ensures Fields(a + "&" + b) == Fields(a) + Fields(b)
  {
    if |a| == 0 {
      assert a + "&" + b == "&" + b;
      assert ("&" + b)[1..] == b;
    } else {
      assert (a + "&" + b)[1..] == a[1..] + "&" + b;
      assert (a + "&" + b)[0] == a[0];
      FieldsOfJoin(a[1..], b);
    }
  }

  /** Decimal text holds no '&'. */
  lemma DecimalIsToken(n: nat)
    ensures '&' !in Decimal(n)
  {
    var d := Decimal(n);
    forall k | 0 <= k < |d| ensures d[k] != '&' { assert '0' <= d[k] <= '9'; }
  }

  /** The timestamp field holds no '&'. */
  lemma TimestampIsToken(nowMs: nat)
    ensures '&' !in "timestamp=" + Decimal(nowMs)
  {
    var d := Decimal(nowMs);
    DecimalIsToken(nowMs);
    assert '&' !in "timestamp=";
    var ts := "timestamp=" + d;
    forall k | 0 <= k < |ts| ensures ts[k] != '&' {
      if k < 10 { assert ts[k] == "timestamp="[k]; } else { assert ts[k] == d[k - 10]; }
    }
  }

  /** The string `send_signed_request` signs: the query, an '&' only when
      the query is non-empty, then the millisecond timestamp. Its fields
      are the caller's (none for an empty query) and one timestamp field. */
  function ToSign(query: string, nowMs: nat): (r: string)
    ensures Fields(r) == (if query == "" then [] else Fields(query)) + ["timestamp=" + Decimal(nowMs)]
  {
    var ts := "timestamp=" + Decimal(nowMs);
    TimestampIsToken(nowMs);
    FieldsOfToken(ts);
    if query == "" then
      assert "" + ts == ts;
      "" + ts
    else
      assert (query + "&") + ts == query + "&" + ts;
      FieldsOfJoin(query, ts);
      (query + "&") + ts
  }

  /** The full query sent: the signed string, '&' and the signature
      field. An '&'-free signature leaves the caller's fields followed by
      exactly a timestamp field and a signature field. */
  function SignedQuery(query: string, nowMs: nat, signature: string): (r: string)
    ensures '&' !in signature ==>
              Fields(r) == (if query == "" then [] else Fields(query)) +
                           ["timestamp=" + Decimal(nowMs), "signature=" + signature]
  {
    var signed := ToSign(query, nowMs);
    var field := "signature=" + signature;
    assert signed + "&signature=" + signature == signed + "&" + field;
    FieldsOfJoin(signed, field);
    if '&' in signature then signed + "&signature=" + signature
    else
      SignatureFieldIsToken(signature);
      FieldsOfToken(field);
      signed + "&signature=" + signature
  }

  /** The signature field of an '&'-free signature holds no '&'. */
  lemma SignatureFieldIsToken(signature: string)
    requires '&' !in signature
    ensures '&' !in "signature=" + signature
  {
    var field := "signature=" + signature;
    forall k | 0 <= k < |field| ensures field[k] != '&' {
      if k < 10 { assert field[k] == "signature="[k]; } else { assert field[k] == signature[k - 10]; }
    }
  }
}
