// Bounded FIFO windows of mid-prices and the arithmetic over them that the
// rolling-window strategies share: sums, squared deviations, and the
// square-root-free form of the z-score threshold test.
module Windows {
  import opened Books
  import opened RealArith

  /** The capacity of every C++ strategy's per-symbol history. */
  const HistoryCapacity: nat := 100

  /** `push_back` followed by dropping the oldest value once the window
      holds more than `cap`. */
  function Push(h: seq<real>, x: real, cap: nat): (r: seq<real>)
    requires |h| <= cap
    ensures |r| == Min(|h| + 1, cap) && |r| <= cap
    ensures cap > 0 ==> r[|r| - 1] == x
    ensures |h| < cap ==> r == h + [x]
    ensures |h| == cap ==> r == (h + [x])[1..]
  {
    if |h + [x]| > cap then (h + [x])[1..] else h + [x]
  }

  /** The C++ strategies' in-place update of one symbol's history and its
      count: `push_back`, then `erase(begin())` past the capacity, else the
      count becomes the new size (so a count that tracked the size keeps
      tracking it). */
  method PushEvict(h: seq<real>, count: int, x: real) returns (h': seq<real>, count': int)
    requires |h| <= HistoryCapacity
    ensures h' == Push(h, x, HistoryCapacity)
    ensures count' == if |h| == HistoryCapacity then count else |h'|
  {
    h' := h + [x];
    if |h'| > HistoryCapacity {
      h' := h'[1..];
      count' := count;
    } else {
      count' := |h'|;
    }
  }

  /** The window left after pushing every value of `xs`, in order, into an
      empty one. */
  function Replay(xs: seq<real>, cap: nat): (r: seq<real>)
    ensures |r| <= cap
  {
    if |xs| == 0 then [] else Push(Replay(xs[..|xs| - 1], cap), xs[|xs| - 1], cap)
  }

  /** The window always holds exactly the most recent min(n, cap) values. */
  lemma {:induction false} ReplayIsSuffix(xs: seq<real>, cap: nat)
    ensures Replay(xs, cap) == xs[|xs| - Min(|xs|, cap)..]
  {
    if |xs| > 0 {
      var init, last := xs[..|xs| - 1], xs[|xs| - 1];
      ReplayIsSuffix(init, cap);
      assert init + [last] == xs;
      if |init| < cap {
        ShortPush(init, last, cap);
      } else {
        FullPush(xs, cap);
      }
    }
  }

  lemma ShortPush(init: seq<real>, last: real, cap: nat)
    requires |init| < cap
    ensures Push(init, last, cap) == (init + [last])[|init + [last]| - Min(|init + [last]|, cap)..]
  {
    var xs := init + [last];
    assert xs[0..] == xs;
  }

  lemma FullPush(xs: seq<real>, cap: nat)
    requires 0 < |xs| && cap <= |xs| - 1
    ensures Push(xs[..|xs| - 1][|xs| - 1 - cap..], xs[|xs| - 1], cap) == xs[|xs| - cap..]
  {
    var a := |xs| - 1 - cap;
    assert xs[..|xs| - 1][a..] + [xs[|xs| - 1]] == xs[a..];
    assert xs[a..][1..] == xs[a + 1..];
  }

  /** Sum of the values. */
  function Sum(s: seq<real>): (r: real)
  {
    if |s| == 0 then 0.0 else Sum(s[..|s| - 1]) + s[|s| - 1]
  }

  /** Summing from the front gives the same total: a value added ahead of
      a window adds to its sum. */
  lemma {:induction false} SumCons(x: real, s: seq<real>)
    ensures Sum([x] + s) == x + Sum(s)
  {
    if |s| > 0 {
      assert ([x] + s)[..|[x] + s| - 1] == [x] + s[..|s| - 1];
      SumCons(x, s[..|s| - 1]);
    } else {
      assert [x] + s == [x];
      assert [x][..0] == [];
    }
  }

  /** Sum of the squared deviations from `m`. */
  function SqDev(s: seq<real>, m: real): (r: real)
    ensures r >= 0.0
  {
    if |s| == 0 then 0.0
    else
      SquareSign(s[|s| - 1] - m);
      SqDev(s[..|s| - 1], m) + Sq(s[|s| - 1] - m)
  }

  /** Every value equal to `c`. */
  predicate Constant(s: seq<real>, c: real)
  {
    forall i :: 0 <= i < |s| ==> s[i] == c
  }

  lemma {:induction false} SumConstant(s: seq<real>, c: real)
    requires Constant(s, c)
    ensures Sum(s) == Mul(|s| as real, c)
  {
    if |s| > 0 {
      SumConstant(s[..|s| - 1], c);
    }
  }

  /** The mean of a non-empty constant window is that constant. */
  lemma MeanConstant(s: seq<real>, c: real)
    requires |s| > 0 && Constant(s, c)
    ensures Sum(s) / |s| as real == c
  {
    SumConstant(s, c);
    MulCommutes(|s| as real, c);
    DivTimes(Mul(c, |s| as real), |s| as real);
  }

  lemma {:induction false} SqDevConstant(s: seq<real>, c: real)
    requires Constant(s, c)
    ensures SqDev(s, c) == 0.0
  {
    if |s| > 0 {
      SqDevConstant(s[..|s| - 1], c);
    }
  }

  /** A window that is not constant at `m` has a positive deviation sum:
      the variance vanishes only on constant windows. */
  lemma {:induction false} SqDevPositive(s: seq<real>, m: real, k: int)
    requires 0 <= k < |s| && s[k] != m
    ensures SqDev(s, m) > 0.0
  {
    var init := s[..|s| - 1];
    SquareSign(s[|s| - 1] - m);
    if k < |s| - 1 {
      assert init[k] == s[k];
      SqDevPositive(init, m, k);
    }
  }

  /** z > t for z = d / sqrt(v / n), written without a square root. The
      variance sum `v` must be positive: a zero variance makes the source's
      quotient NaN or infinite, and real arithmetic has no such values (a
      zero variance also forces d = 0, see `SqDevPositive`). For t >= 0
      this is d > 0 and n·d² > t²·v; for t < 0 it is d >= 0 or
      n·d² < t²·v. */
  predicate ZAbove(d: real, v: real, n: real, t: real)
  {
    v > 0.0 &&
    if t >= 0.0 then d > 0.0 && Mul(n, Sq(d)) > Mul(Sq(t), v)
    else d >= 0.0 || Mul(n, Sq(d)) < Mul(Sq(t), v)
  }

  /** `ZAbove` is exactly the z-score comparison d / sigma > t for any
      standard deviation sigma > 0 with n·sigma² = v. */
  lemma ZAboveIsZScore(d: real, v: real, n: real, t: real, sigma: real)
    requires n > 0.0 && sigma > 0.0 && Mul(n, Sq(sigma)) == v
    ensures ZAbove(d, v, n, t) <==> d / sigma > t
  {
    var z := d / sigma;
    DivTimes(d, sigma);
    assert d == Mul(z, sigma);
    // n·d² = z²·v
    SquareOfProduct(z, sigma);
    assert Mul(n, Sq(d)) == Mul(Sq(z), v) by {
      MulAssociates(n, Sq(z), Sq(sigma));
      MulCommutes(n, Sq(z));
      MulAssociates(Sq(z), n, Sq(sigma));
    }
    MulCommutes(Sq(t), v);
    MulCommutes(Sq(z), v);
    SquareSign(sigma);
    MulPositive(n, Sq(sigma));
    MulStrictOrder(v, Sq(z), Sq(t));
    // the sign of d is the sign of z
    assert d > 0.0 <==> z > 0.0 by {
      MulStrictOrder(sigma, z, 0.0);
      MulCommutes(sigma, z);
    }
    assert d >= 0.0 <==> z >= 0.0 by {
      MulStrictOrder(sigma, z, 0.0);
      MulCommutes(sigma, z);
    }
    if t >= 0.0 {
      SquaresOrdered(z, t);
    } else {
      SquaresOrdered(-z, -t);
      SquareOfNegation(z);
      SquareOfNegation(t);
    }
  }
}
