// The C++ moving-average momentum strategy of src/strategy/momentum_strategy.cpp.
module Momentum {
  import opened Books
  import opened FloatQuotient
  import opened RealArith
  import opened Trading
  import opened Windows

  /** The mean of the newest `n` values. */
  function Average(h: seq<real>, n: nat): real
    requires 1 <= n <= |h|
  {
    Sum(h[|h| - n..]) / n as real
  }

  /** The usual parameters: both averages over at least one value, the
      short one no longer than the long one. */
  predicate PeriodsOk(p: StrategyParams)
  {
    1 <= p.shortPeriod <= p.longPeriod
  }

  /** The newest-first loops read only inside the history: the long loop
      runs only once the length check has passed, and the short loop then
      reads back `short_period` values, which must exist. */
  predicate ReadsInBounds(n: int, p: StrategyParams)
  {
    p.longPeriod < 0 || n < p.longPeriod || p.shortPeriod <= n
  }

  /** The sum of the newest `n` values, 0 when the loop does not run. */
  function NewestTotal(h: seq<real>, n: int): real
    requires n <= |h|
  {
    if n <= 0 then 0.0 else Sum(h[|h| - n..])
  }

  /** `sum / period` in double precision: 0/0 is NaN, and 0 over a
      negative period is a (negative) zero. */
  function MovingAverage(h: seq<real>, n: int): (r: Quotient)
    requires n <= |h|
    ensures n >= 1 ==> r == Finite(Average(h, n))
    ensures n < 0 ==> r == Finite(0.0)
    ensures n == 0 ==> r == NaN
  {
    Div(NewestTotal(h, n), n as real)
  }

  /** (S − L)/L in double precision: NaN as soon as either average is not
      a finite number, and for two zero averages; against a zero L the
      sign of S picks the infinity. A finite momentum m has S = L·(1 + m). */
  function MomentumOf(shortMa: Quotient, longMa: Quotient): (m: Quotient)
    ensures m.Finite? <==> shortMa.Finite? && longMa.Finite? && longMa.v != 0.0
    ensures m.Finite? ==> Mul(longMa.v, 1.0 + m.v) == shortMa.v
    ensures shortMa.Finite? && longMa == Finite(0.0) ==>
              (m.NaN? <==> shortMa.v == 0.0) && (m.PosInf? <==> shortMa.v > 0.0) && (m.NegInf? <==> shortMa.v < 0.0)
  {
    if !(shortMa.Finite? && longMa.Finite?) then NaN
    else if longMa.v == 0.0 then Div(shortMa.v - longMa.v, longMa.v)
    else
      var d := shortMa.v - longMa.v;
      DivTimes(d, longMa.v);
      MulCommutes(d / longMa.v, longMa.v);
      MulDistributes(longMa.v, 1.0, d / longMa.v);
      Div(d, longMa.v)
  }

  /** The signal rule on one symbol's history: with S and L the averages of
      the newest short_period and long_period values, momentum is
      (S − L)/L; BUY above the threshold, SELL below minus the threshold.
      A history shorter than long_period gives NONE, and so does a
      negative long period, whose `size_t` conversion is huge. A zero L
      makes the quotient ±infinity (BUY for S > 0, SELL for S < 0) or NaN
      (NONE for S = 0); a zero period makes its average NaN, hence NONE. */
  function Rule(h: seq<real>, p: StrategyParams): (r: Signal)
    requires ReadsInBounds(|h|, p)
    ensures p.longPeriod < 0 || |h| < p.longPeriod ==> r == NoSignal
    ensures p.shortPeriod == 0 || p.longPeriod == 0 ==> r == NoSignal
    ensures r != Hold
  {
    if p.longPeriod < 0 || |h| < p.longPeriod then NoSignal
    else
      var momentum := MomentumOf(MovingAverage(h, p.shortPeriod), MovingAverage(h, p.longPeriod));
      if Above(momentum, p.momentumThreshold) then Buy
      else if Below(momentum, -p.momentumThreshold) then Sell
      else NoSignal
  }

  /** A negative short period leaves the short sum at 0 and makes its
      average a zero, so against a non-zero long average the momentum is
      exactly −1: SELL for every threshold in [−1, 1). */
  lemma NegativeShortPeriodSells(h: seq<real>, p: StrategyParams)
    requires 1 <= p.longPeriod <= |h| && p.shortPeriod < 0
    requires Average(h, p.longPeriod) != 0.0 && -1.0 <= p.momentumThreshold < 1.0
    ensures Rule(h, p) == Sell
  {
    var l := Average(h, p.longPeriod);
    assert (0.0 - l) / l == -1.0;
  }

  /** On a positive long average and a non-negative threshold, BUY means
      the short average is above the long one by more than the threshold
      fraction, and SELL that it is below by more than that fraction. */
  lemma RuleAsRatio(h: seq<real>, p: StrategyParams)
    requires PeriodsOk(p) && p.longPeriod <= |h|
    requires Average(h, p.longPeriod) > 0.0 && p.momentumThreshold >= 0.0
    ensures Rule(h, p) == Buy <==>
            Average(h, p.shortPeriod) > Mul(Average(h, p.longPeriod), 1.0 + p.momentumThreshold)
    ensures Rule(h, p) == Sell <==>
            Average(h, p.shortPeriod) < Mul(Average(h, p.longPeriod), 1.0 - p.momentumThreshold)
  {
    var s := Average(h, p.shortPeriod);
    var l := Average(h, p.longPeriod);
    var t := p.momentumThreshold;
    DivStrictOrder(s - l, t, l);
    DivStrictOrder(s - l, -t, l);
    assert Mul(l, 1.0 + t) == l + Mul(t, l);
    assert Mul(l, 1.0 - t) == l - Mul(t, l);
    assert Mul(-t, l) == -Mul(t, l);
  }

  /** A window whose newest long_period values are equal gives momentum 0,
      hence no signal for any threshold >= 0. */
  lemma ConstantWindowNoSignal(h: seq<real>, p: StrategyParams, c: real)
    requires PeriodsOk(p) && p.longPeriod <= |h| && p.momentumThreshold >= 0.0
    requires Constant(h[|h| - p.longPeriod..], c)
    ensures Rule(h, p) == NoSignal
  {
    var w := h[|h| - p.longPeriod..];
    var ws := h[|h| - p.shortPeriod..];
    assert ws == w[p.longPeriod - p.shortPeriod..];
    assert Constant(ws, c);
    MeanConstant(w, c);
    MeanConstant(ws, c);
  }

  /** The backwards summing loop shared by both averages; a period of at
      most 0 runs it no times. */
  method NewestSum(h: seq<real>, n: int) returns (sum: real)
    requires n <= |h|
    ensures sum == NewestTotal(h, n)
  {
    sum := 0.0;
    var i := 0;
    while i < n
      invariant 0 <= i <= |h| && i <= (if n >= 0 then n else 0)
      invariant sum == Sum(h[|h| - i..])
    {
      assert h[|h| - 1 - i..] == [h[|h| - 1 - i]] + h[|h| - i..];
      SumCons(h[|h| - 1 - i], h[|h| - i..]);
      sum := sum + h[|h| - 1 - i];
      i := i + 1;
    }
    if n <= 0 {
      assert h[|h| - i..] == [];
    }
  }

  /** The signal computation of `processMarketData` on an updated window:
      the length check against the `size_t` long period, then both sums
      from the newest value backwards and the double-precision quotients,
      as in the source. */
  method Evaluate(h: seq<real>, params: StrategyParams) returns (signal: Signal)
    requires ReadsInBounds(|h|, params)
    ensures signal == Rule(h, params)
  {
    if params.longPeriod < 0 || |h| < params.longPeriod {
      return NoSignal;
    }
    var shortSum := NewestSum(h, params.shortPeriod);
    var longSum := NewestSum(h, params.longPeriod);
    var shortMa := Div(shortSum, params.shortPeriod as real);
    var longMa := Div(longSum, params.longPeriod as real);
    var momentum := MomentumOf(shortMa, longMa);
    if Above(momentum, params.momentumThreshold) {
      signal := Buy;
    } else if Below(momentum, -params.momentumThreshold) {
      signal := Sell;
    } else {
      signal := NoSignal;
    }
  }

  class MomentumStrategy {
    var params: StrategyParams
    var status: StrategyStatus
    var history: seq<seq<real>>
    var counts: seq<int>

    /** Three windows of at most 100 values, each with a matching count. */
    ghost predicate Valid()
      reads this
    {
      |history| == SymbolCount && |counts| == SymbolCount &&
      forall s :: 0 <= s < SymbolCount ==> |history[s]| <= HistoryCapacity && counts[s] == |history[s]|
    }

    constructor ()
      ensures Valid() && status == Stopped && params == DefaultParams
      ensures history == [[], [], []] && counts == [0, 0, 0]
    {
      params := DefaultParams;
      status := Stopped;
      history := [[], [], []];
      counts := [0, 0, 0];
    }

    method Initialize() returns (ok: bool)
      requires Valid()
      modifies this
      ensures Valid() && ok && status == Stopped
      ensures history == old(history) && counts == old(counts) && params == old(params)
    {
      status := Stopped;
      ok := true;
    }

    /** Empties every window, zeroes every count and stops. */
    method Cleanup()
      modifies this
      ensures Valid() && status == Stopped && params == old(params)
      ensures history == [[], [], []] && counts == [0, 0, 0]
    {
      history := [[], [], []];
      counts := [0, 0, 0];
      status := Stopped;
    }

    function GetStatus(): (r: StrategyStatus)
      reads this
      ensures r == status
    {
      status
    }

    method SetStatus(s: StrategyStatus)
      requires Valid()
      modifies this
      ensures Valid() && status == s
      ensures history == old(history) && counts == old(counts) && params == old(params)
    {
      status := s;
    }

    method SetParams(p: StrategyParams)
      requires Valid()
      modifies this
      ensures Valid() && params == p
      ensures history == old(history) && counts == old(counts) && status == old(status)
    {
      params := p;
    }

    function GetParams(): (r: StrategyParams)
      reads this
      ensures r == params
    {
      params
    }

    /** Records the top-of-book mid-price in its symbol's window and applies
        `Rule` to that window; not RUNNING, or a symbol index outside
        [0, 3), gives NONE and changes nothing. */
    method ProcessMarketData(book: OrderBook) returns (signal: Signal)
      requires Valid() && Shaped(book)
      requires 0 <= book.symbol < SymbolCount ==>
                 ReadsInBounds(Min(|history[book.symbol]| + 1, HistoryCapacity), params)
      modifies this
      ensures Valid() && status == old(status) && params == old(params)
      ensures old(status) != Running || !(0 <= book.symbol < SymbolCount) ==>
                signal == NoSignal && history == old(history) && counts == old(counts)
      ensures old(status) == Running && 0 <= book.symbol < SymbolCount ==>
                history == old(history)[book.symbol := Push(old(history)[book.symbol], TopMid(book), HistoryCapacity)] &&
                signal == Rule(history[book.symbol], params)
    {
      if status != Running {
        return NoSignal;
      }
      var s := book.symbol;
      if s < 0 || s >= SymbolCount {
        return NoSignal;
      }
      var mid := (book.bids[0].price + book.asks[0].price) / 2.0;
      var h, count := PushEvict(history[s], counts[s], mid);
      history := history[s := h];
      counts := counts[s := count];
      signal := Evaluate(h, params);
    }
  }
}
