// The C++ z-score mean-reversion strategy of
// src/strategy/mean_reversion_strategy.cpp.
module MeanReversion {
  import opened Books
  import opened RealArith
  import opened Trading
  import opened Windows

  /** The last `n` values of the window. */
  function Last(h: seq<real>, n: nat): seq<real>
    requires n <= |h|
  {
    h[|h| - n..]
  }

  /** The signal rule on one symbol's history. Over the last L =
      lookback_period values, with mean m, deviation sum v and the newest
      value x, the z-score is (x − m)/sqrt(v/L): SELL when it exceeds the
      threshold, BUY when it is below minus the threshold. A history
      shorter than L gives NONE, and so does L <= 0 (the size comparison
      goes through `size_t`, and L = 0 divides 0 by 0). */
  function Rule(h: seq<real>, p: StrategyParams): (r: Signal)
    ensures (p.lookbackPeriod <= 0 || |h| < p.lookbackPeriod) ==> r == NoSignal
    ensures r != Hold
  {
    var lookback := p.lookbackPeriod;
    if lookback <= 0 || |h| < lookback then NoSignal
    else
      var w := Last(h, lookback);
      var mean := Sum(w) / lookback as real;
      var v := SqDev(w, mean);
      var d := h[|h| - 1] - mean;
      if ZAbove(d, v, lookback as real, p.zScoreThreshold) then Sell
      else if ZAbove(-d, v, lookback as real, p.zScoreThreshold) then Buy
      else NoSignal
  }

  /** `Rule` is the source's z-score test: for the window's standard
      deviation sigma (sigma > 0, L·sigma² = v), SELL iff z > t, and BUY iff
      not z > t but z < −t. */
  lemma RuleIsZScoreTest(h: seq<real>, p: StrategyParams, sigma: real)
    requires 1 <= p.lookbackPeriod <= |h|
    requires sigma > 0.0
    requires Mul(p.lookbackPeriod as real, Sq(sigma)) ==
             SqDev(Last(h, p.lookbackPeriod), Sum(Last(h, p.lookbackPeriod)) / p.lookbackPeriod as real)
    ensures var z := (h[|h| - 1] - Sum(Last(h, p.lookbackPeriod)) / p.lookbackPeriod as real) / sigma;
            (Rule(h, p) == Sell <==> z > p.zScoreThreshold) &&
            (Rule(h, p) == Buy <==> !(z > p.zScoreThreshold) && z < -p.zScoreThreshold)
  {
    var lookback := p.lookbackPeriod;
    var w := Last(h, lookback);
    var mean := Sum(w) / lookback as real;
    var v := SqDev(w, mean);
    var d := h[|h| - 1] - mean;
    ZAboveIsZScore(d, v, lookback as real, p.zScoreThreshold, sigma);
    ZAboveIsZScore(-d, v, lookback as real, p.zScoreThreshold, sigma);
    assert (-d) / sigma == -(d / sigma);
  }

  /** A window whose last L values are all equal yields no signal, whatever
      the threshold. */
  lemma ConstantWindowNoSignal(h: seq<real>, p: StrategyParams, c: real)
    requires 1 <= p.lookbackPeriod <= |h|
    requires Constant(Last(h, p.lookbackPeriod), c)
    ensures Rule(h, p) == NoSignal
  {
    var w := Last(h, p.lookbackPeriod);
    MeanConstant(w, c);
    SqDevConstant(w, c);
  }

  /** The signal computation of `processMarketData` on an updated window:
      the sum and the squared deviations are accumulated in loops over the
      last L values, as the source does. */
  method Evaluate(h: seq<real>, params: StrategyParams) returns (signal: Signal)
    ensures signal == Rule(h, params)
  {
    var lookback := params.lookbackPeriod;
    if lookback <= 0 || |h| < lookback {
      return NoSignal;
    }
    var start := |h| - lookback;
    var sum := 0.0;
    var i := start;
    while i < |h|
      invariant start <= i <= |h|
      invariant sum == Sum(h[start..i])
    {
      assert h[start..i + 1][..i - start] == h[start..i];
      sum := sum + h[i];
      i := i + 1;
    }
    assert h[start..i] == Last(h, lookback);
    var mean := sum / lookback as real;

    var variance := 0.0;
    i := start;
    while i < |h|
      invariant start <= i <= |h|
      invariant variance == SqDev(h[start..i], mean)
    {
      assert h[start..i + 1][..i - start] == h[start..i];
      var diff := h[i] - mean;
      variance := variance + Mul(diff, diff);
      i := i + 1;
    }
    assert h[start..i] == Last(h, lookback);

    // z = (current − mean)/sqrt(variance/L), compared without the root.
    var current := h[|h| - 1];
    if ZAbove(current - mean, variance, lookback as real, params.zScoreThreshold) {
      signal := Sell;
    } else if ZAbove(-(current - mean), variance, lookback as real, params.zScoreThreshold) {
      signal := Buy;
    } else {
      signal := NoSignal;
    }
  }

  class MeanReversionStrategy {
    var params: StrategyParams
    var status: StrategyStatus
    /** `price_history_`: one window of mid-prices per symbol index. */
    var history: seq<seq<real>>
    /** `price_count_`. */
    var counts: seq<int>

    /** Three windows of at most 100 values, each with a matching count. */
    ghost predicate Valid()
      reads this
    {
      |history| == SymbolCount && |counts| == SymbolCount &&
      forall s :: 0 <= s < SymbolCount ==> |history[s]| <= HistoryCapacity && counts[s] == |history[s]|
    }

    constructor ()
      ensures Valid() && status == Stopped && params == DefaultParams
      ensures history == [[], [], []] && counts == [0, 0, 0]
    {
      params := DefaultParams;
      status := Stopped;
      history := [[], [], []];
      counts := [0, 0, 0];
    }

    method Initialize() returns (ok: bool)
      requires Valid()
      modifies this
      ensures Valid() && ok && status == Stopped
      ensures history == old(history) && counts == old(counts) && params == old(params)
    {
      status := Stopped;
      ok := true;
    }

    /** Empties every window, zeroes every count and stops. */
    method Cleanup()
      modifies this
      ensures Valid() && status == Stopped && params == old(params)
      ensures history == [[], [], []] && counts == [0, 0, 0]
    {
      history := [[], [], []];
      counts := [0, 0, 0];
      status := Stopped;
    }

    function GetStatus(): (r: StrategyStatus)
      reads this
      ensures r == status
    {
      status
    }

    method SetStatus(s: StrategyStatus)
      requires Valid()
      modifies this
      ensures Valid() && status == s
      ensures history == old(history) && counts == old(counts) && params == old(params)
    {
      status := s;
    }

    method SetParams(p: StrategyParams)
      requires Valid()
      modifies this
      ensures Valid() && params == p
      ensures history == old(history) && counts == old(counts) && status == old(status)
    {
      params := p;
    }

    function GetParams(): (r: StrategyParams)
      reads this
      ensures r == params
    {
      params
    }

    /** Records the book's top-of-book mid-price in its symbol's window and
        applies `Rule` to that window. A strategy that is not RUNNING, or a
        symbol index outside [0, 3), gives NONE and changes nothing. */
    method ProcessMarketData(book: OrderBook) returns (signal: Signal)
      requires Valid() && Shaped(book)
      modifies this
      ensures Valid() && status == old(status) && params == old(params)
      ensures old(status) != Running || !(0 <= book.symbol < SymbolCount) ==>
                signal == NoSignal && history == old(history) && counts == old(counts)
      ensures old(status) == Running && 0 <= book.symbol < SymbolCount ==>
                history == old(history)[book.symbol := Push(old(history)[book.symbol], TopMid(book), HistoryCapacity)] &&
                signal == Rule(history[book.symbol], params)
    {
      if status != Running {
        return NoSignal;
      }
      var s := book.symbol;
      if s < 0 || s >= SymbolCount {
        return NoSignal;
      }
      var mid := (book.bids[0].price + book.asks[0].price) / 2.0;
      var h, count := PushEvict(history[s], counts[s], mid);
      history := history[s := h];
      counts := counts[s := count];

      signal := Evaluate(h, params);
    }
  }
}
