// The C++ relative-strength-index strategy of src/strategy/rsi_strategy.cpp.
module Rsi {
  import opened Books
  import opened FloatQuotient
  import opened RealArith
  import opened Trading
  import opened Windows

  /** A price change counts as a gain only when it is positive ... */
  function Gain(change: real): real
  {
    if change > 0.0 then change else 0.0
  }

  /** ... and every other change adds its absolute value to the losses. */
  function Loss(change: real): real
  {
    if change > 0.0 then 0.0 else -change
  }

  /** Sum of the gains of the changes p[i] − p[i−1] for lo <= i < hi. */
  function Gains(p: seq<real>, lo: nat, hi: nat): (r: real)
    requires 1 <= lo <= hi <= |p|
    ensures r >= 0.0
    decreases hi - lo
  {
    if hi == lo then 0.0 else Gains(p, lo, hi - 1) + Gain(p[hi - 1] - p[hi - 2])
  }

  /** Sum of the losses of the same changes. */
  function Losses(p: seq<real>, lo: nat, hi: nat): (r: real)
    requires 1 <= lo <= hi <= |p|
    ensures r >= 0.0
    decreases hi - lo
  {
    if hi == lo then 0.0 else Losses(p, lo, hi - 1) + Loss(p[hi - 1] - p[hi - 2])
  }

  /** When no change in [lo, hi) is a fall, nothing was lost. */
  lemma {:induction false} NoFallNoLoss(p: seq<real>, lo: nat, hi: nat)
    requires 1 <= lo <= hi <= |p|
    requires forall i :: lo <= i < hi ==> p[i - 1] <= p[i]
    ensures Losses(p, lo, hi) == 0.0
    decreases hi - lo
  {
    if hi > lo {
      NoFallNoLoss(p, lo, hi - 1);
    }
  }

  /** When every change in [lo, hi) is a fall, nothing was gained and,
      over a non-empty range, something was lost. */
  lemma {:induction false} AllFallNoGain(p: seq<real>, lo: nat, hi: nat)
    requires 1 <= lo <= hi <= |p|
    requires forall i :: lo <= i < hi ==> p[i] < p[i - 1]
    ensures Gains(p, lo, hi) == 0.0
    ensures lo < hi ==> Losses(p, lo, hi) > 0.0
    decreases hi - lo
  {
    if hi > lo {
      AllFallNoGain(p, lo, hi - 1);
      }
  }

  /** `calculateRSI`: 50 when there are fewer than period + 1 prices;
      otherwise, over the last `period` changes, 100 when the average loss
      is zero and 100 − 100/(1 + average gain / average loss) otherwise.
      With some loss in the window this is the gains' share of all
      movement, scaled to 100: 100·G / (G + L) with G and L the gain and
      loss sums (the period cancels); the index always lies in [0, 100]. */
  function RsiOf(p: seq<real>, period: nat): (r: real)
    requires period >= 1
    ensures 0.0 <= r <= 100.0
    ensures |p| < period + 1 ==> r == 50.0
    ensures |p| >= period + 1 && Losses(p, |p| - period, |p|) == 0.0 ==> r == 100.0
    ensures |p| >= period + 1 && Losses(p, |p| - period, |p|) > 0.0 ==>
              r == Mul(100.0, Gains(p, |p| - period, |p|)) /
                     (Gains(p, |p| - period, |p|) + Losses(p, |p| - period, |p|))
  {
    if |p| < period + 1 then 50.0
    else
      var g := Gains(p, |p| - period, |p|);
      var l := Losses(p, |p| - period, |p|);
      var avgGain := g / period as real;
      var avgLoss := l / period as real;
      if avgLoss == 0.0 then 100.0
      else
        GainShareAlgebra(g, l, period as real);
        GainShareBounds(g, l);
        100.0 - 100.0 / (1.0 + avgGain / avgLoss)
  }

  /** 100·g/(g + l) lies in [0, 100]. */
  lemma GainShareBounds(g: real, l: real)
    requires g >= 0.0 && l > 0.0
    ensures 0.0 <= Mul(100.0, g) / (g + l) <= 100.0
  {
    DivStrictOrder(Mul(100.0, g), 100.0, g + l);
    assert Mul(100.0, g) <= Mul(100.0, g + l);
    MulNonNegative(100.0, g);
  }

  /** 100 − 100/(1 + (g/n)/(l/n)) is 100·g/(g + l). */
  lemma GainShareAlgebra(g: real, l: real, n: real)
    requires g >= 0.0 && l > 0.0 && n > 0.0
    ensures 100.0 - 100.0 / (1.0 + (g / n) / (l / n)) == Mul(100.0, g) / (g + l)
  {
    var rs := (g / n) / (l / n);
    assert rs == g / l;
    var q := 1.0 + rs;
    assert Mul(q, l) == l + g by {
      DivTimes(g, l);
      MulDistributes(l, 1.0, rs);
      MulCommutes(l, q);
      MulCommutes(l, rs);
    }
    var t := 100.0 / q;
    assert Mul(t, l + g) == Mul(100.0, l) by {
      DivTimes(100.0, q);
      MulAssociates(t, q, l);
    }
    assert Mul(100.0 - t, g + l) == Mul(100.0, g) by {
      MulDistributes(g + l, 100.0, t);
      MulCommutes(g + l, 100.0 - t);
      MulCommutes(g + l, 100.0);
      MulCommutes(g + l, t);
      MulDistributes(100.0, g, l);
    }
    DivUnique(100.0 - t, Mul(100.0, g), g + l);
  }

  /** Prices that never fell over the last `period` changes (flat prices
      included) give 100. */
  lemma NoFallIsHundred(p: seq<real>, period: nat)
    requires period >= 1 && |p| >= period + 1
    requires forall i :: |p| - period <= i < |p| ==> p[i - 1] <= p[i]
    ensures RsiOf(p, period) == 100.0
  {
    NoFallNoLoss(p, |p| - period, |p|);
  }

  /** Prices that fell at every one of the last `period` changes give 0. */
  lemma AllFallIsZero(p: seq<real>, period: nat)
    requires period >= 1 && |p| >= period + 1
    requires forall i :: |p| - period <= i < |p| ==> p[i] < p[i - 1]
    ensures RsiOf(p, period) == 0.0
  {
    AllFallNoGain(p, |p| - period, |p|);
  }

  /** `calculateRSI` for any `int` period, in double precision. The
      length check compares with `period + 1` converted to `size_t`, so a
      period of −2 or less (a huge bound) gives the neutral 50. Period 0
      divides 0 by 0 and yields NaN. Period −1 passes the check, visits
      no change (the start index wraps past the end) and divides 0 by −1:
      a zero average loss, hence 100. */
  function CalculatedRsi(p: seq<real>, period: int): (r: Quotient)
    ensures period >= 1 ==> r == Finite(RsiOf(p, period))
    ensures period == 0 && |p| >= 1 ==> r == NaN
    ensures period == -1 ==> r == Finite(100.0)
    ensures period < -1 ==> r == Finite(50.0)
  {
    if period + 1 < 0 || |p| < period + 1 then Finite(50.0)
    else if period >= 1 then Finite(RsiOf(p, period))
    else if period == 0 then NaN
    else Finite(100.0)
  }

  /** The loop of `calculateRSI`, over the last `period` changes. */
  method CalculateRsi(prices: seq<real>, period: int) returns (rsi: Quotient)
    ensures rsi == CalculatedRsi(prices, period)
  {
    if period + 1 < 0 || |prices| < period + 1 {
      return Finite(50.0);
    }
    var gainSum, lossSum := 0.0, 0.0;
    // the size_t start index: one past the end for period −1
    var lo := |prices| - period;
    var i := lo;
    while i < |prices|
      invariant lo <= i && (lo <= |prices| ==> i <= |prices|)
      invariant lo <= |prices| ==> gainSum == Gains(prices, lo, i) && lossSum == Losses(prices, lo, i)
      invariant lo > |prices| ==> gainSum == 0.0 && lossSum == 0.0
    {
      var change := prices[i] - prices[i - 1];
      if change > 0.0 {
        gainSum := gainSum + change;
      } else {
        lossSum := lossSum + (if change < 0.0 then -change else change);
      }
      i := i + 1;
    }
    var avgGain := Div(gainSum, period as real);
    var avgLoss := Div(lossSum, period as real);
    if avgLoss == Finite(0.0) {
      return Finite(100.0);
    }
    if !avgGain.Finite? || !avgLoss.Finite? {
      // NaN / NaN, and 100 − 100/(1 + NaN)
      return NaN;
    }
    var rs := avgGain.v / avgLoss.v;
    rsi := Finite(100.0 - (100.0 / (1.0 + rs)));
  }

  /** The signal rule on one symbol's history: NONE with fewer than
      rsi_period + 1 values (a negative bound converts to a huge one);
      otherwise BUY below the oversold level, SELL above the overbought
      level, NONE between or for a NaN index. */
  function Rule(h: seq<real>, p: StrategyParams): (r: Signal)
    ensures p.rsiPeriod + 1 < 0 || |h| < p.rsiPeriod + 1 ==> r == NoSignal
    ensures p.rsiPeriod == 0 ==> r == NoSignal
    ensures p.rsiPeriod >= 1 ==>
              (r == Buy <==> |h| >= p.rsiPeriod + 1 && RsiOf(h, p.rsiPeriod) < p.rsiOversold)
    ensures p.rsiPeriod >= 1 ==>
              (r == Sell <==> |h| >= p.rsiPeriod + 1 && RsiOf(h, p.rsiPeriod) >= p.rsiOversold &&
                              RsiOf(h, p.rsiPeriod) > p.rsiOverbought)
    ensures p.rsiPeriod == -1 ==>
              (r == Buy <==> 100.0 < p.rsiOversold) &&
              (r == Sell <==> 100.0 >= p.rsiOversold && 100.0 > p.rsiOverbought)
  {
    if p.rsiPeriod + 1 < 0 || |h| < p.rsiPeriod + 1 then NoSignal
    else
      var rsi := CalculatedRsi(h, p.rsiPeriod);
      if Below(rsi, p.rsiOversold) then Buy
      else if Above(rsi, p.rsiOverbought) then Sell
      else NoSignal
  }

  /** A flat or rising window reads as overbought: with an overbought level
      below 100 it gives SELL (the default levels 30 and 70 included). */
  lemma NoFallSells(h: seq<real>, p: StrategyParams)
    requires p.rsiPeriod >= 1 && |h| >= p.rsiPeriod + 1
    requires p.rsiOversold <= 100.0 && p.rsiOverbought < 100.0
    requires forall i :: |h| - p.rsiPeriod <= i < |h| ==> h[i - 1] <= h[i]
    ensures Rule(h, p) == Sell
  {
    NoFallIsHundred(h, p.rsiPeriod);
  }

  /** A window falling at every step reads as oversold: with an oversold
      level above 0 it gives BUY. */
  lemma AllFallBuys(h: seq<real>, p: StrategyParams)
    requires p.rsiPeriod >= 1 && |h| >= p.rsiPeriod + 1 && p.rsiOversold > 0.0
    requires forall i :: |h| - p.rsiPeriod <= i < |h| ==> h[i] < h[i - 1]
    ensures Rule(h, p) == Buy
  {
    AllFallIsZero(h, p.rsiPeriod);
  }

  /** The length check, `calculateRSI` and the threshold comparisons of
      `processMarketData`; every comparison with a NaN index is false. */
  method Evaluate(h: seq<real>, params: StrategyParams) returns (signal: Signal)
    ensures signal == Rule(h, params)
  {
    if params.rsiPeriod + 1 < 0 || |h| < params.rsiPeriod + 1 {
      return NoSignal;
    }
    var rsi := CalculateRsi(h, params.rsiPeriod);
    if Below(rsi, params.rsiOversold) {
      signal := Buy;
    } else if Above(rsi, params.rsiOverbought) {
      signal := Sell;
    } else {
      signal := NoSignal;
    }
  }

  class RsiStrategy {
    var params: StrategyParams
    var status: StrategyStatus
    var history: seq<seq<real>>
    var counts: seq<int>

    /** Three windows of at most 100 values, each with a matching count. */
    ghost predicate Valid()
      reads this
    {
      |history| == SymbolCount && |counts| == SymbolCount &&
      forall s :: 0 <= s < SymbolCount ==> |history[s]| <= HistoryCapacity && counts[s] == |history[s]|
    }

    constructor ()
      ensures Valid() && status == Stopped && params == DefaultParams
      ensures history == [[], [], []] && counts == [0, 0, 0]
    {
      params := DefaultParams;
      status := Stopped;
      history := [[], [], []];
      counts := [0, 0, 0];
    }

    method Initialize() returns (ok: bool)
      requires Valid()
      modifies this
      ensures Valid() && ok && status == Stopped
      ensures history == old(history) && counts == old(counts) && params == old(params)
    {
      status := Stopped;
      ok := true;
    }

    /** Empties every window, zeroes every count and stops. */
    method Cleanup()
      modifies this
      ensures Valid() && status == Stopped && params == old(params)
      ensures history == [[], [], []] && counts == [0, 0, 0]
    {
      history := [[], [], []];
      counts := [0, 0, 0];
      status := Stopped;
    }

    function GetStatus(): (r: StrategyStatus)
      reads this
      ensures r == status
    {
      status
    }

    method SetStatus(s: StrategyStatus)
      requires Valid()
      modifies this
      ensures Valid() && status == s
      ensures history == old(history) && counts == old(counts) && params == old(params)
    {
      status := s;
    }

    method SetParams(p: StrategyParams)
      requires Valid()
      modifies this
      ensures Valid() && params == p
      ensures history == old(history) && counts == old(counts) && status == old(status)
    {
      params := p;
    }

    function GetParams(): (r: StrategyParams)
      reads this
      ensures r == params
    {
      params
    }

    /** Records the top-of-book mid-price in its symbol's window and applies
        `Rule` to that window; not RUNNING, or a symbol index outside
        [0, 3), gives NONE and changes nothing. */
    method ProcessMarketData(book: OrderBook) returns (signal: Signal)
      requires Valid() && Shaped(book)
      modifies this
      ensures Valid() && status == old(status) && params == old(params)
      ensures old(status) != Running || !(0 <= book.symbol < SymbolCount) ==>
                signal == NoSignal && history == old(history) && counts == old(counts)
      ensures old(status) == Running && 0 <= book.symbol < SymbolCount ==>
                history == old(history)[book.symbol := Push(old(history)[book.symbol], TopMid(book), HistoryCapacity)] &&
                signal == Rule(history[book.symbol], params)
    {
      if status != Running {
        return NoSignal;
      }
      var s := book.symbol;
      if s < 0 || s >= SymbolCount {
        return NoSignal;
      }
      var mid := (book.bids[0].price + book.asks[0].price) / 2.0;
      var h, count := PushEvict(history[s], counts[s], mid);
      history := history[s := h];
      counts := counts[s := count];
      signal := Evaluate(h, params);
    }
  }
}
