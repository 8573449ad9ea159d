// The trade rules of `LSTMTradingStrategy` in strategies/lstm_strategy.py
// that do not involve the network: the windowed training set, the clamped
// confidence of a prediction, the signal rule, the one-lot position it
// trades, the stop-loss / take-profit exit and the maximum drawdown of a
// value series. The prediction itself is an input. Prices come from NumPy
// arrays, so their quotients are FloatQuotient values.
module PyLstm {
  import opened Wrappers
  import opened RealArith
  import opened FloatQuotient
  import PyStrategyBase

  // ---------------------------------------------------------------------
  // PriceDataset

  /** `PriceDataset(data, sequence_length)`: rows of a feature matrix. */
  datatype Dataset<T> = Dataset(data: seq<T>, sequenceLength: nat)

  /** `__len__`: as many items as there are full windows with a target,
      so exactly the indices below it can be read. */
  function Len<T>(ds: Dataset<T>): (n: int)
    ensures forall idx: nat :: idx < n <==> Item(ds, idx).Success?
  {
    |ds.data| - ds.sequenceLength
  }

  /** `__getitem__(idx)` for a non-negative index: the window of
      `sequence_length` rows starting at idx and the row after it as the
      target; the target read raises IndexError past the end. */
  function Item<T>(ds: Dataset<T>, idx: nat): (r: Result<(seq<T>, T)>)
    ensures r.Success? <==> idx + ds.sequenceLength < |ds.data|
    ensures r.Failure? ==> r.error == PyStrategyBase.IndexError
    ensures r.Success? ==> |r.value.0| == ds.sequenceLength &&
                           r.value.0 + [r.value.1] == ds.data[idx..idx + ds.sequenceLength + 1]
  {
    if idx + ds.sequenceLength >= |ds.data| then Failure(PyStrategyBase.IndexError)
    else Success((ds.data[idx..idx + ds.sequenceLength], ds.data[idx + ds.sequenceLength]))
  }

  /** Consecutive items overlap: the next window is this one shifted by a
      row, with this item's target as its last row. */
  lemma ItemsSlide<T>(ds: Dataset<T>, idx: nat)
    requires idx + 1 < Len(ds) && ds.sequenceLength > 0
    ensures var a := Item(ds, idx).value;
            var b := Item(ds, idx + 1).value;
            b.0 == a.0[1..] + [a.1]
  {
    var a := Item(ds, idx).value;
    var b := Item(ds, idx + 1).value;
    assert a.0 + [a.1] == ds.data[idx..idx + ds.sequenceLength + 1];
    assert b.0 == ds.data[idx + 1..idx + 1 + ds.sequenceLength];
    assert (a.0 + [a.1])[1..] == a.0[1..] + [a.1];
  }

  // ---------------------------------------------------------------------
  // Prediction confidence

  /** `min(x, 1.0)` and `max(0.0, x)` with x a float: `max` keeps 0 unless x
      is above it, so NaN and −inf both give 0. */
  function ClampUnitQ(q: Quotient): (r: real)
    ensures 0.0 <= r <= 1.0
  {
    match q
    case Finite(v) => if v < 0.0 then 0.0 else if v > 1.0 then 1.0 else v
    case PosInf => 1.0
    case _ => 0.0
  }

  /** The confidence `predict_price` reports: one minus the relative error
      of the prediction against the last close, clamped into [0, 1]. */
  function PredictionConfidence(prediction: real, last: real): (r: real)
    ensures 0.0 <= r <= 1.0
    ensures last == 0.0 ==> r == 0.0
  {
    var rel := Div(PyStrategyBase.Abs(prediction - last), last);
    var oneMinus := match rel
                    case Finite(v) => Finite(1.0 - v)
                    case PosInf => NegInf
                    case NegInf => PosInf
                    case NaN => NaN;
    ClampUnitQ(oneMinus)
  }

  /** For a positive last close the confidence is full exactly when the
      prediction hits it, vanishes once the error reaches the close, and
      is the complement of the relative error in between. */
  lemma PredictionConfidenceSpec(prediction: real, last: real)
    requires last > 0.0
    ensures PredictionConfidence(prediction, last) == 1.0 <==> prediction == last
    ensures PyStrategyBase.Abs(prediction - last) >= last ==> PredictionConfidence(prediction, last) == 0.0
    ensures PyStrategyBase.Abs(prediction - last) < last ==>
              PredictionConfidence(prediction, last) == 1.0 - PyStrategyBase.Abs(prediction - last) / last
  {
    var e := PyStrategyBase.Abs(prediction - last);
    DivStrictOrder(e, 1.0, last);
    DivStrictOrder(e, 0.0, last);
    if e / last == 0.0 {
      DivTimes(e, last);
    }
  }

  // ---------------------------------------------------------------------
  // Parameters, signal and trade

  /** The trading parameters read from the configuration. */
  datatype LstmParams = LstmParams(sequenceLength: nat, positionSize: real, stopLoss: real,
                                   takeProfit: real, confidenceThreshold: real)

  const DefaultParams := LstmParams(60, 0.1, 0.02, 0.03, 0.6)

  datatype Action = Hold | BuyAction | SellAction

  /** The signal dictionary (its formatted reason, timestamp and display
      percentage left out). */
  datatype LstmSignal = LstmSignal(action: Action, confidence: real, prediction: real, currentPrice: real)

  /** `generate_trading_signal`: HOLD below the confidence threshold;
      otherwise compare the relative predicted change with the take-profit
      level. */
  function GenerateTradingSignal(p: LstmParams, currentPrice: real, prediction: real, confidence: real): (r: LstmSignal)
    ensures r.confidence == confidence && r.prediction == prediction && r.currentPrice == currentPrice
    ensures confidence < p.confidenceThreshold ==> r.action == Hold
  {
    var hold := LstmSignal(Hold, confidence, prediction, currentPrice);
    if confidence < p.confidenceThreshold then hold
    else
      var change := Div(prediction - currentPrice, currentPrice);
      if Above(change, p.takeProfit) then hold.(action := BuyAction)
      else if Below(change, -p.takeProfit) then hold.(action := SellAction)
      else hold
  }

  /** For a positive price: BUY exactly when the confidence clears the
      threshold and the prediction is above price·(1 + take_profit); SELL
      exactly when it clears it and the prediction is below
      price·(1 − take_profit) (a non-negative take-profit keeps the two
      apart). */
  lemma SignalRule(p: LstmParams, currentPrice: real, prediction: real, confidence: real)
    requires currentPrice > 0.0 && p.takeProfit >= 0.0
    ensures var r := GenerateTradingSignal(p, currentPrice, prediction, confidence);
            (r.action == BuyAction <==>
               confidence >= p.confidenceThreshold && prediction > Mul(currentPrice, 1.0 + p.takeProfit)) &&
            (r.action == SellAction <==>
               confidence >= p.confidenceThreshold && prediction < Mul(currentPrice, 1.0 - p.takeProfit))
  {
    var d := prediction - currentPrice;
    DivStrictOrder(d, p.takeProfit, currentPrice);
    DivStrictOrder(d, -p.takeProfit, currentPrice);
    MulCommutes(p.takeProfit, currentPrice);
    MulCommutes(-p.takeProfit, currentPrice);
    MulDistributes(currentPrice, 1.0, p.takeProfit);
    MulDistributes(currentPrice, 1.0, -p.takeProfit);
  }

  /** The dictionary `execute_trade` returns. */
  datatype TradeResult = TradeResult(executed: bool, action: Action, price: real, quantity: real)

  /** The position after a signal: BUY adds a lot unless already long,
      SELL removes one unless already short. */
  datatype Holding = Holding(position: real, entryPrice: real)

  /** `execute_trade`: a BUY is taken unless already long and a SELL
      unless already short; a taken trade moves the position by its signed
      quantity and enters at the price; anything else changes nothing. */
  function Execute(p: LstmParams, h: Holding, action: Action, price: real): (r: (TradeResult, Holding))
    ensures r.0.action == action && r.0.price == price
    ensures r.0.executed <==> (action == BuyAction && h.position <= 0.0) || (action == SellAction && h.position >= 0.0)
    ensures r.1.position == h.position + r.0.quantity
    ensures r.0.executed ==> r.1.entryPrice == price &&
                             r.0.quantity == (if action == BuyAction then p.positionSize else -p.positionSize)
    ensures !r.0.executed ==> r.1 == h && r.0.quantity == 0.0
  {
    var none := TradeResult(false, action, price, 0.0);
    if action == BuyAction && h.position <= 0.0 then
      (TradeResult(true, action, price, p.positionSize), Holding(h.position + p.positionSize, price))
    else if action == SellAction && h.position >= 0.0 then
      (TradeResult(true, action, price, -p.positionSize), Holding(h.position - p.positionSize, price))
    else (none, h)
  }

  /** One lot at most: from a flat, long-one-lot or short-one-lot position
      (non-negative lot size), any signal leaves one of the three; an
      executed trade moves the position by its quantity and enters at the
      price; HOLD and refused trades change nothing. */
  lemma ExecuteKeepsOneLot(p: LstmParams, h: Holding, action: Action, price: real)
    requires p.positionSize >= 0.0
    requires h.position == 0.0 || h.position == p.positionSize || h.position == -p.positionSize
    ensures var (t, h') := Execute(p, h, action, price);
            (h'.position == 0.0 || h'.position == p.positionSize || h'.position == -p.positionSize) &&
            h'.position == h.position + t.quantity &&
            (t.executed ==> h'.entryPrice == price && (t.quantity != 0.0 || p.positionSize == 0.0)) &&
            (!t.executed ==> h' == h && t.quantity == 0.0) &&
            (action == Hold ==> !t.executed)
  {
  }

  /** The holding after a run of (signal, price) steps. */
  function Replay(p: LstmParams, h: Holding, steps: seq<(Action, real)>): Holding
  {
    if |steps| == 0 then h
    else
      var last := steps[|steps| - 1];
      Execute(p, Replay(p, h, steps[..|steps| - 1]), last.0, last.1).1
  }

  /** Starting flat, no run of signals ever holds more than one lot either
      way. */
  lemma {:induction false} FlatStartStaysOneLot(p: LstmParams, steps: seq<(Action, real)>)
    requires p.positionSize >= 0.0
    ensures var h := Replay(p, Holding(0.0, 0.0), steps);
            h.position == 0.0 || h.position == p.positionSize || h.position == -p.positionSize
  {
    if |steps| > 0 {
      var last := steps[|steps| - 1];
      FlatStartStaysOneLot(p, steps[..|steps| - 1]);
      ExecuteKeepsOneLot(p, Replay(p, Holding(0.0, 0.0), steps[..|steps| - 1]), last.0, last.1);
    }
  }

  /** The exit `check_stop_loss_take_profit` proposes (its text reason
      left out): it closes the whole position at the given price. */
  datatype ExitKind = StopLoss | TakeProfit
  datatype Exit = Exit(kind: ExitKind, price: real, quantity: real)

  function ExitFor(p: LstmParams, h: Holding, currentPrice: real): (r: Option<Exit>)
    ensures h.position == 0.0 ==> r.None?
    ensures r.Some? ==> r.value.price == currentPrice && r.value.quantity == -h.position
  {
    if h.position == 0.0 then None
    else
      var change := Div(currentPrice - h.entryPrice, h.entryPrice);
      if AtMost(change, -p.stopLoss) then Some(Exit(StopLoss, currentPrice, -h.position))
      else if AtLeast(change, p.takeProfit) then Some(Exit(TakeProfit, currentPrice, -h.position))
      else None
  }

  /** For a positive entry price: a stop when the price fell to
      entry·(1 − stop_loss), and otherwise a take-profit when it rose to
      entry·(1 + take_profit); the stop is checked first. */
  lemma ExitRule(p: LstmParams, h: Holding, currentPrice: real)
    requires h.position != 0.0 && h.entryPrice > 0.0
    ensures var r := ExitFor(p, h, currentPrice);
            var lo := currentPrice <= Mul(h.entryPrice, 1.0 - p.stopLoss);
            var hi := currentPrice >= Mul(h.entryPrice, 1.0 + p.takeProfit);
            (r.Some? && r.value.kind == StopLoss <==> lo) &&
            (r.Some? && r.value.kind == TakeProfit <==> !lo && hi) &&
            (r.None? <==> !lo && !hi)
  {
    var d := currentPrice - h.entryPrice;
    var e := h.entryPrice;
    DivStrictOrder(d, -p.stopLoss, e);
    DivStrictOrder(d, p.takeProfit, e);
    MulCommutes(-p.stopLoss, e);
    MulCommutes(p.takeProfit, e);
    MulDistributes(e, 1.0, -p.stopLoss);
    MulDistributes(e, 1.0, p.takeProfit);
  }

  class LstmTrader {
    const params: LstmParams
    var currentPosition: real
    var entryPrice: real

    function State(): Holding
      reads this
    {
      Holding(currentPosition, entryPrice)
    }

    /** Flat, with the configured parameters. */
    constructor (p: LstmParams)
      ensures params == p && State() == Holding(0.0, 0.0)
    {
      params := p;
      currentPosition := 0.0;
      entryPrice := 0.0;
    }

    /** `execute_trade`. */
    method ExecuteTrade(signal: LstmSignal, currentPrice: real) returns (r: TradeResult)
      modifies this
      ensures (r, State()) == Execute(params, old(State()), signal.action, currentPrice)
    {
      r := TradeResult(false, signal.action, currentPrice, 0.0);
      if signal.action == Hold {
        return;
      }
      if signal.action == BuyAction && currentPosition <= 0.0 {
        r := r.(quantity := params.positionSize, executed := true);
        currentPosition := currentPosition + params.positionSize;
        entryPrice := currentPrice;
      } else if signal.action == SellAction && currentPosition >= 0.0 {
        r := r.(quantity := -params.positionSize, executed := true);
        currentPosition := currentPosition - params.positionSize;
        entryPrice := currentPrice;
      }
    }

    /** `check_stop_loss_take_profit`: reads the position, changes nothing. */
    function CheckStopLossTakeProfit(currentPrice: real): (r: Option<Exit>)
      reads this
      ensures r == ExitFor(params, State(), currentPrice)
    {
      ExitFor(params, State(), currentPrice)
    }
  }

  // ---------------------------------------------------------------------
  // Maximum drawdown

  /** One step of `calculate_max_drawdown` on (peak, max_dd): a new high
      lifts the peak, and the drawdown from it replaces a smaller maximum.
      The values are Python floats, so a zero peak raises. */
  function DrawdownStep(s: (real, real), value: real): Result<(real, real)>
  {
    var peak := if value > s.0 then value else s.0;
    if peak == 0.0 then Failure(PyStrategyBase.ZeroDivision)
    else
      var dd := (peak - value) / peak;
      Success((peak, if dd > s.1 then dd else s.1))
  }

  /** The (peak, max_dd) pair after the values `vs`, starting from peak
      `first` and no drawdown. */
  function DrawdownScan(first: real, vs: seq<real>): (r: Result<(real, real)>)
    ensures r.Failure? ==> r.error == PyStrategyBase.ZeroDivision
    ensures r.Success? ==> r.value.1 >= 0.0
  {
    if |vs| == 0 then Success((first, 0.0))
    else
      var prev := DrawdownScan(first, vs[..|vs| - 1]);
      if prev.Failure? then prev else DrawdownStep(prev.value, vs[|vs| - 1])
  }

  /** Once the scan has raised, longer prefixes raise the same error. */
  lemma {:induction false} ScanStaysFailed(first: real, vs: seq<real>, k: nat, m: nat)
    requires k <= m <= |vs| && DrawdownScan(first, vs[..k]).Failure?
    ensures DrawdownScan(first, vs[..m]) == DrawdownScan(first, vs[..k])
    decreases m - k
  {
    if k < m {
      assert vs[..k + 1][..k] == vs[..k];
      ScanStaysFailed(first, vs, k + 1, m);
    }
  }

  /** `calculate_max_drawdown`: the empty list raises IndexError, a zero
      peak ZeroDivisionError, and a result is never negative. */
  function MaxDrawdown(values: seq<real>): (r: Result<real>)
    ensures r.Failure? ==> r.error == if |values| == 0 then PyStrategyBase.IndexError else PyStrategyBase.ZeroDivision
    ensures r.Success? ==> r.value >= 0.0
  {
    if |values| == 0 then Failure(PyStrategyBase.IndexError)
    else
      var s := DrawdownScan(values[0], values);
      if s.Failure? then Failure(s.error) else Success(s.value.1)
  }

  method CalculateMaxDrawdown(values: seq<real>) returns (r: Result<real>)
    ensures r == MaxDrawdown(values)
  {
    if |values| == 0 {
      return Failure(PyStrategyBase.IndexError);
    }
    var peak := values[0];
    var maxDd := 0.0;
    var k := 0;
    while k < |values|
      invariant 0 <= k <= |values|
      invariant DrawdownScan(values[0], values[..k]) == Success((peak, maxDd))
    {
      assert values[..k + 1][..k] == values[..k];
      var value := values[k];
      if value > peak {
        peak := value;
      }
      if peak == 0.0 {
        ScanStaysFailed(values[0], values, k + 1, |values|);
        assert values[..|values|] == values;
        return Failure(PyStrategyBase.ZeroDivision);
      }
      var dd := (peak - value) / peak;
      if dd > maxDd {
        maxDd := dd;
      }
      k := k + 1;
    }
    assert values[..k] == values;
    r := Success(maxDd);
  }

  /** The highest of the first j + 1 values: the peak at step j. */
  function RunningPeak(values: seq<real>, j: nat): real
    requires j < |values|
  {
    if j == 0 then values[0]
    else
      var p := RunningPeak(values, j - 1);
      if values[j] > p then values[j] else p
  }

  /** The drawdown at step j from the running peak. */
  function DrawdownAt(values: seq<real>, j: nat): real
    requires j < |values| && RunningPeak(values, j) != 0.0
  {
    (RunningPeak(values, j) - values[j]) / RunningPeak(values, j)
  }

  predicate Positive(values: seq<real>) {
    forall i :: 0 <= i < |values| ==> values[i] > 0.0
  }

  lemma RunningPeakBounds(values: seq<real>, j: nat)
    requires j < |values| && Positive(values)
    ensures RunningPeak(values, j) >= values[j] && RunningPeak(values, j) > 0.0
    ensures exists i :: 0 <= i <= j && RunningPeak(values, j) == values[i]
  {
    if j > 0 {
      RunningPeakBounds(values, j - 1);
    }
  }

  /** Each step's drawdown from a positive peak lies in [0, 1). */
  lemma DrawdownAtBounds(values: seq<real>, j: nat)
    requires j < |values| && Positive(values)
    ensures RunningPeak(values, j) > 0.0
    ensures 0.0 <= DrawdownAt(values, j) < 1.0
  {
    RunningPeakBounds(values, j);
    var p := RunningPeak(values, j);
    DivStrictOrder(p - values[j], 1.0, p);
    DivStrictOrder(p - values[j], 0.0, p);
  }

  /** The scan over the first k values tracks the running peak and the
      largest step drawdown so far. */
  lemma {:induction false} ScanIsMaximum(values: seq<real>, k: nat)
    requires 0 < k <= |values| && Positive(values)
    ensures var s := DrawdownScan(values[0], values[..k]);
            s.Success? && s.value.0 == RunningPeak(values, k - 1) &&
            (forall j :: 0 <= j < k ==> DrawdownAt(values, j) <= s.value.1) &&
            (exists j :: 0 <= j < k && DrawdownAt(values, j) == s.value.1)
  {
    DrawdownAtBounds(values, k - 1);
    assert values[..k][..k - 1] == values[..k - 1];
    if k == 1 {
      assert DrawdownScan(values[0], values[..0]) == Success((values[0], 0.0));
      assert DrawdownAt(values, 0) == 0.0;
    } else {
      ScanIsMaximum(values, k - 1);
      forall j | 0 <= j < k - 1
        ensures RunningPeak(values, j) > 0.0
      {
        DrawdownAtBounds(values, j);
      }
    }
  }

  /** For a positive series the result exists, lies in [0, 1), bounds the
      drawdown of every step from its running peak and equals one of them. */
  lemma MaxDrawdownSpec(values: seq<real>)
    requires |values| > 0 && Positive(values)
    ensures var r := MaxDrawdown(values);
            r.Success? && 0.0 <= r.value < 1.0 &&
            (forall j :: 0 <= j < |values| ==> DrawdownAt(values, j) <= r.value) &&
            (exists j :: 0 <= j < |values| && DrawdownAt(values, j) == r.value)
  {
    ScanIsMaximum(values, |values|);
    assert values[..|values|] == values;
    var j :| 0 <= j < |values| && DrawdownAt(values, j) == MaxDrawdown(values).value;
    DrawdownAtBounds(values, j);
  }

  /** A non-decreasing series starting above zero never draws down. */
  lemma NonDecreasingNoDrawdown(values: seq<real>)
    requires |values| > 0 && values[0] > 0.0
    requires forall i, j :: 0 <= i <= j < |values| ==> values[i] <= values[j]
    ensures MaxDrawdown(values) == Success(0.0)
  {
    assert Positive(values);
    MaxDrawdownSpec(values);
    forall j | 0 <= j < |values|
      ensures DrawdownAt(values, j) == 0.0
    {
      RunningPeakBounds(values, j);
    }
  }
}
