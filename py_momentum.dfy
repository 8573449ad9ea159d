// `MomentumStrategy` of strategies/momentum_strategy.py: per-symbol-name
// price and volume histories of up to 50 ticks kept in lockstep, and a
// moving-average momentum signal confirmed by the price's side of the
// volume-weighted average. NumPy divides by zero without raising, so the
// two quotients of the rule are FloatQuotient values.
module PyMomentum {
  import opened Wrappers
  import opened Books
  import opened RealArith
  import opened Windows
  import opened Symbols
  import opened PyStrategyBase
  import opened FloatQuotient

  const MaxHistory: nat := 50
  const ShortPeriod: nat := 10
  const LongPeriod: nat := 30
  const MomentumThreshold: real := 0.02
  const PositionSize: real := 0.1

  /** `min(abs(q) / threshold, 1.0)` for a momentum that passed a
      comparison, so never NaN. */
  function Confidence(q: Quotient, t: real): real
    requires t > 0.0 && !q.NaN?
  {
    match q
    case Finite(v) => ClampOne(Abs(v) / t)
    case _ => 1.0
  }

  /** The volume of one tick: the quantities of the first five visible
      levels of each side. */
  function TickVolume(book: PyBook): (r: real)
    ensures ((forall i :: 0 <= i < |book.bids| ==> book.bids[i].quantity >= 0.0) &&
             (forall i :: 0 <= i < |book.asks| ==> book.asks[i].quantity >= 0.0)) ==> r >= 0.0
  {
    var nb := Min(5, |book.bids|);
    var na := Min(5, |book.asks|);
    SumQtyNonNegativeIf(book.bids, nb);
    SumQtyNonNegativeIf(book.asks, na);
    SumQty(book.bids, nb) + SumQty(book.asks, na)
  }

  lemma SumQtyNonNegativeIf(levels: seq<Level>, n: int)
    requires n <= |levels|
    ensures (forall i :: 0 <= i < |levels| ==> levels[i].quantity >= 0.0) ==> SumQty(levels, n) >= 0.0
  {
    if forall i :: 0 <= i < |levels| ==> levels[i].quantity >= 0.0 {
      SumQtyNonNegative(levels, n);
    }
  }

  /** `np.sum(prices * volumes)`. */
  function Weighted(ps: seq<real>, vs: seq<real>): real
    requires |ps| == |vs|
  {
    if |ps| == 0 then 0.0 else Weighted(ps[..|ps| - 1], vs[..|vs| - 1]) + Mul(ps[|ps| - 1], vs[|vs| - 1])
  }

  /** The mean of the newest `n` values. */
  function MeanOfLast(h: seq<real>, n: nat): real
    requires 0 < n <= |h|
  {
    Sum(h[|h| - n..]) / n as real
  }

  /** `generate_signal` on a symbol's price and volume histories. With at
      least 30 prices: momentum = (short MA − long MA) / long MA over the
      last 10 and 30 prices; vwap = Σp·v / Σv, or the mid when Σv <= 0;
      'buy' at the best ask when momentum > 0.02 and the mid is above vwap
      in relative terms, 'sell' at the best bid when momentum < −0.02 and it
      is below; an empty side raises IndexError. The averages and the
      weighted sum are NumPy floats, but the fallback vwap is the plain mid,
      so dividing by it when it is 0 raises ZeroDivisionError. */
  function Rule(prices: seq<real>, volumes: seq<real>, book: PyBook): (r: Result<Option<PySignal>>)
    requires |prices| == |volumes|
    ensures |prices| < LongPeriod ==> r == Success(None)
    ensures r.Failure? <==> |prices| >= LongPeriod &&
                            (|book.bids| == 0 || |book.asks| == 0 || (Sum(volumes) <= 0.0 && Mid(book) == 0.0))
    ensures r.Failure? ==> r.error == (if |book.bids| == 0 || |book.asks| == 0 then IndexError else ZeroDivision)
    ensures r.Success? && r.value.Some? ==>
              var s := r.value.value;
              s.symbol == PySymbolName(book.symbol) && s.quantity == PositionSize &&
              ((s.kind == "buy" && s.price == book.asks[0].price) || (s.kind == "sell" && s.price == book.bids[0].price))
  {
    if |prices| < LongPeriod then Success(None)
    else if |book.bids| == 0 || |book.asks| == 0 then Failure(IndexError)
    else
      var mid := Mid(book);
      var shortMa := MeanOfLast(prices, ShortPeriod);
      var longMa := MeanOfLast(prices, LongPeriod);
      var momentum := Div(shortMa - longMa, longMa);
      if Sum(volumes) <= 0.0 && mid == 0.0 then Failure(ZeroDivision)
      else
      var vwap := if Sum(volumes) > 0.0 then Weighted(prices, volumes) / Sum(volumes) else mid;
      var ratio := Div(mid - vwap, vwap);
      if Above(momentum, MomentumThreshold) && Above(ratio, 0.0) then
        Success(Some(PySignal("buy", PySymbolName(book.symbol), book.asks[0].price, PositionSize,
                              Confidence(momentum, MomentumThreshold))))
      else if Below(momentum, -MomentumThreshold) && Below(ratio, 0.0) then
        Success(Some(PySignal("sell", PySymbolName(book.symbol), book.bids[0].price, PositionSize,
                              Confidence(momentum, MomentumThreshold))))
      else Success(None)
  }

  /** Every emitted signal reports confidence exactly 1, since its momentum
      is beyond the threshold. */
  lemma ConfidenceIsOne(prices: seq<real>, volumes: seq<real>, book: PyBook)
    requires |prices| == |volumes|
    requires Rule(prices, volumes, book).Success? && Rule(prices, volumes, book).value.Some?
    ensures Rule(prices, volumes, book).value.value.confidence == 1.0
  {
    var mid := Mid(book);
    var shortMa := MeanOfLast(prices, ShortPeriod);
    var longMa := MeanOfLast(prices, LongPeriod);
    var momentum := Div(shortMa - longMa, longMa);
    if momentum.Finite? {
      var v := momentum.v;
      assert Abs(v) > MomentumThreshold;
      DivStrictOrder(MomentumThreshold, Abs(v), MomentumThreshold);
    }
  }

  /** For a positive long average, a buy needs the short average above
      1.02 times it and a sell needs it below 0.98 times it: the momentum
      test in multiplicative form. */
  lemma MomentumAsRatio(prices: seq<real>, volumes: seq<real>, book: PyBook)
    requires |prices| == |volumes| && |prices| >= LongPeriod
    requires MeanOfLast(prices, LongPeriod) > 0.0
    requires Rule(prices, volumes, book).Success? && Rule(prices, volumes, book).value.Some?
    ensures var s := MeanOfLast(prices, ShortPeriod);
            var l := MeanOfLast(prices, LongPeriod);
            var kind := Rule(prices, volumes, book).value.value.kind;
            (kind == "buy" ==> s > Mul(1.02, l)) && (kind == "sell" ==> s < Mul(0.98, l))
  {
    var s := MeanOfLast(prices, ShortPeriod);
    var l := MeanOfLast(prices, LongPeriod);
    var m := (s - l) / l;
    DivTimes(s - l, l);
    assert s - l == Mul(m, l);
    var kind := Rule(prices, volumes, book).value.value.kind;
    if kind == "buy" {
      assert m > MomentumThreshold;
      MulStrictOrder(l, MomentumThreshold, m);
      MulCommutes(l, MomentumThreshold);
      MulCommutes(l, m);
      MulDistributes(l, 1.0, MomentumThreshold);
    } else {
      assert m < -MomentumThreshold;
      MulStrictOrder(l, m, -MomentumThreshold);
      MulCommutes(l, -MomentumThreshold);
      MulCommutes(l, m);
      MulDistributes(l, 1.0, -MomentumThreshold);
    }
  }

  /** A constant positive price history has no momentum and gives no
      signal, whatever the volumes. */
  lemma ConstantHistoryNoSignal(prices: seq<real>, volumes: seq<real>, book: PyBook, c: real)
    requires |prices| == |volumes| && |prices| >= LongPeriod && c > 0.0
    requires Constant(prices, c)
    ensures Rule(prices, volumes, book).Success? ==> Rule(prices, volumes, book) == Success(None)
  {
    var tailS := prices[|prices| - ShortPeriod..];
    var tailL := prices[|prices| - LongPeriod..];
    assert Constant(tailS, c) && Constant(tailL, c);
    MeanConstant(tailS, c);
    MeanConstant(tailL, c);
  }

  /** Two histories that share their keys and their lengths (at most 50). */
  ghost predicate Lockstep(ph: map<string, seq<real>>, vh: map<string, seq<real>>) {
    ph.Keys == vh.Keys && forall s :: s in ph ==> |ph[s]| == |vh[s]| <= MaxHistory
  }

  /** Storing two windows of one length keeps the histories in lockstep. */
  lemma LockstepStore(ph: map<string, seq<real>>, vh: map<string, seq<real>>, symbol: string,
                      p: seq<real>, v: seq<real>)
    requires Lockstep(ph, vh) && |p| == |v| <= MaxHistory
    ensures Lockstep(ph[symbol := p], vh[symbol := v])
  {
    assert ph[symbol := p].Keys == ph.Keys + {symbol};
    assert vh[symbol := v].Keys == vh.Keys + {symbol};
  }

  class MomentumStrategy {
    const base: StrategyBase
    var priceHistory: map<string, seq<real>>
    var volumeHistory: map<string, seq<real>>

    /** The two histories share their keys and their lengths (at most 50). */
    ghost predicate Valid()
      reads this
    {
      Lockstep(priceHistory, volumeHistory)
    }

    constructor (config: StrategyConfig, maxDailyLoss: real)
      ensures fresh(base) && Valid() && priceHistory == map[] && volumeHistory == map[]
      ensures base.State() == EmptyAccount && base.isRunning && base.config == config &&
              base.maxDailyLoss == maxDailyLoss
    {
      base := new StrategyBase(config, maxDailyLoss);
      priceHistory := map[];
      volumeHistory := map[];
    }

    /** `generate_signal`: nothing for a symbol name without history. */
    function GenerateSignal(book: PyBook): (r: Result<Option<PySignal>>)
      requires Valid()
      reads this
      ensures PySymbolName(book.symbol) !in priceHistory ==> r == Success(None)
      ensures PySymbolName(book.symbol) in priceHistory ==>
                r == Rule(priceHistory[PySymbolName(book.symbol)], volumeHistory[PySymbolName(book.symbol)], book)
    {
      var symbol := PySymbolName(book.symbol);
      if symbol !in priceHistory then Success(None)
      else Rule(priceHistory[symbol], volumeHistory[symbol], book)
    }

    /** `_execute_signal` behind the risk check, as in mean reversion. */
    method ExecuteIfAdmitted(signal: PySignal, now: real) returns (error: Option<string>)
      modifies base`positions, base`trades, base`totalTrades, base`winningTrades,
               base`losingTrades, base`totalPnl
      ensures var a := old(base.State());
              var u := Update(a, signal.symbol, signal.kind, signal.quantity, signal.price, now);
              if Admissible(a, base.config, base.maxDailyLoss, signal.quantity) then
                (error.Some? <==> u.Failure?) &&
                base.State() == (if u.Success? then u.value else a)
              else error.None? && base.State() == a
    {
      if !base.RiskCheck(signal.quantity) {
        return None;
      }
      var raised := base.UpdatePosition(signal.symbol, signal.kind, signal.quantity, signal.price, now);
      error := if raised then Some(ZeroDivision) else None;
    }

    /** The history half of `on_market_data`: the mid and the tick volume
        are appended together, both oldest dropped past 50. */
    method PushTick(book: PyBook)
      requires Valid() && |book.bids| > 0 && |book.asks| > 0
      modifies this
      ensures Valid()
      ensures var symbol := PySymbolName(book.symbol);
              var oldP := if symbol in old(priceHistory) then old(priceHistory)[symbol] else [];
              var oldV := if symbol in old(volumeHistory) then old(volumeHistory)[symbol] else [];
              priceHistory == old(priceHistory)[symbol := Push(oldP, Mid(book), MaxHistory)] &&
              volumeHistory == old(volumeHistory)[symbol := Push(oldV, TickVolume(book), MaxHistory)]
    {
      var symbol := PySymbolName(book.symbol);
      var midPrice := (book.bids[0].price + book.asks[0].price) / 2.0;
      var volume := TickVolume(book);
      var p := if symbol in priceHistory then priceHistory[symbol] else [];
      var v := if symbol in volumeHistory then volumeHistory[symbol] else [];
      ghost var p0, v0 := p, v;
      assert |p0| == |v0| <= MaxHistory;
      p := p + [midPrice];
      v := v + [volume];
      if |p| > MaxHistory {
        p := p[1..];
        v := v[1..];
      }
      assert p == Push(p0, midPrice, MaxHistory) && v == Push(v0, volume, MaxHistory);
      assert |p| == |v| <= MaxHistory;
      LockstepStore(priceHistory, volumeHistory, symbol, p, v);
      priceHistory := priceHistory[symbol := p];
      volumeHistory := volumeHistory[symbol := v];
    }

    /** The signal half of `on_market_data`: a ZeroDivisionError escapes,
        an admitted signal is executed, and nothing happens otherwise. */
    method ActOnSignal(signal: Result<Option<PySignal>>, now: real) returns (error: Option<string>)
      requires signal.Failure? ==> signal.error == ZeroDivision
      modifies base`positions, base`trades, base`totalTrades, base`winningTrades,
               base`losingTrades, base`totalPnl
      ensures var a := old(base.State());
              if signal.Failure? then error == Some(ZeroDivision) && base.State() == a
              else if signal.value.Some? && Admissible(a, base.config, base.maxDailyLoss, signal.value.value.quantity) then
                var u := Update(a, signal.value.value.symbol, signal.value.value.kind,
                                signal.value.value.quantity, signal.value.value.price, now);
                (error.Some? <==> u.Failure?) && base.State() == (if u.Success? then u.value else a)
              else error.None? && base.State() == a
    {
      if signal.Failure? {
        error := Some(signal.error);
      } else if signal.value.Some? {
        error := ExecuteIfAdmitted(signal.value.value, now);
      } else {
        error := None;
      }
    }

    /** `on_market_data`: nothing while stopped; IndexError and no change
        for a side with no visible level; otherwise the mid and the tick
        volume are pushed together (both oldest dropped past 50), then the
        signal's ZeroDivisionError escapes or the admitted signal is
        executed. */
    method OnMarketData(book: PyBook, now: real) returns (error: Option<string>)
      requires Valid()
      modifies this, base`positions, base`trades, base`totalTrades, base`winningTrades,
               base`losingTrades, base`totalPnl
      ensures Valid()
      ensures !base.isRunning || |book.bids| == 0 || |book.asks| == 0 ==>
                priceHistory == old(priceHistory) && volumeHistory == old(volumeHistory) &&
                base.State() == old(base.State()) &&
                error == (if base.isRunning then Some(IndexError) else None)
      ensures base.isRunning && |book.bids| > 0 && |book.asks| > 0 ==>
                var symbol := PySymbolName(book.symbol);
                var a := old(base.State());
                var oldP := if symbol in old(priceHistory) then old(priceHistory)[symbol] else [];
                var oldV := if symbol in old(volumeHistory) then old(volumeHistory)[symbol] else [];
                priceHistory == old(priceHistory)[symbol := Push(oldP, Mid(book), MaxHistory)] &&
                volumeHistory == old(volumeHistory)[symbol := Push(oldV, TickVolume(book), MaxHistory)] &&
                var s := GenerateSignal(book);
                if s.Failure? then error == Some(ZeroDivision) && base.State() == a
                else if s.value.Some? && Admissible(a, base.config, base.maxDailyLoss, s.value.value.quantity) then
                  var u := Update(a, symbol, s.value.value.kind, s.value.value.quantity, s.value.value.price, now);
                  (error.Some? <==> u.Failure?) && base.State() == (if u.Success? then u.value else a)
                else error.None? && base.State() == a
    {
      if !base.isRunning {
        return None;
      }
      if |book.bids| == 0 || |book.asks| == 0 {
        return Some(IndexError);
      }
      PushTick(book);
      var signal := GenerateSignal(book);
      error := ActOnSignal(signal, now);
    }
  }
}
