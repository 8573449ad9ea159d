// `run_strategy` of strategies/spy_qqq.py: a back-test over daily closes of
// SPY, QQQ and a bond fund. Starting with a bond / SPY split, it moves a
// fraction of the bond holding into QQQ when SPY's drawdown from its
// running high passes one and then two thresholds, moves all QQQ back into
// SPY once SPY recovers to the price of the last move, and trades nothing
// on a day whose drawdown is past the crash threshold. The method follows
// the loop; `Step` and `Run` specify it a day at a time.
module SpyQqq {
  import opened RealArith

  const InitialCapital: real := 10000.0

  /** One row of the price table. */
  datatype Day = Day(spy: real, qqq: real, bond: real)

  predicate PositiveDay(d: Day) {
    d.spy > 0.0 && d.qqq > 0.0 && d.bond > 0.0
  }

  predicate PositiveDays(data: seq<Day>) {
    forall i :: 0 <= i < |data| ==> PositiveDay(data[i])
  }

  datatype Holdings = Holdings(bondShares: real, spyShares: real, qqqShares: real)

  /** The loop's variables: the holdings, the SPY price of the last move
      into QQQ, the trigger level, the crash flag, SPY's running high and
      the values recorded so far. */
  datatype RunState = RunState(h: Holdings, entrySpy: real, level: int, frozen: bool,
                               spyHigh: real, values: seq<real>)

  /** The holdings at a day's closes. */
  function Value(h: Holdings, d: Day): real {
    Mul(h.bondShares, d.bond) + Mul(h.spyShares, d.spy) + Mul(h.qqqShares, d.qqq)
  }

  /** SPY's running high after the day. */
  function NewHigh(s: RunState, d: Day): real {
    if d.spy > s.spyHigh then d.spy else s.spyHigh
  }

  /** The day's drawdown of SPY from its running high. */
  function Drawdown(s: RunState, d: Day): real
    requires s.spyHigh > 0.0
  {
    (NewHigh(s, d) - d.spy) / NewHigh(s, d)
  }

  /** Moving fraction y of the bond holding's value into QQQ: the QQQ
      bought is worth what was invested, SPY is untouched, and the
      holdings keep their value at the day's closes. */
  function Rotate(h: Holdings, d: Day, y: real): (r: Holdings)
    requires PositiveDay(d)
    ensures r.spyShares == h.spyShares
    ensures Mul(r.qqqShares - h.qqqShares, d.qqq) == Mul(Mul(h.bondShares, d.bond), y)
    ensures Value(r, d) == Value(h, d)
  {
    var invest := Mul(Mul(h.bondShares, d.bond), y);
    DivTimes(invest, d.bond);
    DivTimes(invest, d.qqq);
    MulDistributes(d.bond, h.bondShares, invest / d.bond);
    MulDistributes(d.qqq, h.qqqShares, invest / d.qqq);
    Holdings(h.bondShares - invest / d.bond, h.spyShares, h.qqqShares + invest / d.qqq)
  }

  /** Selling all QQQ for SPY: no QQQ is left, the bonds are untouched,
      and the holdings keep their value at the day's closes. */
  function Rebound(h: Holdings, d: Day): (r: Holdings)
    requires PositiveDay(d)
    ensures r.qqqShares == 0.0 && r.bondShares == h.bondShares
    ensures Value(r, d) == Value(h, d)
  {
    var cash := Mul(h.qqqShares, d.qqq);
    DivTimes(cash, d.spy);
    MulDistributes(d.spy, h.spyShares, cash / d.spy);
    Holdings(h.bondShares, h.spyShares + cash / d.spy, 0.0)
  }

  /** One pass of the loop body. */
  function Step(s: RunState, d: Day, m: real, y: real, z: real): (r: RunState)
    requires PositiveDay(d) && s.spyHigh > 0.0
    ensures r.spyHigh == NewHigh(s, d) && r.spyHigh > 0.0
    ensures r.values == s.values + [Value(s.h, d)]
  {
    var dd := Drawdown(s, d);
    var s2 := s.(values := s.values + [Value(s.h, d)], spyHigh := NewHigh(s, d));
    if dd > z then s2.(frozen := true)
    else
      var s3 := if s2.frozen && dd <= z then s2.(frozen := false) else s2;
      if s3.level > 0 && d.spy >= s3.entrySpy then
        s3.(h := Rebound(s3.h, d), level := 0, entrySpy := 0.0)
      else if s3.level == 0 && dd > m then
        s3.(h := Rotate(s3.h, d, y), level := 1, entrySpy := d.spy)
      else if s3.level == 1 && dd > 2.0 * m then
        s3.(h := Rotate(s3.h, d, y), level := 2, entrySpy := d.spy)
      else s3
  }

  /** The state after the given days. */
  function Run(s: RunState, days: seq<Day>, m: real, y: real, z: real): (r: RunState)
    requires PositiveDays(days) && s.spyHigh > 0.0
    ensures r.spyHigh >= s.spyHigh
    ensures |r.values| == |s.values| + |days|
  {
    if |days| == 0 then s
    else Step(Run(s, days[..|days| - 1], m, y, z), days[|days| - 1], m, y, z)
  }

  /** The opening position: b0 of the capital in bonds and the rest in
      SPY at the first closes, nothing in QQQ, so it is worth the capital;
      level 0, no crash, nothing recorded, the high at SPY's first close. */
  function Init(b0: real, first: Day): (s: RunState)
    requires PositiveDay(first)
    ensures Mul(s.h.bondShares, first.bond) == InitialCapital * b0
    ensures Mul(s.h.spyShares, first.spy) == InitialCapital * (1.0 - b0)
    ensures s.h.qqqShares == 0.0 && Value(s.h, first) == InitialCapital
    ensures s.level == 0 && !s.frozen && s.values == [] && s.spyHigh == first.spy
  {
    DivTimes(InitialCapital * b0, first.bond);
    DivTimes(InitialCapital * (1.0 - b0), first.spy);
    RunState(Holdings(InitialCapital * b0 / first.bond, InitialCapital * (1.0 - b0) / first.spy, 0.0),
             0.0, 0, false, first.spy, [])
  }

  /** The return of the last recorded value over the capital, 0 with
      nothing recorded. */
  function Outcome(values: seq<real>): real {
    if |values| == 0 then 0.0 else (values[|values| - 1] - InitialCapital) / InitialCapital
  }

  /** `run_strategy`: 0 when there is no first row (the bare `except`);
      otherwise one value per day, and the return over the capital of the
      last day's value, the holdings before that day's trade at its
      closes. */
  function RunStrategySpec(b0: real, m: real, y: real, z: real, data: seq<Day>): (r: real)
    requires PositiveDays(data)
    ensures |data| == 0 ==> r == 0.0
    ensures |data| > 0 ==>
              var n := |data|;
              var s := Init(b0, data[0]);
              var before := Run(s, data[..n - 1], m, y, z);
              |Run(s, data, m, y, z).values| == n &&
              r == (Value(before.h, data[n - 1]) - InitialCapital) / InitialCapital
  {
    if |data| == 0 then 0.0
    else
      var s := Init(b0, data[0]);
      var run := Run(s, data, m, y, z);
      assert run.values[|run.values| - 1] == Value(Run(s, data[..|data| - 1], m, y, z).h, data[|data| - 1]);
      Outcome(run.values)
  }

  method RunStrategy(b0: real, m: real, y: real, z: real, data: seq<Day>) returns (r: real)
    requires PositiveDays(data)
    ensures r == RunStrategySpec(b0, m, y, z, data)
  {
    if |data| == 0 {
      return 0.0;
    }
    var bondVal := InitialCapital * b0;
    var spyVal := InitialCapital * (1.0 - b0);
    var bondStart := data[0].bond;
    var spyStart := data[0].spy;
    var bondShares := bondVal / bondStart;
    var spyShares := spyVal / spyStart;
    var qqqShares := 0.0;
    var entrySpy := 0.0;
    var level := 0;
    var frozen := false;
    var values: seq<real> := [];
    var spyHigh := spyStart;
    ghost var init := RunState(Holdings(bondShares, spyShares, qqqShares), entrySpy, level, frozen, spyHigh, values);
    assert init == Init(b0, data[0]);
    for i := 0 to |data|
      invariant RunState(Holdings(bondShares, spyShares, qqqShares), entrySpy, level, frozen, spyHigh, values) ==
                Run(init, data[..i], m, y, z)
    {
      ghost var before := RunState(Holdings(bondShares, spyShares, qqqShares), entrySpy, level, frozen, spyHigh, values);
      assert data[..i + 1][..i] == data[..i];
      assert PositiveDay(data[i]);
      ghost var after := Step(before, data[i], m, y, z);
      assert Run(init, data[..i + 1], m, y, z) == after;
      var pSpy := data[i].spy;
      var pQqq := data[i].qqq;
      var pBond := data[i].bond;
      var currentBondVal := Mul(bondShares, pBond);
      var currentSpyVal := Mul(spyShares, pSpy);
      var currentQqqVal := Mul(qqqShares, pQqq);
      values := values + [currentBondVal + currentSpyVal + currentQqqVal];
      if pSpy > spyHigh {
        spyHigh := pSpy;
      }
      var drawdown := (spyHigh - pSpy) / spyHigh;
      assert drawdown == Drawdown(before, data[i]);
      if drawdown > z {
        frozen := true;
        assert RunState(Holdings(bondShares, spyShares, qqqShares), entrySpy, level, frozen, spyHigh, values) == after;
        continue;
      }
      if frozen && drawdown <= z {
        frozen := false;
      }
      if level > 0 && pSpy >= entrySpy {
        var cashFromQqq := Mul(qqqShares, pQqq);
        qqqShares := 0.0;
        spyShares := spyShares + cashFromQqq / pSpy;
        level := 0;
        entrySpy := 0.0;
        assert Holdings(bondShares, spyShares, qqqShares) == Rebound(before.h, data[i]);
        assert RunState(Holdings(bondShares, spyShares, qqqShares), entrySpy, level, frozen, spyHigh, values) == after;
        continue;
      }
      if level == 0 && drawdown > m {
        var investAmt := Mul(currentBondVal, y);
        bondShares := bondShares - investAmt / pBond;
        qqqShares := qqqShares + investAmt / pQqq;
        level := 1;
        entrySpy := pSpy;
        assert Holdings(bondShares, spyShares, qqqShares) == Rotate(before.h, data[i], y);
      } else if level == 1 && drawdown > 2.0 * m {
        currentBondVal := Mul(bondShares, pBond);
        var investAmt := Mul(currentBondVal, y);
        bondShares := bondShares - investAmt / pBond;
        qqqShares := qqqShares + investAmt / pQqq;
        level := 2;
        entrySpy := pSpy;
        assert Holdings(bondShares, spyShares, qqqShares) == Rotate(before.h, data[i], y);
      }
      assert RunState(Holdings(bondShares, spyShares, qqqShares), entrySpy, level, frozen, spyHigh, values) == after;
    }
    assert data[..|data|] == data;
    r := Outcome(values);
  }

  // ---------------------------------------------------------------------
  // Properties

  /** The trigger level is 0, 1 or 2, and QQQ is held only above level 0. */
  predicate Inv(s: RunState) {
    (s.level == 0 || s.level == 1 || s.level == 2) && (s.level == 0 ==> s.h.qqqShares == 0.0)
  }

  /** With a non-negative bond holding and 0 <= y <= 1, a rotation moves
      fraction y of the bond value (never more than is held) into QQQ. */
  lemma RotateMovesFraction(h: Holdings, d: Day, y: real)
    requires PositiveDay(d) && h.bondShares >= 0.0 && 0.0 <= y <= 1.0
    ensures var h' := Rotate(h, d, y);
            0.0 <= h'.bondShares <= h.bondShares &&
            Mul(h.bondShares - h'.bondShares, d.bond) == Mul(Mul(h.bondShares, d.bond), y) &&
            h'.spyShares == h.spyShares && h'.qqqShares >= h.qqqShares
  {
    var v := Mul(h.bondShares, d.bond);
    var invest := Mul(v, y);
    var h' := Rotate(h, d, y);
    DivTimes(invest, d.bond);
    assert h.bondShares - h'.bondShares == invest / d.bond;
    MulNonNegative(h.bondShares, d.bond);
    MulNonNegative(v, y);
    DivStrictOrder(invest, 0.0, d.bond);
    DivStrictOrder(invest, 0.0, d.qqq);
    // invest / bond = bondShares · y <= bondShares
    assert invest / d.bond == Mul(h.bondShares, y) by {
      MulAssociates(h.bondShares, d.bond, y);
      MulCommutes(d.bond, y);
      MulAssociates(h.bondShares, y, d.bond);
      DivUnique(Mul(h.bondShares, y), invest, d.bond);
    }
    MulDistributes(h.bondShares, 1.0, -y);
    MulNonNegative(h.bondShares, 1.0 - y);
  }

  /** One day: the value before trading is recorded; on a crash day
      (drawdown past z) only the crash flag and the high change; otherwise
      the flag is cleared, a recovery to the entry price sells all QQQ for
      SPY, level 0→1 needs drawdown past m and level 1→2 past 2m, each moving
      fraction y of the bond value, and the value at the day's closes is the
      same after the trade. */
  lemma StepSpec(s: RunState, d: Day, m: real, y: real, z: real)
    requires PositiveDay(d) && s.spyHigh > 0.0 && Inv(s)
    ensures var r := Step(s, d, m, y, z);
            var dd := Drawdown(s, d);
            Inv(r) && Value(r.h, d) == Value(s.h, d) &&
            (dd > z ==> r == s.(values := r.values, spyHigh := r.spyHigh, frozen := true)) &&
            (dd <= z ==> !r.frozen) &&
            (dd <= z && s.level > 0 && d.spy >= s.entrySpy ==>
               r.level == 0 && r.h == Rebound(s.h, d) && r.entrySpy == 0.0) &&
            (r.level == 1 && s.level == 0 ==> m < dd <= z && r.h == Rotate(s.h, d, y) && r.entrySpy == d.spy) &&
            (r.level == 2 && s.level == 1 ==> 2.0 * m < dd <= z && r.h == Rotate(s.h, d, y) && r.entrySpy == d.spy) &&
            (r.level == s.level ==> r.h == s.h && r.entrySpy == s.entrySpy)
  {
  }

  /** The crash flag never changes a trade: runs from states that differ
      only in the flag end in states that differ only in the flag. */
  lemma {:induction false} FrozenIsInert(s: RunState, days: seq<Day>, m: real, y: real, z: real, f: bool)
    requires PositiveDays(days) && s.spyHigh > 0.0
    ensures var a := Run(s, days, m, y, z);
            var b := Run(s.(frozen := f), days, m, y, z);
            a.(frozen := false) == b.(frozen := false)
  {
    if |days| > 0 {
      FrozenIsInert(s, days[..|days| - 1], m, y, z, f);
    }
  }

  /** The invariant holds on every run, and the bond holding never grows
      when it starts non-negative and 0 <= y <= 1. */
  lemma {:induction false} RunKeepsInvariant(s: RunState, days: seq<Day>, m: real, y: real, z: real)
    requires PositiveDays(days) && s.spyHigh > 0.0 && Inv(s)
    ensures Inv(Run(s, days, m, y, z))
    ensures s.h.bondShares >= 0.0 && 0.0 <= y <= 1.0 ==>
              0.0 <= Run(s, days, m, y, z).h.bondShares <= s.h.bondShares
  {
    if |days| > 0 {
      var prev := Run(s, days[..|days| - 1], m, y, z);
      var d := days[|days| - 1];
      RunKeepsInvariant(s, days[..|days| - 1], m, y, z);
      StepSpec(prev, d, m, y, z);
      if prev.h.bondShares >= 0.0 && 0.0 <= y <= 1.0 {
        RotateMovesFraction(prev.h, d, y);
      }
    }
  }

  /** The high is SPY's running maximum: at least the start and every
      close seen, and equal to one of them. */
  lemma {:induction false} HighIsRunningMax(s: RunState, days: seq<Day>, m: real, y: real, z: real)
    requires PositiveDays(days) && s.spyHigh > 0.0
    ensures var r := Run(s, days, m, y, z);
            (forall i :: 0 <= i < |days| ==> days[i].spy <= r.spyHigh) &&
            (r.spyHigh == s.spyHigh || exists i :: 0 <= i < |days| && r.spyHigh == days[i].spy)
  {
    if |days| > 0 {
      var init := days[..|days| - 1];
      HighIsRunningMax(s, init, m, y, z);
      var r := Run(s, days, m, y, z);
      assert forall i :: 0 <= i < |init| ==> init[i] == days[i];
    }
  }

  /** With a positive high and close, the day's drawdown is in [0, 1). */
  lemma DrawdownBounds(s: RunState, d: Day)
    requires PositiveDay(d) && s.spyHigh > 0.0
    ensures 0.0 <= Drawdown(s, d) < 1.0
  {
    var hi := NewHigh(s, d);
    DivStrictOrder(hi - d.spy, 1.0, hi);
    DivStrictOrder(hi - d.spy, 0.0, hi);
  }
}
