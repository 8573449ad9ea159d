// `StrategyBase` of strategies/strategy_base.py: the position table, the
// trade log and the running performance counters the Python strategies
// share. Each operation is specified by a function over an `Account` value
// (the table and the counters together); the class's methods change its
// fields in place and are proved to land on that function's result.
// The dictionary of positions is a sequence with one entry per symbol, in
// insertion order, as a Python dict iterates.
module PyStrategyBase {
  import opened Wrappers
  import opened Books
  import RealArith

  datatype Position = Position(symbol: string, side: string, size: real, entryPrice: real,
                               currentPrice: real, unrealizedPnl: real, timestamp: real)

  datatype Trade = Trade(symbol: string, side: string, size: real, price: real, timestamp: real, pnl: real)

  /** The fields of `StrategyConfig` the base class reads. The dataclass
      has no daily-loss limit (that one lives in the execution config). */
  datatype StrategyConfig = StrategyConfig(name: string, maxPositionSize: real, enableTrading: bool)

  const DefaultConfig := StrategyConfig("default_strategy", 1000.0, false)

  /** The daily-loss limit `risk_check` evidently means: `max_daily_loss`
      of the execution config, 100 by default. */
  const DefaultMaxDailyLoss: real := 100.0

  /** The book object the Python strategies are handed: a symbol code and
      `bids`/`asks` lists of levels, best first, as they index them. */
  datatype PyBook = PyBook(symbol: int, bids: seq<Level>, asks: seq<Level>)

  /** The mid-price the Python strategies read; indexing an empty list
      raises IndexError, which callers model before calling this. */
  function Mid(b: PyBook): real
    requires |b.bids| > 0 && |b.asks| > 0
  {
    (b.bids[0].price + b.asks[0].price) / 2.0
  }

  const IndexError := "IndexError"

  /** `min(x, 1.0)`. */
  function ClampOne(x: real): real {
    if 1.0 < x then 1.0 else x
  }

  /** A signal as the Python strategies emit it (its text reason left out). */
  datatype PySignal = PySignal(kind: string, symbol: string, price: real, quantity: real, confidence: real)

  /** The mutable state of a strategy: positions, trade log and counters. */
  datatype Account = Account(positions: seq<Position>, trades: seq<Trade>,
                             totalTrades: int, winningTrades: int, losingTrades: int,
                             totalPnl: real, maxDrawdown: real, peakEquity: real)

  const EmptyAccount := Account([], [], 0, 0, 0, 0.0, 0.0, 0.0)

  /** Dictionary lookup: the index of the symbol's entry, -1 when absent. */
  function Find(ps: seq<Position>, symbol: string): (i: int)
    ensures -1 <= i < |ps|
    ensures i >= 0 ==> ps[i].symbol == symbol
    ensures i == -1 <==> forall k :: 0 <= k < |ps| ==> ps[k].symbol != symbol
  {
    if |ps| == 0 then -1
    else if ps[0].symbol == symbol then 0
    else
      var j := Find(ps[1..], symbol);
      if j < 0 then -1 else j + 1
  }

  /** One entry per symbol, as in a dictionary. */
  predicate Keyed(ps: seq<Position>) {
    forall i, j :: 0 <= i < j < |ps| ==> ps[i].symbol != ps[j].symbol
  }

  /** `del positions[symbol]` for the entry at `i`. */
  function Without(ps: seq<Position>, i: int): seq<Position>
    requires 0 <= i < |ps|
  {
    ps[..i] + ps[i + 1..]
  }

  /** The realised profit of closing `size` at `price`: a 'long' position
      gains when the price rises, a position of any other side when it
      falls. */
  function Pnl(side: string, entry: real, price: real, size: real): (r: real)
    ensures size > 0.0 ==> (r > 0.0 <==> if side == "long" then price > entry else price < entry)
    ensures price == entry || size == 0.0 ==> r == 0.0
    ensures side != "long" ==> r == -((price - entry) * size)
  {
    var gain := if side == "long" then price - entry else entry - price;
    if size > 0.0 then RealArith.MulStrictOrder(size, gain, 0.0); gain * size
    else gain * size
  }

  function Abs(x: real): real {
    if x < 0.0 then -x else x
  }

  /** `sum(abs(p.size) for p in positions.values())`. */
  function TotalSize(ps: seq<Position>): (r: real)
    ensures r >= 0.0
    ensures forall i :: 0 <= i < |ps| ==> Abs(ps[i].size) <= r
  {
    if |ps| == 0 then 0.0 else Abs(ps[0].size) + TotalSize(ps[1..])
  }

  /** `sum(p.unrealized_pnl for p in positions.values())`. */
  function SumUnrealized(ps: seq<Position>): real {
    if |ps| == 0 then 0.0 else ps[0].unrealizedPnl + SumUnrealized(ps[1..])
  }

  /** The number of winning trades in a log. */
  function Wins(ts: seq<Trade>): nat {
    if |ts| == 0 then 0 else Wins(ts[..|ts| - 1]) + (if ts[|ts| - 1].pnl > 0.0 then 1 else 0)
  }

  function SumPnl(ts: seq<Trade>): real {
    if |ts| == 0 then 0.0 else SumPnl(ts[..|ts| - 1]) + ts[|ts| - 1].pnl
  }

  /** `sum(t.pnl for t in trades if t.pnl > 0)`. */
  function SumGains(ts: seq<Trade>): real {
    if |ts| == 0 then 0.0 else SumGains(ts[..|ts| - 1]) + (if ts[|ts| - 1].pnl > 0.0 then ts[|ts| - 1].pnl else 0.0)
  }

  /** `sum(t.pnl for t in trades if t.pnl < 0)`. */
  function SumLosses(ts: seq<Trade>): real {
    if |ts| == 0 then 0.0 else SumLosses(ts[..|ts| - 1]) + (if ts[|ts| - 1].pnl < 0.0 then ts[|ts| - 1].pnl else 0.0)
  }

  /** The counters agree with the trade log (total, winners, losers, total
      profit) and the table has one entry per symbol. */
  predicate Ledger(a: Account) {
    a.totalTrades == |a.trades| && a.winningTrades == Wins(a.trades) &&
    a.losingTrades == |a.trades| - Wins(a.trades) && a.totalPnl == SumPnl(a.trades) &&
    Keyed(a.positions)
  }

  /** `open_position`: the entry for the symbol becomes a fresh position at
      `price` with no unrealised profit (a new key goes last). */
  function Open(a: Account, symbol: string, side: string, size: real, price: real, now: real): (r: Account)
    ensures r.trades == a.trades && r.totalTrades == a.totalTrades && r.totalPnl == a.totalPnl
    ensures r.winningTrades == a.winningTrades && r.losingTrades == a.losingTrades
    ensures r.peakEquity == a.peakEquity && r.maxDrawdown == a.maxDrawdown
    ensures |r.positions| == |a.positions| + (if Find(a.positions, symbol) < 0 then 1 else 0)
    ensures Position(symbol, side, size, price, price, 0.0, now) in r.positions
  {
    var p := Position(symbol, side, size, price, price, 0.0, now);
    var i := Find(a.positions, symbol);
    var ps := if i < 0 then a.positions + [p] else a.positions[i := p];
    assert ps[if i < 0 then |a.positions| else i] == p;
    a.(positions := ps)
  }

  /** `close_position`: nothing for an absent symbol; otherwise one trade
      logged, the counters moved, and the held size reduced (the entry
      deleted once it reaches 0). */
  function Close(a: Account, symbol: string, size: real, price: real, now: real): (r: Account)
    ensures r.peakEquity == a.peakEquity && r.maxDrawdown == a.maxDrawdown
    ensures |r.trades| == |a.trades| + (if Find(a.positions, symbol) < 0 then 0 else 1)
    ensures r.trades[..|a.trades|] == a.trades
    ensures r.totalTrades == a.totalTrades + (|r.trades| - |a.trades|)
    ensures r.winningTrades + r.losingTrades == a.winningTrades + a.losingTrades + (|r.trades| - |a.trades|)
    ensures |r.positions| <= |a.positions|
  {
    var i := Find(a.positions, symbol);
    if i < 0 then a
    else
      var p := a.positions[i];
      var pnl := Pnl(p.side, p.entryPrice, price, size);
      var left := p.size - size;
      Account(if left <= 0.0 then Without(a.positions, i) else a.positions[i := p.(size := left)],
              a.trades + [Trade(symbol, p.side, size, price, now, pnl)],
              a.totalTrades + 1,
              if pnl > 0.0 then a.winningTrades + 1 else a.winningTrades,
              if pnl > 0.0 then a.losingTrades else a.losingTrades + 1,
              a.totalPnl + pnl, a.maxDrawdown, a.peakEquity)
  }

  const ZeroDivision := "ZeroDivisionError"

  /** A same-side add: the sizes sum and the entry price becomes their
      size-weighted average. */
  function AddTo(p: Position, size: real, price: real): (r: Position)
    requires p.size + size != 0.0
    ensures r.symbol == p.symbol && r.side == p.side && r.size == p.size + size
    ensures r.entryPrice * r.size == p.entryPrice * p.size + price * size
  {
    var total := p.size + size;
    p.(entryPrice := (p.entryPrice * p.size + price * size) / total, size := total)
  }

  /** A position marked to `price`. */
  function Marked(p: Position, price: real): Position {
    p.(currentPrice := price, unrealizedPnl := Pnl(p.side, p.entryPrice, price, p.size))
  }

  /** `update_position`. A same-side add whose total is 0 raises before
      touching anything. An opposite-side update at least the held size
      closes the whole position and then, because the closed position's
      size already reads 0, opens one of the full requested size. */
  function Update(a: Account, symbol: string, side: string, size: real, price: real, now: real): (r: Result<Account>)
    ensures r.Failure? ==> r.error == ZeroDivision && Find(a.positions, symbol) >= 0
    ensures r.Success? ==> r.value.peakEquity == a.peakEquity && r.value.maxDrawdown == a.maxDrawdown
    ensures r.Success? ==> |a.trades| <= |r.value.trades| <= |a.trades| + 1
    ensures r.Success? ==> r.value.trades[..|a.trades|] == a.trades
  {
    var i := Find(a.positions, symbol);
    if i < 0 then Success(Open(a, symbol, side, size, price, now))
    else
      var p := a.positions[i];
      if p.side == side then
        if p.size + size == 0.0 then Failure(ZeroDivision)
        else Success(a.(positions := a.positions[i := AddTo(p, size, price)]))
      else if size >= p.size then
        var closed := Close(a, symbol, p.size, price, now);
        Success(if size > 0.0 then Open(closed, symbol, side, size, price, now) else closed)
      else Success(Close(a, symbol, size, price, now))
  }

  /** One item of `update_market_prices`: the held position is marked to
      `price`, then a new equity high is recorded or the drawdown from the
      high is folded into the maximum. */
  function Mark(a: Account, symbol: string, price: real): (r: Account)
    ensures r.trades == a.trades && r.totalTrades == a.totalTrades && r.totalPnl == a.totalPnl
    ensures r.winningTrades == a.winningTrades && r.losingTrades == a.losingTrades
    ensures r.peakEquity >= a.peakEquity && r.maxDrawdown >= a.maxDrawdown
    ensures |r.positions| == |a.positions|
    ensures forall k :: 0 <= k < |a.positions| ==> r.positions[k].symbol == a.positions[k].symbol
  {
    var i := Find(a.positions, symbol);
    if i < 0 then a
    else
      var p := a.positions[i];
      var ps := a.positions[i := Marked(p, price)];
      var equity := a.totalPnl + SumUnrealized(ps);
      if equity > a.peakEquity then a.(positions := ps, peakEquity := equity)
      else
        var dd := if a.peakEquity > 0.0 then (a.peakEquity - equity) / a.peakEquity else 0.0;
        a.(positions := ps, maxDrawdown := if dd > a.maxDrawdown then dd else a.maxDrawdown)
  }

  /** `update_market_prices` over the items of the price dictionary, in
      order. */
  function MarkAll(a: Account, prices: seq<(string, real)>): (r: Account)
    ensures r.trades == a.trades && r.totalPnl == a.totalPnl
    ensures |r.positions| == |a.positions|
  {
    if |prices| == 0 then a
    else
      var last := prices[|prices| - 1];
      Mark(MarkAll(a, prices[..|prices| - 1]), last.0, last.1)
  }

  /** `risk_check` as written: with trading on and the position limit met,
      it reads `max_daily_loss` from a `StrategyConfig`, which has no such
      attribute, and raises. */
  function AdmissibleAsWritten(a: Account, config: StrategyConfig, quantity: real): (r: Result<bool>)
    ensures r.Success? ==> !r.value
  {
    if !config.enableTrading then Success(false)
    else if TotalSize(a.positions) + quantity > config.maxPositionSize then Success(false)
    else Failure("AttributeError: max_daily_loss")
  }

  /** `risk_check` with the daily-loss limit it evidently means. */
  function Admissible(a: Account, config: StrategyConfig, maxDailyLoss: real, quantity: real): (r: bool)
    ensures r ==> AdmissibleAsWritten(a, config, quantity).Failure?
  {
    config.enableTrading && TotalSize(a.positions) + quantity <= config.maxPositionSize &&
    a.totalPnl >= -maxDailyLoss
  }

  // ---------------------------------------------------------------- lemmas

  lemma {:induction false} TotalSizeConcat(xs: seq<Position>, ys: seq<Position>)
    ensures TotalSize(xs + ys) == TotalSize(xs) + TotalSize(ys)
  {
    if |xs| == 0 {
      assert xs + ys == ys;
    } else {
      assert (xs + ys)[1..] == xs[1..] + ys;
      TotalSizeConcat(xs[1..], ys);
    }
  }

  /** Replacing, deleting or appending one entry moves the total exposure
      by exactly that entry's size. */
  lemma TotalSizeEdits(ps: seq<Position>, i: int, p: Position)
    requires 0 <= i < |ps|
    ensures TotalSize(ps[i := p]) == TotalSize(ps) - Abs(ps[i].size) + Abs(p.size)
    ensures TotalSize(Without(ps, i)) == TotalSize(ps) - Abs(ps[i].size)
  {
    assert ps == ps[..i] + ([ps[i]] + ps[i + 1..]);
    assert ps[i := p] == ps[..i] + ([p] + ps[i + 1..]);
    TotalSizeConcat(ps[..i], [ps[i]] + ps[i + 1..]);
    TotalSizeConcat([ps[i]], ps[i + 1..]);
    TotalSizeConcat(ps[..i], [p] + ps[i + 1..]);
    TotalSizeConcat([p], ps[i + 1..]);
    TotalSizeConcat(ps[..i], ps[i + 1..]);
  }

  lemma TotalSizeAppend(ps: seq<Position>, p: Position)
    ensures TotalSize(ps + [p]) == TotalSize(ps) + Abs(p.size)
  {
    TotalSizeConcat(ps, [p]);
  }

  /** Opening adds at most the new size to the total exposure. */
  lemma OpenExposure(a: Account, symbol: string, side: string, size: real, price: real, now: real)
    ensures TotalSize(Open(a, symbol, side, size, price, now).positions) <= TotalSize(a.positions) + Abs(size)
  {
    var p := Position(symbol, side, size, price, price, 0.0, now);
    var i := Find(a.positions, symbol);
    if i < 0 {
      TotalSizeAppend(a.positions, p);
    } else {
      TotalSizeEdits(a.positions, i, p);
    }
  }

  /** Executing an order of size q >= 0 raises the total exposure by at
      most q: same-side adds grow by q, partial reductions shrink, and a
      reverse removes the held size before opening q. */
  lemma UpdateExposure(a: Account, symbol: string, side: string, q: real, price: real, now: real)
    requires q >= 0.0 && Update(a, symbol, side, q, price, now).Success?
    ensures TotalSize(Update(a, symbol, side, q, price, now).value.positions) <= TotalSize(a.positions) + q
  {
    var i := Find(a.positions, symbol);
    var u := Update(a, symbol, side, q, price, now).value;
    if i < 0 {
      assert u == Open(a, symbol, side, q, price, now);
      OpenExposure(a, symbol, side, q, price, now);
    } else {
      var p := a.positions[i];
      if p.side == side {
        assert u.positions == a.positions[i := AddTo(p, q, price)];
        AddExposure(a.positions, i, q, price);
      } else if q >= p.size {
        var closed := Close(a, symbol, p.size, price, now);
        assert u == if q > 0.0 then Open(closed, symbol, side, q, price, now) else closed;
        ReverseExposure(a, i, symbol, side, q, price, now);
      } else {
        assert u == Close(a, symbol, q, price, now);
        assert u.positions == a.positions[i := p.(size := p.size - q)];
        TotalSizeEdits(a.positions, i, p.(size := p.size - q));
      }
    }
  }

  /** A same-side add grows the total by at most the added size. */
  lemma AddExposure(ps: seq<Position>, i: int, q: real, price: real)
    requires 0 <= i < |ps| && q >= 0.0 && ps[i].size + q != 0.0
    ensures TotalSize(ps[i := AddTo(ps[i], q, price)]) <= TotalSize(ps) + q
  {
    TotalSizeEdits(ps, i, AddTo(ps[i], q, price));
  }

  /** A reverse removes the held entry before opening the new one. */
  lemma ReverseExposure(a: Account, i: int, symbol: string, side: string, q: real, price: real, now: real)
    requires 0 <= i < |a.positions| && i == Find(a.positions, symbol) && q >= 0.0
    ensures var closed := Close(a, symbol, a.positions[i].size, price, now);
            TotalSize((if q > 0.0 then Open(closed, symbol, side, q, price, now) else closed).positions) <=
              TotalSize(a.positions) + q
  {
    var p := a.positions[i];
    var closed := Close(a, symbol, p.size, price, now);
    TotalSizeEdits(a.positions, i, p);
    assert closed.positions == Without(a.positions, i);
    if q > 0.0 {
      OpenExposure(closed, symbol, side, q, price, now);
    }
  }

  /** The risk check's promise: an order it admits, once executed, leaves
      the total held size within `max_position_size`. */
  lemma RiskCheckBoundsExposure(a: Account, config: StrategyConfig, maxDailyLoss: real,
                                symbol: string, side: string, q: real, price: real, now: real)
    requires Admissible(a, config, maxDailyLoss, q) && q >= 0.0
    requires Update(a, symbol, side, q, price, now).Success?
    ensures TotalSize(Update(a, symbol, side, q, price, now).value.positions) <= config.maxPositionSize
  {
    UpdateExposure(a, symbol, side, q, price, now);
  }

  /** With trading enabled and room under the position limit, the check as
      written raises instead of answering; for instance on a fresh account
      with the default limit and the strategies' 0.1 order. */
  lemma RiskCheckAsWrittenRaises(a: Account, config: StrategyConfig, quantity: real)
    ensures config.enableTrading && TotalSize(a.positions) + quantity <= config.maxPositionSize ==>
              AdmissibleAsWritten(a, config, quantity).Failure?
    ensures AdmissibleAsWritten(EmptyAccount, DefaultConfig.(enableTrading := true), 0.1).Failure?
    ensures AdmissibleAsWritten(a, config, quantity).Success? ==>
              AdmissibleAsWritten(a, config, quantity).value == false
  {
  }

  /** The corrected check refuses exactly when trading is off, the order
      would pass the position limit, or the day's loss is beyond its limit;
      and it answers the same as the source wherever the source answers. */
  lemma RiskCheckAgreesWhereDefined(a: Account, config: StrategyConfig, maxDailyLoss: real, quantity: real)
    ensures AdmissibleAsWritten(a, config, quantity).Success? ==>
              Admissible(a, config, maxDailyLoss, quantity) == AdmissibleAsWritten(a, config, quantity).value
    ensures !Admissible(a, config, maxDailyLoss, quantity) <==>
              !config.enableTrading || TotalSize(a.positions) + quantity > config.maxPositionSize ||
              a.totalPnl < -maxDailyLoss
  {
  }

  lemma KeyedReplace(ps: seq<Position>, i: int, p: Position)
    requires Keyed(ps) && 0 <= i < |ps| && p.symbol == ps[i].symbol
    ensures Keyed(ps[i := p])
  {
  }

  lemma KeyedWithout(ps: seq<Position>, i: int)
    requires Keyed(ps) && 0 <= i < |ps|
    ensures Keyed(Without(ps, i))
  {
    var w := Without(ps, i);
    forall x, y | 0 <= x < y < |w|
      ensures w[x].symbol != w[y].symbol
    {
      var x' := if x < i then x else x + 1;
      var y' := if y < i then y else y + 1;
      assert w[x] == ps[x'] && w[y] == ps[y'];
    }
  }

  lemma WinsAppend(ts: seq<Trade>, t: Trade)
    ensures Wins(ts + [t]) == Wins(ts) + (if t.pnl > 0.0 then 1 else 0)
    ensures SumPnl(ts + [t]) == SumPnl(ts) + t.pnl
    ensures SumGains(ts + [t]) == SumGains(ts) + (if t.pnl > 0.0 then t.pnl else 0.0)
    ensures SumLosses(ts + [t]) == SumLosses(ts) + (if t.pnl < 0.0 then t.pnl else 0.0)
  {
    assert (ts + [t])[..|ts|] == ts;
  }

  lemma OpenKeepsLedger(a: Account, symbol: string, side: string, size: real, price: real, now: real)
    requires Ledger(a)
    ensures Ledger(Open(a, symbol, side, size, price, now))
    ensures Open(a, symbol, side, size, price, now).trades == a.trades
  {
    var i := Find(a.positions, symbol);
    var p := Position(symbol, side, size, price, price, 0.0, now);
    if i >= 0 {
      KeyedReplace(a.positions, i, p);
    } else {
      assert forall k :: 0 <= k < |a.positions| ==> (a.positions + [p])[k] == a.positions[k];
    }
  }

  /** Closing a held position logs exactly one trade and moves exactly one
      of the winning and losing counters, so the counters keep agreeing
      with the log; closing an absent symbol changes nothing. */
  lemma CloseKeepsLedger(a: Account, symbol: string, size: real, price: real, now: real)
    requires Ledger(a)
    ensures var r := Close(a, symbol, size, price, now);
            Ledger(r) && r.winningTrades + r.losingTrades == r.totalTrades
    ensures Find(a.positions, symbol) < 0 ==> Close(a, symbol, size, price, now) == a
    ensures Find(a.positions, symbol) >= 0 ==>
              var p := a.positions[Find(a.positions, symbol)];
              var r := Close(a, symbol, size, price, now);
              |r.trades| == |a.trades| + 1 && r.trades[|a.trades|].pnl == Pnl(p.side, p.entryPrice, price, size) &&
              r.totalPnl == a.totalPnl + Pnl(p.side, p.entryPrice, price, size)
  {
    var i := Find(a.positions, symbol);
    if i >= 0 {
      var p := a.positions[i];
      var pnl := Pnl(p.side, p.entryPrice, price, size);
      WinsAppend(a.trades, Trade(symbol, p.side, size, price, now, pnl));
      if p.size - size <= 0.0 {
        KeyedWithout(a.positions, i);
      } else {
        KeyedReplace(a.positions, i, p.(size := p.size - size));
      }
    }
  }

  /** Every successful update keeps the counters in step with the log and
      one entry per symbol. */
  lemma UpdateKeepsLedger(a: Account, symbol: string, side: string, size: real, price: real, now: real)
    requires Ledger(a) && Update(a, symbol, side, size, price, now).Success?
    ensures Ledger(Update(a, symbol, side, size, price, now).value)
  {
    var i := Find(a.positions, symbol);
    if i < 0 {
      OpenKeepsLedger(a, symbol, side, size, price, now);
    } else {
      var p := a.positions[i];
      if p.side == side {
        KeyedReplace(a.positions, i, AddTo(p, size, price));
      } else if size >= p.size {
        CloseKeepsLedger(a, symbol, p.size, price, now);
        OpenKeepsLedger(Close(a, symbol, p.size, price, now), symbol, side, size, price, now);
      } else {
        CloseKeepsLedger(a, symbol, size, price, now);
      }
    }
  }

  /** What the plain branches of `update_position` do to the symbol's
      entry: a new symbol is appended, a same-side add sums the sizes at the
      size-weighted entry price (raising when they cancel), and a smaller
      opposite-side update is a partial close. */
  lemma UpdateSpec(a: Account, symbol: string, side: string, size: real, price: real, now: real)
    ensures var i := Find(a.positions, symbol);
            var r := Update(a, symbol, side, size, price, now);
            (i < 0 ==> r.Success? &&
                       r.value.positions == a.positions + [Position(symbol, side, size, price, price, 0.0, now)] &&
                       r.value.trades == a.trades) &&
            (i >= 0 && a.positions[i].side == side ==>
               (r.Failure? <==> a.positions[i].size + size == 0.0) &&
               (r.Success? ==> r.value.trades == a.trades && |r.value.positions| == |a.positions| &&
                               r.value.positions[i].size == a.positions[i].size + size &&
                               r.value.positions[i].entryPrice * r.value.positions[i].size ==
                                 a.positions[i].entryPrice * a.positions[i].size + price * size)) &&
            (i >= 0 && a.positions[i].side != side && size < a.positions[i].size ==>
               r == Success(Close(a, symbol, size, price, now)) &&
               r.value.positions[i].size == a.positions[i].size - size)
  {
  }

  /** The reverse quirk: an opposite-side update of at least the held size
      books one trade for the whole held size and leaves a position of the
      new side holding the full requested size (not the excess over the
      held size). */
  lemma UpdateReverseReopensFullSize(a: Account, symbol: string, side: string, size: real, price: real, now: real)
    requires Keyed(a.positions)
    requires Find(a.positions, symbol) >= 0
    requires a.positions[Find(a.positions, symbol)].side != side
    requires size >= a.positions[Find(a.positions, symbol)].size && size > 0.0
    ensures var held := a.positions[Find(a.positions, symbol)];
            var r := Update(a, symbol, side, size, price, now);
            r.Success? && |r.value.trades| == |a.trades| + 1 && r.value.trades[|a.trades|].size == held.size &&
            var j := Find(r.value.positions, symbol);
            j >= 0 && r.value.positions[j].side == side && r.value.positions[j].size == size &&
            r.value.positions[j].entryPrice == price
  {
    var i := Find(a.positions, symbol);
    var p := a.positions[i];
    var closed := Close(a, symbol, p.size, price, now);
    assert closed.positions == Without(a.positions, i);
    KeyedWithout(a.positions, i);
    var np := Position(symbol, side, size, price, price, 0.0, now);
    var r := Open(closed, symbol, side, size, price, now);
    var j := Find(closed.positions, symbol);
    if j < 0 {
      assert r.positions == closed.positions + [np];
      FindFirst(r.positions, symbol, |closed.positions|);
    } else {
      KeyedReplace(closed.positions, j, np);
      FindFirst(r.positions, symbol, j);
    }
  }

  /** Lookup finds the first entry with the symbol. */
  lemma {:induction false} FindFirst(ps: seq<Position>, symbol: string, k: int)
    requires 0 <= k < |ps| && ps[k].symbol == symbol
    requires forall k' :: 0 <= k' < k ==> ps[k'].symbol != symbol
    ensures Find(ps, symbol) == k
  {
    if k > 0 {
      FindFirst(ps[1..], symbol, k - 1);
    }
  }

  /** Marking to market never lowers the equity high or the maximum
      drawdown, never touches the log or the counters, and keeps the table
      keyed. */
  lemma {:induction false} MarkAllMonotone(a: Account, prices: seq<(string, real)>)
    ensures var r := MarkAll(a, prices);
            r.peakEquity >= a.peakEquity && r.maxDrawdown >= a.maxDrawdown &&
            r.trades == a.trades && r.totalTrades == a.totalTrades && r.totalPnl == a.totalPnl &&
            r.winningTrades == a.winningTrades && r.losingTrades == a.losingTrades &&
            |r.positions| == |a.positions| &&
            (forall k :: 0 <= k < |a.positions| ==> r.positions[k].symbol == a.positions[k].symbol)
    ensures Ledger(a) ==> Ledger(MarkAll(a, prices))
  {
    if |prices| > 0 {
      var init := prices[..|prices| - 1];
      MarkAllMonotone(a, init);
      var m := MarkAll(a, init);
      var i := Find(m.positions, prices[|prices| - 1].0);
      if i >= 0 && Ledger(a) {
        var p := m.positions[i];
        KeyedReplace(m.positions, i, Marked(p, prices[|prices| - 1].1));
      }
    }
  }

  lemma {:induction false} GainsAndLosses(ts: seq<Trade>)
    ensures SumGains(ts) >= 0.0 && SumLosses(ts) <= 0.0
    ensures Wins(ts) <= |ts|
    ensures Wins(ts) > 0 ==> SumGains(ts) > 0.0
  {
    if |ts| > 0 {
      GainsAndLosses(ts[..|ts| - 1]);
    }
  }

  lemma Fraction(w: real, t: real)
    requires 0.0 <= w <= t && t > 0.0
    ensures 0.0 <= w / t <= 1.0
  {
  }

  lemma Quotients(x: real, n: real)
    requires n > 0.0
    ensures x > 0.0 ==> x / n > 0.0
    ensures x >= 0.0 ==> x / n >= 0.0
    ensures x <= 0.0 ==> x / n <= 0.0
  {
  }

  /** The figures `get_performance_stats` derives from consistent
      counters: a win rate within [0, 1], a positive average win, a
      non-positive average loss. */
  lemma StatsBounds(a: Account)
    ensures Ledger(a) && a.totalTrades > 0 ==> 0.0 <= (a.winningTrades as real) / (a.totalTrades as real) <= 1.0
    ensures Ledger(a) && a.winningTrades > 0 ==> SumGains(a.trades) / (a.winningTrades as real) > 0.0
    ensures Ledger(a) && a.losingTrades > 0 ==> SumLosses(a.trades) / (a.losingTrades as real) <= 0.0
  {
    GainsAndLosses(a.trades);
    if Ledger(a) && a.totalTrades > 0 {
      Fraction(a.winningTrades as real, a.totalTrades as real);
    }
    if Ledger(a) && a.winningTrades > 0 {
      Quotients(SumGains(a.trades), a.winningTrades as real);
    }
    if Ledger(a) && a.losingTrades > 0 {
      Quotients(SumLosses(a.trades), a.losingTrades as real);
    }
  }

  /** `get_performance_stats` (the running time aside). */
  datatype Stats = Stats(totalTrades: int, winningTrades: int, losingTrades: int, winRate: real,
                         totalPnl: real, avgWin: real, avgLoss: real, maxDrawdown: real,
                         currentPositions: nat, runningTime: real)

  class StrategyBase {
    var config: StrategyConfig
    var maxDailyLoss: real
    var positions: seq<Position>
    var trades: seq<Trade>
    var isRunning: bool
    var startTime: Option<real>
    var totalTrades: int
    var winningTrades: int
    var losingTrades: int
    var totalPnl: real
    var maxDrawdown: real
    var peakEquity: real

    /** The account the fields make up. */
    function State(): Account
      reads this
    {
      Account(positions, trades, totalTrades, winningTrades, losingTrades, totalPnl, maxDrawdown, peakEquity)
    }

    /** A new strategy is running (the source sets the flag true at
        construction) with an empty account. */
    constructor (config: StrategyConfig, maxDailyLoss: real)
      ensures this.config == config && this.maxDailyLoss == maxDailyLoss
      ensures State() == EmptyAccount && Ledger(State()) && isRunning && startTime.None?
    {
      this.config := config;
      this.maxDailyLoss := maxDailyLoss;
      positions := [];
      trades := [];
      isRunning := true;
      startTime := None;
      totalTrades := 0;
      winningTrades := 0;
      losingTrades := 0;
      totalPnl := 0.0;
      maxDrawdown := 0.0;
      peakEquity := 0.0;
    }

    method Start(now: real)
      modifies this`isRunning, this`startTime
      ensures isRunning && startTime == Some(now)
    {
      isRunning := true;
      startTime := Some(now);
    }

    /** `stop` and `pause` both clear the running flag. */
    method Stop()
      modifies this`isRunning
      ensures !isRunning
    {
      isRunning := false;
    }

    method Pause()
      modifies this`isRunning
      ensures !isRunning
    {
      isRunning := false;
    }

    method Resume()
      modifies this`isRunning
      ensures isRunning
    {
      isRunning := true;
    }

    method OpenPosition(symbol: string, side: string, size: real, price: real, now: real)
      modifies this`positions
      ensures State() == Open(old(State()), symbol, side, size, price, now)
    {
      var p := Position(symbol, side, size, price, price, 0.0, now);
      var i := Find(positions, symbol);
      if i < 0 {
        positions := positions + [p];
      } else {
        positions := positions[i := p];
      }
    }

    method ClosePosition(symbol: string, size: real, price: real, now: real)
      modifies this`positions, this`trades, this`totalTrades, this`winningTrades,
               this`losingTrades, this`totalPnl
      ensures State() == Close(old(State()), symbol, size, price, now)
    {
      var i := Find(positions, symbol);
      if i < 0 {
        return;
      }
      var p := positions[i];
      var pnl := Pnl(p.side, p.entryPrice, price, size);
      trades := trades + [Trade(symbol, p.side, size, price, now, pnl)];
      totalTrades := totalTrades + 1;
      totalPnl := totalPnl + pnl;
      if pnl > 0.0 {
        winningTrades := winningTrades + 1;
      } else {
        losingTrades := losingTrades + 1;
      }
      var left := p.size - size;
      if left <= 0.0 {
        positions := Without(positions, i);
      } else {
        positions := positions[i := p.(size := left)];
      }
    }

    /** `update_position`; `raised` reports the ZeroDivisionError of a
        same-side add totalling 0, which leaves everything as it was. */
    method UpdatePosition(symbol: string, side: string, size: real, price: real, now: real)
      returns (raised: bool)
      modifies this`positions, this`trades, this`totalTrades, this`winningTrades,
               this`losingTrades, this`totalPnl
      ensures raised <==> Update(old(State()), symbol, side, size, price, now).Failure?
      ensures raised ==> State() == old(State())
      ensures !raised ==> State() == Update(old(State()), symbol, side, size, price, now).value
    {
      var i := Find(positions, symbol);
      if i < 0 {
        OpenPosition(symbol, side, size, price, now);
        return false;
      }
      var p := positions[i];
      if p.side == side {
        if p.size + size == 0.0 {
          return true;
        }
        positions := positions[i := AddTo(p, size, price)];
        return false;
      }
      Reverse(symbol, side, size, price, now);
      raised := false;
    }

    /** The opposite-side branch of `update_position`: a full close followed
        by a reopen of the requested size, or a partial close. */
    method Reverse(symbol: string, side: string, size: real, price: real, now: real)
      requires Find(positions, symbol) >= 0 && positions[Find(positions, symbol)].side != side
      modifies this`positions, this`trades, this`totalTrades, this`winningTrades,
               this`losingTrades, this`totalPnl
      ensures Update(old(State()), symbol, side, size, price, now).Success?
      ensures State() == Update(old(State()), symbol, side, size, price, now).value
    {
      var held := positions[Find(positions, symbol)].size;
      if size >= held {
        ClosePosition(symbol, held, price, now);
        if size > 0.0 {
          OpenPosition(symbol, side, size, price, now);
        }
      } else {
        ClosePosition(symbol, size, price, now);
      }
    }

    /** `update_market_prices`: each item of the price dictionary in turn. */
    method UpdateMarketPrices(prices: seq<(string, real)>)
      modifies this`positions, this`maxDrawdown, this`peakEquity
      ensures State() == MarkAll(old(State()), prices)
    {
      var k := 0;
      while k < |prices|
        invariant 0 <= k <= |prices|
        invariant State() == MarkAll(old(State()), prices[..k])
      {
        assert prices[..k + 1][..k] == prices[..k];
        MarkPrice(prices[k].0, prices[k].1);
        k := k + 1;
      }
      assert prices[..k] == prices;
    }

    /** One item of `update_market_prices`: the symbol's position, if any,
        is marked, then the peak equity or the drawdown is updated. */
    method MarkPrice(symbol: string, price: real)
      modifies this`positions, this`maxDrawdown, this`peakEquity
      ensures State() == Mark(old(State()), symbol, price)
    {
      var i := Find(positions, symbol);
      if i >= 0 {
        var p := positions[i];
        positions := positions[i := Marked(p, price)];
        var equity := totalPnl + SumUnrealized(positions);
        if equity > peakEquity {
          peakEquity := equity;
        } else {
          var dd := if peakEquity > 0.0 then (peakEquity - equity) / peakEquity else 0.0;
          if dd > maxDrawdown {
            maxDrawdown := dd;
          }
        }
      }
    }

    /** The win rate is a fraction of the trades (0 with none), the average
        win is positive and the average loss never positive, whenever the
        counters agree with the log. */
    function GetPerformanceStats(now: real): (r: Stats)
      reads this
      ensures r.totalTrades == totalTrades && r.totalPnl == totalPnl && r.maxDrawdown == maxDrawdown
      ensures r.currentPositions == |positions|
      ensures totalTrades <= 0 ==> r.winRate == 0.0
      ensures Ledger(State()) ==> 0.0 <= r.winRate <= 1.0 && r.avgWin >= 0.0 && r.avgLoss <= 0.0 &&
                                  (winningTrades > 0 ==> r.avgWin > 0.0) &&
                                  r.winningTrades + r.losingTrades == r.totalTrades
    {
      StatsBounds(State());
      var winRate := if totalTrades > 0 then (winningTrades as real) / (totalTrades as real) else 0.0;
      var avgWin := if winningTrades > 0 then SumGains(trades) / (winningTrades as real) else 0.0;
      var avgLoss := if losingTrades > 0 then SumLosses(trades) / (losingTrades as real) else 0.0;
      var running := if startTime.Some? && startTime.value != 0.0 then now - startTime.value else 0.0;
      Stats(totalTrades, winningTrades, losingTrades, winRate, totalPnl, avgWin, avgLoss, maxDrawdown,
            |positions|, running)
    }

    /** `risk_check` as the source writes it. */
    function RiskCheckAsWritten(quantity: real): (r: Result<bool>)
      reads this
      ensures r.Success? ==> !r.value
      ensures r.Failure? <==> config.enableTrading && TotalSize(positions) + quantity <= config.maxPositionSize
    {
      AdmissibleAsWritten(State(), config, quantity)
    }

    /** `risk_check` against the daily-loss limit it evidently means. */
    function RiskCheck(quantity: real): (r: bool)
      reads this
      ensures r ==> config.enableTrading && TotalSize(positions) + quantity <= config.maxPositionSize
    {
      Admissible(State(), config, maxDailyLoss, quantity)
    }
  }
}
