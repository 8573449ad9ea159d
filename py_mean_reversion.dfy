// `MeanReversionStrategy` of strategies/mean_reversion_strategy.py: a
// per-symbol-name history of up to 100 mid-prices and a z-score signal over
// the whole history, executed through the base class's position table.
module PyMeanReversion {
  import opened Wrappers
  import opened Books
  import opened RealArith
  import opened Windows
  import opened Symbols
  import opened PyStrategyBase

  const MaxHistory: nat := 100
  const MinPrices: nat := 20
  const ZThreshold: real := 2.0
  const PositionSize: real := 0.1

  /** A symbol's history, empty before its first tick. */
  function Held(history: map<string, seq<real>>, symbol: string): seq<real> {
    if symbol in history then history[symbol] else []
  }

  /** `generate_signal`. With at least 20 prices, the mean m and the
      population deviation sum v over the whole history, and d = mid − m,
      the z-score is d / sqrt(v/n): 'sell' at the best bid above the
      threshold, 'buy' at the best ask below minus it, nothing for a zero
      deviation. Reading level 0 of an empty side raises IndexError. */
  function GenerateSignal(history: map<string, seq<real>>, book: PyBook): (r: Result<Option<PySignal>>)
    ensures |Held(history, PySymbolName(book.symbol))| < MinPrices ==> r == Success(None)
    ensures r.Failure? <==> |Held(history, PySymbolName(book.symbol))| >= MinPrices &&
                            (|book.bids| == 0 || |book.asks| == 0)
    ensures r.Success? && r.value.Some? ==>
              var s := r.value.value;
              s.symbol == PySymbolName(book.symbol) && s.quantity == PositionSize && s.confidence == 1.0 &&
              ((s.kind == "sell" && s.price == book.bids[0].price) || (s.kind == "buy" && s.price == book.asks[0].price))
  {
    var symbol := PySymbolName(book.symbol);
    if symbol !in history || |history[symbol]| < MinPrices then Success(None)
    else if |book.bids| == 0 || |book.asks| == 0 then Failure(IndexError)
    else
      var prices := history[symbol];
      var n := |prices| as real;
      var mean := Sum(prices) / n;
      var v := SqDev(prices, mean);
      var d := Mid(book) - mean;
      if v == 0.0 then Success(None)
      else if ZAbove(d, v, n, ZThreshold) then Success(Some(PySignal("sell", symbol, book.bids[0].price, PositionSize, 1.0)))
      else if ZAbove(-d, v, n, ZThreshold) then Success(Some(PySignal("buy", symbol, book.asks[0].price, PositionSize, 1.0)))
      else Success(None)
  }

  /** The signal is the source's z-score test: for the history's standard
      deviation sigma (n·sigma² = v), 'sell' iff z > 2, 'buy' iff z < −2,
      and the confidence min(|z|/2, 1) it reports is exactly 1. */
  lemma SignalIsZScoreTest(history: map<string, seq<real>>, book: PyBook, sigma: real)
    requires PySymbolName(book.symbol) in history
    requires |history[PySymbolName(book.symbol)]| >= MinPrices && |book.bids| > 0 && |book.asks| > 0
    requires sigma > 0.0
    requires var prices := history[PySymbolName(book.symbol)];
             Mul(|prices| as real, Sq(sigma)) == SqDev(prices, Sum(prices) / |prices| as real)
    ensures var prices := history[PySymbolName(book.symbol)];
            var z := (Mid(book) - Sum(prices) / |prices| as real) / sigma;
            var r := GenerateSignal(history, book);
            r.Success? &&
            (r.value.Some? && r.value.value.kind == "sell" <==> z > ZThreshold) &&
            (r.value.Some? && r.value.value.kind == "buy" <==> z < -ZThreshold) &&
            (r.value.Some? ==> r.value.value.confidence == ClampOne(Abs(z) / ZThreshold))
  {
    var prices := history[PySymbolName(book.symbol)];
    var n := |prices| as real;
    var mean := Sum(prices) / n;
    var v := SqDev(prices, mean);
    var d := Mid(book) - mean;
    ZAboveIsZScore(d, v, n, ZThreshold, sigma);
    ZAboveIsZScore(-d, v, n, ZThreshold, sigma);
    assert (-d) / sigma == -(d / sigma);
    MulPositive(n, Sq(sigma)) by { SquareSign(sigma); }
  }

  /** A history of equal prices has zero deviation and gives no signal. */
  lemma ConstantHistoryNoSignal(history: map<string, seq<real>>, book: PyBook, c: real)
    requires PySymbolName(book.symbol) in history
    requires |history[PySymbolName(book.symbol)]| >= MinPrices && |book.bids| > 0 && |book.asks| > 0
    requires Constant(history[PySymbolName(book.symbol)], c)
    ensures GenerateSignal(history, book) == Success(None)
  {
    var prices := history[PySymbolName(book.symbol)];
    MeanConstant(prices, c);
    SqDevConstant(prices, c);
  }

  class MeanReversionStrategy {
    const base: StrategyBase
    var priceHistory: map<string, seq<real>>

    ghost predicate Valid()
      reads this
    {
      forall s :: s in priceHistory ==> |priceHistory[s]| <= MaxHistory
    }

    constructor (config: StrategyConfig, maxDailyLoss: real)
      ensures fresh(base) && Valid() && priceHistory == map[]
      ensures base.State() == EmptyAccount && base.isRunning && base.config == config &&
              base.maxDailyLoss == maxDailyLoss
    {
      base := new StrategyBase(config, maxDailyLoss);
      priceHistory := map[];
    }

    /** `_execute_signal`, gated as `on_market_data` gates it: the risk
        check first, then `update_position` with the signal's side, size
        and price. */
    method ExecuteIfAdmitted(signal: PySignal, now: real) returns (error: Option<string>)
      modifies base`positions, base`trades, base`totalTrades, base`winningTrades,
               base`losingTrades, base`totalPnl
      ensures var a := old(base.State());
              var u := Update(a, signal.symbol, signal.kind, signal.quantity, signal.price, now);
              if Admissible(a, base.config, base.maxDailyLoss, signal.quantity) then
                (error.Some? <==> u.Failure?) &&
                base.State() == (if u.Success? then u.value else a)
              else error.None? && base.State() == a
    {
      if !base.RiskCheck(signal.quantity) {
        return None;
      }
      var raised := base.UpdatePosition(signal.symbol, signal.kind, signal.quantity, signal.price, now);
      error := if raised then Some(ZeroDivision) else None;
    }

    /** The history half of `on_market_data`: the mid-price is appended to
        the symbol name's history, the oldest dropped past 100. */
    method PushMid(book: PyBook)
      requires Valid() && |book.bids| > 0 && |book.asks| > 0
      modifies this
      ensures Valid()
      ensures var symbol := PySymbolName(book.symbol);
              priceHistory == old(priceHistory)[symbol := Push(Held(old(priceHistory), symbol), Mid(book), MaxHistory)]
    {
      var symbol := PySymbolName(book.symbol);
      var midPrice := (book.bids[0].price + book.asks[0].price) / 2.0;
      var h := if symbol in priceHistory then priceHistory[symbol] else [];
      ghost var h0 := h;
      h := h + [midPrice];
      if |h| > MaxHistory {
        h := h[1..];
      }
      assert h == Push(h0, midPrice, MaxHistory);
      priceHistory := priceHistory[symbol := h];
    }

    /** The signal half of `on_market_data`: an admitted signal is
        executed, and nothing happens otherwise. */
    method ActOnSignal(signal: Result<Option<PySignal>>, now: real) returns (error: Option<string>)
      modifies base`positions, base`trades, base`totalTrades, base`winningTrades,
               base`losingTrades, base`totalPnl
      ensures var a := old(base.State());
              if signal.Success? && signal.value.Some? &&
                 Admissible(a, base.config, base.maxDailyLoss, signal.value.value.quantity) then
                var u := Update(a, signal.value.value.symbol, signal.value.value.kind,
                                signal.value.value.quantity, signal.value.value.price, now);
                (error.Some? <==> u.Failure?) && base.State() == (if u.Success? then u.value else a)
              else error.None? && base.State() == a
    {
      if signal.Success? && signal.value.Some? {
        error := ExecuteIfAdmitted(signal.value.value, now);
      } else {
        error := None;
      }
    }

    /** `on_market_data`: nothing while stopped; an IndexError (and no
        change) for a side with no visible level; otherwise the mid-price is
        pushed into the symbol name's history (oldest dropped past 100) and
        a signal over the new history is executed when the risk check
        admits it. `error` is the exception that escapes, if any. */
    method OnMarketData(book: PyBook, now: real) returns (error: Option<string>)
      requires Valid()
      modifies this, base`positions, base`trades, base`totalTrades, base`winningTrades,
               base`losingTrades, base`totalPnl
      ensures Valid()
      ensures !base.isRunning || |book.bids| == 0 || |book.asks| == 0 ==>
                priceHistory == old(priceHistory) && base.State() == old(base.State()) &&
                error == (if base.isRunning then Some(IndexError) else None)
      ensures base.isRunning && |book.bids| > 0 && |book.asks| > 0 ==>
                var symbol := PySymbolName(book.symbol);
                var a := old(base.State());
                priceHistory == old(priceHistory)[symbol := Push(Held(old(priceHistory), symbol), Mid(book), MaxHistory)] &&
                var s := GenerateSignal(priceHistory, book);
                s.Success? &&
                if s.value.Some? && Admissible(a, base.config, base.maxDailyLoss, s.value.value.quantity) then
                  var u := Update(a, symbol, s.value.value.kind, s.value.value.quantity, s.value.value.price, now);
                  (error.Some? <==> u.Failure?) && base.State() == (if u.Success? then u.value else a)
                else error.None? && base.State() == a
    {
      if !base.isRunning {
        return None;
      }
      if |book.bids| == 0 || |book.asks| == 0 {
        return Some(IndexError);
      }
      PushMid(book);
      var signal := GenerateSignal(priceHistory, book);
      error := ActOnSignal(signal, now);
    }
  }
}
