// The strategy engine state machine of src/strategy/strategy_engine.cpp
// (src/strategy/strategy_engine_impl.cpp:18-87 holds the same class text).
module Engine {
  import opened Wrappers
  import opened Books
  import opened Trading

  /** Identity of the strategy object the engine holds (`shared_ptr<IStrategy>`). */
  type StrategyId = nat

  class StrategyEngine {
    var strategy: Option<StrategyId>
    var initialized: bool
    var status: StrategyStatus
    /** Every book handed on to a strategy, with the strategy it went to. */
    ghost var forwarded: seq<(StrategyId, OrderBook)>

    /** The engine only runs once initialized: `start` checks the flag and
        `cleanup` stops before clearing it. */
    ghost predicate Valid()
      reads this
    {
      status == Running ==> initialized
    }

    constructor ()
      ensures Valid()
      ensures strategy == None && !initialized && status == Stopped && forwarded == []
    {
      strategy := None;
      initialized := false;
      status := Stopped;
      forwarded := [];
    }

    method Initialize() returns (ok: bool)
      requires Valid()
      modifies this
      ensures Valid() && ok && initialized
      ensures status == old(status) && strategy == old(strategy) && forwarded == old(forwarded)
    {
      initialized := true;
      ok := true;
    }

    /** Stops a non-stopped engine, then clears the initialized flag. The
        source calls `stop()` while already holding the engine mutex, which
        deadlocks; here the calls run one after the other. */
    method Cleanup()
      requires Valid()
      modifies this
      ensures Valid() && status == Stopped && !initialized
      ensures strategy == old(strategy) && forwarded == old(forwarded)
    {
      if status != Stopped {
        Stop();
      }
      initialized := false;
    }

    /** Replaces the held strategy; the status is left alone and neither
        strategy is initialised or cleaned up. */
    method SetStrategy(s: Option<StrategyId>)
      requires Valid()
      modifies this
      ensures Valid() && strategy == s
      ensures status == old(status) && initialized == old(initialized) && forwarded == old(forwarded)
    {
      strategy := s;
    }

    /** RUNNING iff initialized and a strategy is held; otherwise no change. */
    method Start()
      requires Valid()
      modifies this
      ensures Valid()
      ensures old(initialized && strategy.Some?) ==> status == Running
      ensures !old(initialized && strategy.Some?) ==> status == old(status)
      ensures strategy == old(strategy) && initialized == old(initialized) && forwarded == old(forwarded)
    {
      if !initialized {
        return;
      }
      if strategy.None? {
        return;
      }
      status := Running;
    }

    /** STOPPED from any state. */
    method Stop()
      requires Valid()
      modifies this
      ensures Valid() && status == Stopped
      ensures strategy == old(strategy) && initialized == old(initialized) && forwarded == old(forwarded)
    {
      status := Stopped;
    }

    /** PAUSED from any state. */
    method Pause()
      requires Valid()
      modifies this
      ensures Valid() && status == Paused
      ensures strategy == old(strategy) && initialized == old(initialized) && forwarded == old(forwarded)
    {
      status := Paused;
    }

    function GetStatus(): (r: StrategyStatus)
      reads this
      ensures r == status
    {
      status
    }

    /** Hands the book to the strategy iff RUNNING with a strategy held; the
        strategy's signal is discarded and nothing of the engine changes. */
    method ProcessMarketData(book: OrderBook)
      requires Valid()
      modifies this
      ensures Valid()
      ensures status == old(status) && strategy == old(strategy) && initialized == old(initialized)
      ensures status == Running && strategy.Some? ==> forwarded == old(forwarded) + [(strategy.value, book)]
      ensures !(status == Running && strategy.Some?) ==> forwarded == old(forwarded)
    {
      if status == Running && strategy.Some? {
        forwarded := forwarded + [(strategy.value, book)];
      }
    }
  }
}
