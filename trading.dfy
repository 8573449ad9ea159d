// The enums, parameter records and result record of include/crypto_quant.h.
module Trading {
  import opened Books

  /** `SignalType`. */
  datatype Signal = NoSignal | Buy | Sell | Hold

  /** `StrategyStatus`. */
  datatype StrategyStatus = Stopped | Running | Paused

  /** `ExecutionStatus`: the executor's connection state. */
  datatype ExecutionStatus = Idle | Connecting | Connected | Disconnected | Error

  /** `ExecutionResultStatus`. */
  datatype ResultStatus = Succeeded | Failed | Partial

  /** `ExecutionResult`. */
  datatype ExecutionResult = ExecutionResult(status: ResultStatus, orderId: u64,
                                             filledQuantity: real, averagePrice: real,
                                             errorMessage: string)

  /** The default-constructed result: FAILED, id 0, nothing filled. */
  const DefaultResult := ExecutionResult(Failed, 0, 0.0, 0.0, "")

  /** A FAILED result carrying only an error message. */
  function FailedWith(msg: string): (r: ExecutionResult)
    ensures r.status == Failed && r.errorMessage == msg
    ensures r.(errorMessage := "") == DefaultResult
  {
    DefaultResult.(errorMessage := msg)
  }

  /** `StrategyParams` (the fields the modelled strategies read). */
  datatype StrategyParams = StrategyParams(
    riskPerTrade: real, maxPositionSize: real,
    lookbackPeriod: int, zScoreThreshold: real, meanPeriod: int,
    shortPeriod: int, longPeriod: int, momentumThreshold: real,
    rsiPeriod: int, rsiOversold: real, rsiOverbought: real,
    bbPeriod: int, bbStdDev: real, gridSpacing: real, gridLevels: int)

  /** The default constructor's values. */
  const DefaultParams := StrategyParams(0.02, 1000.0, 20, 2.0, 20, 12, 26, 0.01,
                                        14, 30.0, 70.0, 20, 2.0, 0.001, 10)

  /** `RiskParams`. */
  datatype RiskParams = RiskParams(maxPositionSize: real, maxDailyLoss: real,
                                   maxOrderSize: real, maxOrdersPerMinute: int)

  const DefaultRisk := RiskParams(10000.0, 1000.0, 1000.0, 60)

  /** At most `limit` distinct ids drawn from `ids`, in an unspecified
      order: the walk over an unordered map that stops at `limit`. */
  method TakeIds(ids: set<u64>, limit: nat) returns (r: seq<u64>)
    ensures |r| == Min(limit, |ids|)
    ensures forall i :: 0 <= i < |r| ==> r[i] in ids
    ensures forall i, j :: 0 <= i < j < |r| ==> r[i] != r[j]
  {
    r := [];
    var remaining := ids;
    while |r| < limit && remaining != {}
      invariant remaining <= ids
      invariant |r| + |remaining| == |ids| && |r| <= limit
      invariant forall i :: 0 <= i < |r| ==> r[i] in ids && r[i] !in remaining
      invariant forall i, j :: 0 <= i < j < |r| ==> r[i] != r[j]
      decreases remaining
    {
      var id :| id in remaining;
      r := r + [id];
      remaining := remaining - {id};
    }
  }
}
