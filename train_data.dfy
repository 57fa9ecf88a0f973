/**
 * The record shapes the optimizer reads and produces (lib/mockData.ts) and the
 * fixed train registry that the dashboard feeds to it.
 */
module TrainData {

  /** Scheduling precedence: 1 is the most privileged service, 5 is freight. */
  type Priority = p: int | 1 <= p <= 5 witness 1

  /**
   * One scheduled service, restricted to the fields the optimizer reads.
   * The source's optional `currentDelay` is always read as `currentDelay || 0`,
   * so an absent delay is represented here by 0.
   */
  datatype Train = Train(
    id: string,
    number: string,
    name: string,
    priority: Priority,
    currentDelay: nat)

  /** The three recommendations a train can receive. */
  datatype Action = Proceed | Hold5Min | PriorityClearance

  /** The optimizer's verdict for one train. */
  datatype Recommendation = Recommendation(
    trainId: string,
    trainName: string,
    action: Action,
    expectedDelay: nat,
    trainScore: nat)

  /**
   * The throughput score is a JavaScript number: a non-negative integer after
   * rounding, or NaN when the mean is taken over no trains (0 / 0).
   */
  datatype Throughput = Finite(value: nat) | NotANumber

  /** The aggregate output of one optimization run. */
  datatype OptimizationResult = OptimizationResult(
    recommendations: seq<Recommendation>,
    throughputScore: Throughput)

  /** True when no two trains of `s` share an identifier. */
  predicate DistinctIds(s: seq<Train>)
  {
    forall i, j :: 0 <= i < j < |s| ==> s[i].id != s[j].id
  }

  // The five trains of the registry.
  const Rajdhani := Train("12301", "12301", "Rajdhani Express", 1, 0)
  const Doon := Train("13010", "13010", "Doon Express", 2, 5)
  const Kanchanjunga := Train("15659", "15659", "Kanchanjunga Express", 2, 2)
  const Memu := Train("63501", "63501", "Local MEMU", 4, 0)
  const Freight := Train("15959", "15959", "Coal Freight", 5, 15)

  /** The constant registry of five trains. */
  function Registry(): (r: seq<Train>)
    ensures |r| == 5
    ensures DistinctIds(r)
    ensures forall i :: 0 <= i < |r| ==> r[i].id == r[i].number
  {
    [Rajdhani, Doon, Kanchanjunga, Memu, Freight]
  }
}
