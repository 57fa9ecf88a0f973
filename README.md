# Train-scheduling optimizer, modelled in Dafny

The railway traffic-control dashboard has one piece of decision logic: an
optimizer that takes the list of trains of a run and returns, for each train,
a recommendation (PROCEED, HOLD_5_MIN or PRIORITY_CLEARANCE), an expected
delay and a score, together with a network throughput score. This project
models that optimizer and the fixed train registry the dashboard feeds it.

- `train_data.dfy`, module `TrainData`: the `Train`, `OptimizationRecommendation`
  and `OptimizationResult` records of `lib/mockData.ts`, and the five-train
  registry as a constant.
- `optimizer.dfy`, module `AiOptimizer`: `lib/aiOptimizer.ts`. It has four parts:
  - the score, a function;
  - the processing order: the comparator, plus the library sort modelled as a stable insertion sort;
  - `heuristicOptimization`, proved equal to the specification function `HeuristicResult`. It is three methods: `HeuristicOptimization` sorts and takes the mean, `ClassifyInOrder` is the `forEach` loop, and `ClassifyTrain` is the loop body with its if/else-if chain;
  - the "Simulated AI" perturbation and the mode dispatch.
- `registry_run.dfy`, module `RegistryRun`: the heuristic run on the registry,
  computed exactly, and worked examples (score, order, rule
  precedence, single-train mean).

Modelling decisions:

- `currentDelay` is a `nat`. The source reads it everywhere as
  `currentDelay || 0`, so an absent delay and a delay of 0 behave the same.
  Both are represented by 0.
- `priority` is the subset type `1..5`. `priority` is declared `1 | 2 | 3 | 4 | 5`
  in `lib/mockData.ts:27`. So every registry train has a priority in range, and
  every registry delay is non-negative, by typing.
- The action type is a datatype with exactly the three constructors of
  `lib/mockData.ts:38`.
- The heuristic result is a function of the input list alone, so equal inputs
  give equal outputs.
- `throughputScore` is `Finite(n)` or `NotANumber`. For an empty list the
  source divides 0 by 0 (`lib/aiOptimizer.ts:60`), and `Math.round(NaN)` is
  NaN. The model returns `NotANumber` instead of requiring a non-empty list.
- `Math.round(total / n)` is modelled on exact integers as
  `(2 * total + n) / (2 * n)`. `AiOptimizer.RoundedMeanIsMathRound` proves this
  equals `floor(total / n + 1/2)` over the reals.
- The randomness of the "Simulated AI" mode is a sequence of factors passed in,
  one per recommendation, each in `[-0.1, 0.1)`, the range of
  `Math.random() * 0.2 - 0.1`.

Behaviours of the code worth stating explicitly:

- The `OptimizationMode` type admits only two strings, but at run time every
  other string goes to the heuristic (`lib/aiOptimizer.ts:94-98`).
  `AiOptimizer.OptimizeSchedule` takes the mode as a string and does the same.
- The code has no guard for an empty list; 0 / 0 gives NaN and the model
  returns `NotANumber`.
- `Math.random()` lies in [0, 1), so the factor lies in `[-0.1, 0.1)`.

## Model

| member | source | states |
|---|---|---|
| `TrainData.Registry` | lib/mockData.ts:85-146 | The registry holds five trains with pairwise distinct ids, each id equal to the train number; priorities lie in 1..5 and delays are non-negative by type. |
| `AiOptimizer.TrainScore` | lib/aiOptimizer.ts:6-10 | The score lies in [0, 100] and is even. It never exceeds the priority weight 20·(6 − priority). It is 100 exactly for an on-time priority-1 train, and 0 exactly when the delay is at least 10·(6 − priority) minutes. |
| `AiOptimizer.ScoreLosesTwoPerMinute` | lib/aiOptimizer.ts:8-9 | One more minute of delay lowers the score by 2, floored at 0. |
| `AiOptimizer.PriorityLevelWorthTenMinutes` | lib/aiOptimizer.ts:7-9 | One step down in priority costs as much as ten extra minutes of delay. |
| `AiOptimizer.Compare` | lib/aiOptimizer.ts:18-24 | The comparator is ≤ 0 exactly when the first train has a lower priority number, or the same priority and no more delay. It is 0 exactly on equal (priority, delay). |
| `AiOptimizer.CompareIsAntisymmetric` | lib/aiOptimizer.ts:19-23 | Swapping the arguments negates the comparator, so the sort's comparator is consistent. |
| `AiOptimizer.Insert` | lib/aiOptimizer.ts:18-24 | One insertion step adds exactly the one train: the multiset grows by it. |
| `AiOptimizer.InsertKeepsSorted` | lib/aiOptimizer.ts:18-24 | Inserting into a sequence sorted by (priority, delay) keeps it sorted. |
| `AiOptimizer.SortByPriority` | lib/aiOptimizer.ts:18-24 | The processing order is a permutation of the input (same length, same multiset). It is non-decreasing lexicographically by (priority, delay) over every pair of positions. |
| `AiOptimizer.InsertKeepsTiedOrder` | lib/aiOptimizer.ts:18-24 | After inserting x, the trains with a given (priority, delay) are x, when x has that key, followed by those of the sequence in their old order. So x goes ahead of every train it ties with. |
| `AiOptimizer.SortIsStable` | lib/aiOptimizer.ts:18-24 | For any (priority, delay), the trains with that key appear in the processing order exactly as in the input. This is the stability of JavaScript's sort. |
| `AiOptimizer.SortKeepsIds` | lib/aiOptimizer.ts:18-24 | Sorting keeps the multiset of train ids unchanged. |
| `AiOptimizer.SumScores` | lib/aiOptimizer.ts:15 | The accumulated total of n scores is at most 100·n. |
| `AiOptimizer.SumScoresAppend` | lib/aiOptimizer.ts:55 | Adding one train's score to the accumulator gives the total of the longer prefix. |
| `AiOptimizer.SumScoresPrefix` | lib/aiOptimizer.ts:55 | After one more train is processed, the running total is the total of the longer prefix: the old total plus that train's score. |
| `AiOptimizer.SumScoresSort` | lib/aiOptimizer.ts:55 | The total score does not depend on the order in which the trains are processed. |
| `AiOptimizer.RoundedMean` | lib/aiOptimizer.ts:60 | The result is NaN exactly when there are no trains. Otherwise it is the integer nearest total/n, halves rounding up: 2n·r ≤ 2·total + n < 2n·r + 2n. It is at most 100 when the total is at most 100·n. |
| `AiOptimizer.RoundedMeanIsMathRound` | lib/aiOptimizer.ts:60 | The integer rounding equals `Math.round`, that is floor(x + 1/2), of the exact quotient total/n. |
| `AiOptimizer.RoundHalfUpMonotone` | lib/aiOptimizer.ts:74 | `Math.round` is monotone. |
| `AiOptimizer.Recommend` | lib/aiOptimizer.ts:26-53 | See the rule list below this table. |
| `AiOptimizer.HeuristicResult` | lib/aiOptimizer.ts:13-62 | There is one recommendation per input train; entry i is the classification of the i-th train in processing order, with index i and the full count. The throughput is the rounded mean of the input trains' scores. |
| `AiOptimizer.ClassifyTrain` | lib/aiOptimizer.ts:27-53 | The callback body's if/else-if chain produces exactly the recommendation `Recommend` specifies for that train, index and count. |
| `AiOptimizer.ClassifyInOrder` | lib/aiOptimizer.ts:26-56 | The loop pushes one recommendation per train. Entry k is the classification of the k-th train at index k. The accumulated total is the sum of the trains' scores. |
| `AiOptimizer.HeuristicOptimization` | lib/aiOptimizer.ts:13-62 | The method sorts a copy, runs the loop and takes the rounded mean of the total. Its result equals `HeuristicResult(trains)`, a function of the input alone, so the heuristic is deterministic. |
| `AiOptimizer.HeuristicCoversEveryTrain` | lib/aiOptimizer.ts:26-55 | The recommendation ids are the ids of the processing order, position by position. As a multiset they equal the input ids: no train is added, dropped or duplicated. |
| `AiOptimizer.PermutationKeepsNoDuplicates` | lib/aiOptimizer.ts:18-24 | A rearrangement of a duplicate-free sequence has no duplicates. |
| `AiOptimizer.HeuristicKeepsIdsDistinct` | lib/aiOptimizer.ts:47-48 | Distinct input ids give distinct recommendation ids. |
| `AiOptimizer.HeuristicScoresBounded` | lib/aiOptimizer.ts:27-60 | The throughput is a number exactly for a non-empty list, and then lies in [0, 100]. Every train score lies in [0, 100]. |
| `AiOptimizer.HeuristicThroughputIsRoundedMean` | lib/aiOptimizer.ts:58-61 | For a non-empty list the throughput is `Math.round` of the exact mean score. |
| `AiOptimizer.ScaledRoundBounds` | lib/aiOptimizer.ts:74-79 | Scaling a non-negative count by a factor g with lo ≤ g ≤ hi and rounding gives a value between the roundings at lo and hi, never negative. |
| `AiOptimizer.JitteredDelay` | lib/aiOptimizer.ts:74 | The adjusted delay lies between round(0.9·d) and round(1.1·d). A factor of 0 gives d back. |
| `AiOptimizer.JitteredScore` | lib/aiOptimizer.ts:79 | The adjusted score lies between round(0.95·s) and round(1.05·s). A factor of 0 gives s back. |
| `AiOptimizer.Jitter` | lib/aiOptimizer.ts:72-81 | The perturbation keeps id, name and action. The new expected delay lies between round(0.9·d) and round(1.1·d). The new score lies between round(0.95·s) and round(1.05·s). A factor of 0 changes nothing. |
| `AiOptimizer.Boost` | lib/aiOptimizer.ts:84 | Boosting keeps NaN as NaN. A number v becomes r with v ≤ r and 10·r ≤ 11·v + 5. |
| `AiOptimizer.Enhance` | lib/aiOptimizer.ts:72-89 | The perturbed result keeps the number of recommendations. It perturbs each one with its own factor, and boosts the base throughput independently of the per-train factors. |
| `AiOptimizer.SimulatedAIOptimization` | lib/aiOptimizer.ts:65-90 | The result is the heuristic result perturbed by the injected factors, with one recommendation per train. |
| `AiOptimizer.OptimizeSchedule` | lib/aiOptimizer.ts:93-99 | Mode "Simulated AI" yields the perturbed heuristic result. Every other mode yields exactly the heuristic result. |
| `RegistryRun.RegistryOrder` | lib/mockData.ts:85-146 | The registry is processed in the order Rajdhani, Kanchanjunga, Doon, MEMU, Coal Freight. |
| `RegistryRun.RegistryOrderIds` | lib/mockData.ts:87-135 | The processing order's ids are 12301, 15659, 13010, 63501, 15959. |
| `RegistryRun.RegistryTotalScore` | lib/mockData.ts:91-144 | The registry's scores total 286. |
| `RegistryRun.RegistryResult` | lib/aiOptimizer.ts:13-62 | On the registry the heuristic gives actions PROCEED, PRIORITY_CLEARANCE, PRIORITY_CLEARANCE, HOLD_5_MIN, HOLD_5_MIN. Expected delays are 0, 0, 2, 5, 20, scores 100, 76, 70, 40, 0, and throughput 57. |
| `RegistryRun.ScoreExamples` | lib/aiOptimizer.ts:6-10 | Priority 1 with no delay scores 100; priority 5 with delay 10 scores 0. |
| `RegistryRun.SortExample` | lib/aiOptimizer.ts:18-24 | Priorities [5, 1, 3, 1] with delays [0, 5, 0, 2] are processed as (1, 2), (1, 5), (3, 0), (5, 0). |
| `RegistryRun.PrecedenceExample` | lib/aiOptimizer.ts:32-35 | A priority-1 train 10 minutes late gets PRIORITY_CLEARANCE with expected delay 7, at any position. |
| `RegistryRun.SingleTrainThroughput` | lib/aiOptimizer.ts:58-61 | A single on-time priority-1 train gives throughput 100. |
| `RegistryRun.FreightPenaltiesDoNotStack` | lib/aiOptimizer.ts:37-45 | With more than three trains, a freight train is always held. It gets +5 beyond position 2 and +8 otherwise, never both. |

The contract of `AiOptimizer.Recommend` (lib/aiOptimizer.ts:26-53) states these rules:

- The recommendation carries the train's id, the name "number name", and the score of the original priority and delay.
- PRIORITY_CLEARANCE is given exactly when priority ≤ 2 and delay > 0. Its expected delay is max(0, delay − 3).
- HOLD_5_MIN is given exactly when priority ≥ 4 and either the index is > 2, or priority = 5 and there are more than 3 trains. It adds 5 minutes when the index is > 2, and otherwise 8 minutes, to a priority-5 train.
- PROCEED keeps the delay unchanged, so the expected delay is never negative.
- Priority-3 trains always get PROCEED.

## Left out

- The 500 ms `setTimeout` pause and the `async`/`Promise` wrappers (`lib/aiOptimizer.ts:65-67`, `93`). They only defer the result.
- `Math.random`: the factors are a parameter of `SimulatedAIOptimization` and `OptimizeSchedule`.
- IEEE-754 double arithmetic. The model computes on exact reals: the products by `1 + factor`, `1 + factor * 0.5` and `1.1`, and the division `totalScore / trains.length`. Floating-point rounding of those operations is not modelled.
- The specific algorithm of the JavaScript engine's sort. Only its specified outcome is modelled: a stable permutation sorted by the comparator.
- Train fields the optimizer never reads: engine, length, maxSpeed, route and coaches. Also the network sections, stations, priority labels and coach labels of `lib/mockData.ts`.
- Delays that are negative or fractional numbers. The record type only says `number`, but the registry uses non-negative whole minutes.
- All React/Next.js pages and components. They only render the registry and the result.
