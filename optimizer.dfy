/**
 * The train-scheduling optimizer of lib/aiOptimizer.ts: the per-train score,
 * the priority-then-delay processing order, the heuristic that classifies each
 * train, the jittered "Simulated AI" variant and the mode dispatch.
 */
module AiOptimizer {
  import opened TrainData

  /*************************************************************************
   * Scoring
   *************************************************************************/

  /** Points per priority level: priority 1 weighs 100, priority 5 weighs 20. */
  const PriorityStep: int := 20
  /** Points lost per minute of current delay. */
  const DelayPenalty: int := 2

  /** `Math.max(0, x)` on integers. */
  function Max0(x: int): (r: nat)
    ensures r >= x && (r == x || r == 0)
  {
    if x < 0 then 0 else x
  }

  /** The desirability score of one train, from its priority and current delay. */
  function TrainScore(t: Train): (s: nat)
    ensures s <= 100
    ensures s % 2 == 0
    ensures s <= PriorityStep * (6 - t.priority)
    ensures s == 100 <==> t.priority == 1 && t.currentDelay == 0
    ensures s == 0 <==> 10 * (6 - t.priority) <= t.currentDelay
  {
    var priorityWeight := (6 - t.priority) * PriorityStep;
    var delayPenalty := t.currentDelay * -DelayPenalty;
    Max0(priorityWeight + delayPenalty)
  }

  /** Each further minute of delay costs two points, until the score reaches 0. */
  lemma ScoreLosesTwoPerMinute(t: Train)
    ensures TrainScore(t.(currentDelay := t.currentDelay + 1)) == Max0(TrainScore(t) - DelayPenalty)
  {
  }

  /** One priority level is worth exactly ten minutes of delay. */
  lemma PriorityLevelWorthTenMinutes(t: Train)
    requires t.priority < 5
    ensures TrainScore(t.(priority := t.priority + 1)) == TrainScore(t.(currentDelay := t.currentDelay + 10))
  {
  }

  /*************************************************************************
   * Processing order: the comparator and the library sort
   *************************************************************************/

  /** `a` may be processed no later than `b`: lower priority number, then smaller delay. */
  predicate InOrder(a: Train, b: Train)
  {
    a.priority < b.priority || (a.priority == b.priority && a.currentDelay <= b.currentDelay)
  }

  /** `a` and `b` are tied under the comparator. */
  predicate SameKey(a: Train, b: Train)
  {
    a.priority == b.priority && a.currentDelay == b.currentDelay
  }

  /** The comparator handed to `Array.prototype.sort`. */
  function Compare(a: Train, b: Train): (c: int)
    ensures c <= 0 <==> InOrder(a, b)
    ensures c == 0 <==> SameKey(a, b)
    ensures c >= 0 <==> InOrder(b, a)
  {
    if a.priority != b.priority then a.priority - b.priority
    else a.currentDelay - b.currentDelay
  }

  /** The comparator is consistent, as the sort requires of it. */
  lemma CompareIsAntisymmetric(a: Train, b: Train)
    ensures Compare(a, b) == -Compare(b, a)
  {
  }

  /** Every earlier train is in order with every later one. */
  predicate Sorted(s: seq<Train>)
  {
    forall i, j :: 0 <= i < j < |s| ==> InOrder(s[i], s[j])
  }

  /**
   * Inserts `x` before the first train it is in order with. Ties go to `x`,
   * which comes from earlier in the input: this is what keeps the sort stable.
   */
  function Insert(x: Train, s: seq<Train>): (r: seq<Train>)
    ensures |r| == |s| + 1
    ensures multiset(r) == multiset(s) + multiset{x}
  {
    if s == [] then [x]
    else if InOrder(x, s[0]) then [x] + s
    else
      assert s == [s[0]] + s[1..];
      [s[0]] + Insert(x, s[1..])
  }

  /** Every train of `s` may follow `y`. */
  predicate AllAfter(y: Train, s: seq<Train>)
  {
    forall k :: 0 <= k < |s| ==> InOrder(y, s[k])
  }

  lemma {:induction false} InsertKeepsAllAfter(y: Train, x: Train, s: seq<Train>)
    requires AllAfter(y, s) && InOrder(y, x)
    ensures AllAfter(y, Insert(x, s))
  {
    if s != [] && !InOrder(x, s[0]) {
      InsertKeepsAllAfter(y, x, s[1..]);
    }
  }

  /** Inserting into a sorted sequence keeps it sorted. */
  lemma {:induction false} InsertKeepsSorted(x: Train, s: seq<Train>)
    requires Sorted(s)
    ensures Sorted(Insert(x, s))
  {
    if s == [] {
    } else if InOrder(x, s[0]) {
      assert AllAfter(x, s);
    } else {
      var rest := Insert(x, s[1..]);
      InsertKeepsSorted(x, s[1..]);
      InsertKeepsAllAfter(s[0], x, s[1..]);
      var r := [s[0]] + rest;
      forall i, j | 0 <= i < j < |r| ensures InOrder(r[i], r[j]) {
        if i > 0 {
          assert r[i] == rest[i - 1] && r[j] == rest[j - 1];
        }
      }
    }
  }

  /**
   * `[...trains].sort(Compare)`: JavaScript's sort is stable (ECMA-262, 2019
   * edition, section 22.1.3.27), so it is modelled by a stable insertion sort.
   */
  function SortByPriority(s: seq<Train>): (r: seq<Train>)
    ensures |r| == |s|
    ensures multiset(r) == multiset(s)
    ensures Sorted(r)
  {
    if s == [] then []
    else
      assert s == [s[0]] + s[1..];
      InsertKeepsSorted(s[0], SortByPriority(s[1..]));
      Insert(s[0], SortByPriority(s[1..]))
  }

  /** `[t]` when `t` has the key (p, d), `[]` otherwise. */
  function KeyPart(t: Train, p: int, d: int): (r: seq<Train>)
    ensures r == [] || r == [t]
  {
    if t.priority == p && t.currentDelay == d then [t] else []
  }

  /** The trains of `s` whose (priority, delay) is exactly (p, d), in order. */
  function WithKey(s: seq<Train>, p: int, d: int): (r: seq<Train>)
    ensures |r| <= |s|
  {
    if s == [] then [] else KeyPart(s[0], p, d) + WithKey(s[1..], p, d)
  }

  lemma WithKeyCons(a: Train, t: seq<Train>, p: int, d: int)
    ensures WithKey([a] + t, p, d) == KeyPart(a, p, d) + WithKey(t, p, d)
  {
    assert ([a] + t)[1..] == t;
  }

  lemma {:induction false} InsertKeepsTiedOrder(x: Train, s: seq<Train>, p: int, d: int)
    ensures WithKey(Insert(x, s), p, d) == KeyPart(x, p, d) + WithKey(s, p, d)
  {
    if s == [] {
      WithKeyCons(x, s, p, d);
    } else if InOrder(x, s[0]) {
      WithKeyCons(x, s, p, d);
    } else {
      var rest := Insert(x, s[1..]);
      var tail := WithKey(s[1..], p, d);
      InsertKeepsTiedOrder(x, s[1..], p, d);
      WithKeyCons(s[0], rest, p, d);
      // x is not tied with s[0], so at most one of the two is kept
      if KeyPart(x, p, d) == [] {
        assert KeyPart(x, p, d) + tail == tail;
        assert KeyPart(x, p, d) + WithKey(s, p, d) == WithKey(s, p, d);
      } else {
        assert KeyPart(s[0], p, d) == [];
        assert KeyPart(s[0], p, d) + (KeyPart(x, p, d) + tail) == KeyPart(x, p, d) + tail;
        assert WithKey(s, p, d) == tail;
      }
    }
  }

  /** Stability: trains tied under the comparator keep their input order. */
  lemma {:induction false} SortIsStable(s: seq<Train>, p: int, d: int)
    ensures WithKey(SortByPriority(s), p, d) == WithKey(s, p, d)
  {
    if s != [] {
      SortIsStable(s[1..], p, d);
      InsertKeepsTiedOrder(s[0], SortByPriority(s[1..]), p, d);
    }
  }

  /*************************************************************************
   * Identifiers and score totals are unaffected by the order
   *************************************************************************/

  function TrainIds(s: seq<Train>): (r: seq<string>)
    ensures |r| == |s|
    ensures forall i :: 0 <= i < |s| ==> r[i] == s[i].id
  {
    seq(|s|, i requires 0 <= i < |s| => s[i].id)
  }

  function RecommendedIds(rs: seq<Recommendation>): (r: seq<string>)
    ensures |r| == |rs|
    ensures forall i :: 0 <= i < |rs| ==> r[i] == rs[i].trainId
  {
    seq(|rs|, i requires 0 <= i < |rs| => rs[i].trainId)
  }

  lemma TrainIdsCons(a: Train, t: seq<Train>)
    ensures TrainIds([a] + t) == [a.id] + TrainIds(t)
  {
    assert TrainIds([a] + t) == [a.id] + TrainIds(t) by {
      forall i | 0 <= i < |t| + 1 ensures TrainIds([a] + t)[i] == ([a.id] + TrainIds(t))[i] {
        if i > 0 {
          assert ([a] + t)[i] == t[i - 1];
        }
      }
    }
  }

  lemma TrainIdsHead(s: seq<Train>)
    requires s != []
    ensures TrainIds(s) == [s[0].id] + TrainIds(s[1..])
  {
    assert TrainIds(s) == [s[0].id] + TrainIds(s[1..]) by {
      forall i | 0 <= i < |s| ensures TrainIds(s)[i] == ([s[0].id] + TrainIds(s[1..]))[i] {
        if i > 0 {
          assert s[1..][i - 1] == s[i];
        }
      }
    }
  }

  lemma {:induction false} InsertKeepsIds(x: Train, s: seq<Train>)
    ensures multiset(TrainIds(Insert(x, s))) == multiset(TrainIds(s)) + multiset{x.id}
  {
    if s == [] {
    } else if InOrder(x, s[0]) {
      TrainIdsCons(x, s);
    } else {
      var rest := Insert(x, s[1..]);
      InsertKeepsIds(x, s[1..]);
      TrainIdsCons(s[0], rest);
      TrainIdsHead(s);
      calc {
        multiset(TrainIds(Insert(x, s)));
        multiset([s[0].id] + TrainIds(rest));
        multiset{s[0].id} + multiset(TrainIds(rest));
        multiset{s[0].id} + multiset(TrainIds(s[1..])) + multiset{x.id};
        multiset(TrainIds(s)) + multiset{x.id};
      }
    }
  }

  /** Sorting neither adds, drops nor duplicates an identifier. */
  lemma {:induction false} SortKeepsIds(s: seq<Train>)
    ensures multiset(TrainIds(SortByPriority(s))) == multiset(TrainIds(s))
  {
    if s != [] {
      var sortedTail := SortByPriority(s[1..]);
      SortKeepsIds(s[1..]);
      InsertKeepsIds(s[0], sortedTail);
      TrainIdsHead(s);
      calc {
        multiset(TrainIds(SortByPriority(s)));
        multiset(TrainIds(Insert(s[0], sortedTail)));
        multiset(TrainIds(s[1..])) + multiset{s[0].id};
        multiset([s[0].id] + TrainIds(s[1..]));
      }
    }
  }

  /** The sum of the scores of `s`: the `totalScore` accumulator. */
  function SumScores(s: seq<Train>): (r: nat)
    ensures r <= 100 * |s|
  {
    if s == [] then 0 else TrainScore(s[0]) + SumScores(s[1..])
  }

  lemma {:induction false} SumScoresAppend(s: seq<Train>, x: Train)
    ensures SumScores(s + [x]) == SumScores(s) + TrainScore(x)
  {
    if s == [] {
      assert [] + [x] == [x];
    } else {
      SumScoresAppend(s[1..], x);
      assert (s + [x])[1..] == s[1..] + [x];
    }
  }

  /** Extending the processed prefix by one train adds that train's score. */
  lemma SumScoresPrefix(s: seq<Train>, i: nat)
    requires i < |s|
    ensures SumScores(s[..i + 1]) == SumScores(s[..i]) + TrainScore(s[i])
  {
    assert s[..i + 1] == s[..i] + [s[i]];
    SumScoresAppend(s[..i], s[i]);
  }

  lemma {:induction false} SumScoresInsert(x: Train, s: seq<Train>)
    ensures SumScores(Insert(x, s)) == TrainScore(x) + SumScores(s)
  {
    if s != [] && !InOrder(x, s[0]) {
      SumScoresInsert(x, s[1..]);
      assert ([s[0]] + Insert(x, s[1..]))[1..] == Insert(x, s[1..]);
    } else if s != [] {
      assert ([x] + s)[1..] == s;
    }
  }

  /** The total score does not depend on the processing order. */
  lemma {:induction false} SumScoresSort(s: seq<Train>)
    ensures SumScores(SortByPriority(s)) == SumScores(s)
  {
    if s != [] {
      SumScoresSort(s[1..]);
      SumScoresInsert(s[0], SortByPriority(s[1..]));
    }
  }

  /*************************************************************************
   * Rounding
   *************************************************************************/

  /** `Math.round` on an exact real: halves round up. */
  function RoundHalfUp(x: real): int
  {
    (x + 0.5).Floor
  }

  lemma RoundHalfUpOfInteger(n: int)
    ensures RoundHalfUp(n as real) == n
  {
  }

  lemma RoundHalfUpMonotone(x: real, y: real)
    requires x <= y
    ensures RoundHalfUp(x) <= RoundHalfUp(y)
  {
  }

  /**
   * `Math.round(total / n)`. With no trains the division is 0 / 0, which is
   * NaN in JavaScript, and `Math.round(NaN)` is NaN again.
   */
  function RoundedMean(total: nat, n: nat): (r: Throughput)
    ensures r == NotANumber <==> n == 0
    ensures r.Finite? ==> 2 * n * r.value <= 2 * total + n < 2 * n * r.value + 2 * n
    ensures r.Finite? && total <= 100 * n ==> r.value <= 100
  {
    if n == 0 then NotANumber
    else
      Finite((2 * total + n) / (2 * n))
  }

  lemma MulStrict(a: real, b: real, c: real)
    requires a < b && c > 0.0
    ensures a * c < b * c
  {
  }

  /** The integer rounding used above is `Math.round` of the exact quotient. */
  lemma RoundedMeanIsMathRound(total: nat, n: nat)
    requires n > 0
    ensures RoundedMean(total, n) == Finite(RoundHalfUp(total as real / n as real))
  {
    var q := RoundedMean(total, n).value;
    var x := total as real / n as real;
    var nr := n as real;
    assert x * nr == total as real;
    assert (2 * n * q) as real <= (2 * total + n) as real < (2 * n * q + 2 * n) as real;
    assert q as real <= x + 0.5 by {
      if q as real > x + 0.5 {
        MulStrict(x + 0.5, q as real, 2.0 * nr);
      }
    }
    assert x + 0.5 < q as real + 1.0 by {
      if x + 0.5 >= q as real + 1.0 {
        if x + 0.5 > q as real + 1.0 {
          MulStrict(q as real + 1.0, x + 0.5, 2.0 * nr);
        }
      }
    }
  }

  /*************************************************************************
   * Classification
   *************************************************************************/

  /** Kept for priority-1 and priority-2 trains that are behind schedule. */
  const ClearanceRecovery: nat := 3
  /** Added when a low-priority train beyond the first three is held. */
  const CongestionHold: nat := 5
  /** Added when a freight train is held because more than three trains run. */
  const FreightHold: nat := 8

  /**
   * The recommendation for train `t` at position `index` of the processing
   * order of `count` trains.
   */
  function Recommend(t: Train, index: nat, count: nat): (r: Recommendation)
    ensures r.trainId == t.id && r.trainName == t.number + " " + t.name
    ensures r.trainScore == TrainScore(t)
    ensures r.action == PriorityClearance <==> t.priority <= 2 && t.currentDelay > 0
    ensures r.action == PriorityClearance ==> r.expectedDelay == Max0(t.currentDelay - 3)
    ensures r.action == Hold5Min <==> t.priority >= 4 && (index > 2 || (t.priority == 5 && count > 3))
    ensures r.action == Hold5Min && index > 2 ==> r.expectedDelay == t.currentDelay + 5
    ensures r.action == Hold5Min && index <= 2 ==> t.priority == 5 && r.expectedDelay == t.currentDelay + 8
    ensures r.action == Proceed ==> r.expectedDelay == t.currentDelay
    ensures t.priority == 3 ==> r.action == Proceed
  {
    var d := t.currentDelay;
    var (action, expectedDelay) :=
      if t.priority <= 2 && d > 0 then (PriorityClearance, Max0(d - ClearanceRecovery))
      else if t.priority >= 4 && index > 2 then (Hold5Min, d + CongestionHold)
      else if t.priority == 5 && count > 3 then (Hold5Min, d + FreightHold)
      else (Proceed, d);
    Recommendation(t.id, t.number + " " + t.name, action, expectedDelay, TrainScore(t))
  }

  /*************************************************************************
   * The heuristic optimizer
   *************************************************************************/

  /** What `heuristicOptimization(trains)` returns. */
  function HeuristicResult(trains: seq<Train>): (r: OptimizationResult)
    ensures |r.recommendations| == |trains|
    ensures forall i :: 0 <= i < |trains| ==>
      r.recommendations[i] == Recommend(SortByPriority(trains)[i], i, |trains|)
    ensures r.throughputScore == RoundedMean(SumScores(trains), |trains|)
  {
    var sorted := SortByPriority(trains);
    SumScoresSort(trains);
    OptimizationResult(
      seq(|sorted|, i requires 0 <= i < |sorted| => Recommend(sorted[i], i, |sorted|)),
      RoundedMean(SumScores(sorted), |sorted|))
  }

  /**
   * The body of the `forEach` callback: scores the train, then lets the first
   * matching rule of the if/else-if chain set the action and expected delay.
   */
  method ClassifyTrain(train: Train, index: nat, count: nat) returns (recommendation: Recommendation)
    ensures recommendation == Recommend(train, index, count)
  {
    var trainScore := TrainScore(train);
    var action := Proceed;
    var expectedDelay := train.currentDelay;

    if train.priority <= 2 && train.currentDelay > 0 {
      action := PriorityClearance;
      expectedDelay := Max0(expectedDelay - ClearanceRecovery);
    } else if train.priority >= 4 && index > 2 {
      action := Hold5Min;
      expectedDelay := expectedDelay + CongestionHold;
    } else if train.priority == 5 && count > 3 {
      action := Hold5Min;
      expectedDelay := expectedDelay + FreightHold;
    }

    recommendation := Recommendation(train.id, train.number + " " + train.name, action, expectedDelay, trainScore);
  }

  /**
   * The `forEach` loop: classifies the trains in the given order, pushing one
   * recommendation per train and accumulating the total score.
   */
  method ClassifyInOrder(sortedTrains: seq<Train>) returns (recommendations: seq<Recommendation>, totalScore: nat)
    ensures |recommendations| == |sortedTrains|
    ensures forall k :: 0 <= k < |sortedTrains| ==>
      recommendations[k] == Recommend(sortedTrains[k], k, |sortedTrains|)
    ensures totalScore == SumScores(sortedTrains)
  {
    recommendations := [];
    totalScore := 0;
    var index := 0;
    while index < |sortedTrains|
      invariant 0 <= index <= |sortedTrains|
      invariant |recommendations| == index
      invariant forall k :: 0 <= k < index ==>
        recommendations[k] == Recommend(sortedTrains[k], k, |sortedTrains|)
      invariant totalScore == SumScores(sortedTrains[..index])
    {
      var train := sortedTrains[index];
      var recommendation := ClassifyTrain(train, index, |sortedTrains|);
      recommendations := recommendations + [recommendation];

      SumScoresPrefix(sortedTrains, index);
      totalScore := totalScore + recommendation.trainScore;
      index := index + 1;
    }
    assert sortedTrains[..index] == sortedTrains;
  }

  /** Sorts a copy of the trains, classifies them in that order, and takes the rounded mean score. */
  method HeuristicOptimization(trains: seq<Train>) returns (result: OptimizationResult)
    ensures result == HeuristicResult(trains)
  {
    var sortedTrains := SortByPriority(trains);
    var recommendations, totalScore := ClassifyInOrder(sortedTrains);
    SumScoresSort(trains);
    assert recommendations == HeuristicResult(trains).recommendations;
    result := OptimizationResult(recommendations, RoundedMean(totalScore, |trains|));
  }

  /** Exactly one recommendation per input train, carrying that train's id. */
  lemma HeuristicCoversEveryTrain(trains: seq<Train>)
    ensures var recs := HeuristicResult(trains).recommendations;
      |recs| == |trains| &&
      RecommendedIds(recs) == TrainIds(SortByPriority(trains)) &&
      multiset(RecommendedIds(recs)) == multiset(TrainIds(trains))
  {
    var recs := HeuristicResult(trains).recommendations;
    assert RecommendedIds(recs) == TrainIds(SortByPriority(trains));
    SortKeepsIds(trains);
  }

  /** No two entries of `s` are equal. */
  predicate NoDuplicates(s: seq<string>)
  {
    forall i, j :: 0 <= i < j < |s| ==> s[i] != s[j]
  }

  lemma {:induction false} NoDuplicatesCountOnce(s: seq<string>, v: string)
    requires NoDuplicates(s)
    ensures multiset(s)[v] <= 1
  {
    if s != [] {
      var tail := s[1..];
      assert NoDuplicates(tail) by {
        forall i, j | 0 <= i < j < |tail| ensures tail[i] != tail[j] {
          assert tail[i] == s[i + 1] && tail[j] == s[j + 1];
        }
      }
      NoDuplicatesCountOnce(tail, v);
      assert s == [s[0]] + tail;
      assert s[0] !in tail by {
        forall j | 0 <= j < |tail| ensures tail[j] != s[0] {
          assert tail[j] == s[j + 1];
        }
      }
    }
  }

  /** A rearrangement of a duplicate-free sequence is duplicate-free. */
  lemma PermutationKeepsNoDuplicates(a: seq<string>, b: seq<string>)
    requires multiset(a) == multiset(b) && NoDuplicates(b)
    ensures NoDuplicates(a)
  {
    forall i, j | 0 <= i < j < |a| ensures a[i] != a[j] {
      NoDuplicatesCountOnce(b, a[i]);
      assert a == a[..j] + a[j..];
      assert a[..j][i] == a[i];
      assert a[j..][0] == a[j];
      assert multiset(a)[a[i]] == multiset(a[..j])[a[i]] + multiset(a[j..])[a[i]];
    }
  }

  /** When the input ids are distinct, so are the recommended ids. */
  lemma HeuristicKeepsIdsDistinct(trains: seq<Train>)
    requires DistinctIds(trains)
    ensures NoDuplicates(RecommendedIds(HeuristicResult(trains).recommendations))
  {
    HeuristicCoversEveryTrain(trains);
    PermutationKeepsNoDuplicates(RecommendedIds(HeuristicResult(trains).recommendations), TrainIds(trains));
  }

  /** The score of every train, and the throughput score, stay within [0, 100]. */
  lemma HeuristicScoresBounded(trains: seq<Train>)
    ensures var r := HeuristicResult(trains);
      (r.throughputScore.Finite? <==> |trains| > 0) &&
      (r.throughputScore.Finite? ==> r.throughputScore.value <= 100) &&
      forall i :: 0 <= i < |r.recommendations| ==> r.recommendations[i].trainScore <= 100
  {
  }

  /** The exact mean score `totalScore / trains.length` of a non-empty list. */
  function MeanScore(trains: seq<Train>): (m: real)
    requires |trains| > 0
    ensures 0.0 <= m
  {
    SumScores(trains) as real / |trains| as real
  }

  /** The throughput score is `Math.round` of the mean score. */
  lemma HeuristicThroughputIsRoundedMean(trains: seq<Train>)
    requires |trains| > 0
    ensures HeuristicResult(trains).throughputScore == Finite(RoundHalfUp(MeanScore(trains)))
  {
    RoundedMeanIsMathRound(SumScores(trains), |trains|);
  }

  /*************************************************************************
   * The "Simulated AI" variant
   *************************************************************************/

  /** A value of `Math.random() * 0.2 - 0.1`, with `Math.random()` in [0, 1). */
  predicate IsRandomFactor(f: real)
  {
    -0.1 <= f < 0.1
  }

  /** One random factor per recommendation. */
  predicate FitsJitter(factors: seq<real>, count: nat)
  {
    |factors| == count && forall i :: 0 <= i < |factors| ==> IsRandomFactor(factors[i])
  }

  lemma MulNonNeg(a: real, b: real)
    requires a >= 0.0 && b >= 0.0
    ensures a * b >= 0.0
  {
  }

  /** Scaling a count by a factor between `lo` and `hi`, then rounding, stays between the two roundings. */
  lemma ScaledRoundBounds(v: nat, g: real, lo: real, hi: real)
    requires 0.0 <= lo <= g <= hi
    ensures 0 <= RoundHalfUp(v as real * lo)
    ensures RoundHalfUp(v as real * lo) <= RoundHalfUp(v as real * g) <= RoundHalfUp(v as real * hi)
  {
    var x := v as real;
    MulNonNeg(x, lo);
    MulNonNeg(x, g - lo);
    MulNonNeg(x, hi - g);
    assert x * g - x * lo == x * (g - lo);
    assert x * hi - x * g == x * (hi - g);
    RoundHalfUpMonotone(0.0, x * lo);
    RoundHalfUpMonotone(x * lo, x * g);
    RoundHalfUpMonotone(x * g, x * hi);
  }

  /** Scaling by exactly one, then rounding, gives the count back. */
  lemma ScaleByOne(v: nat, g: real)
    ensures g == 1.0 ==> RoundHalfUp(v as real * g) == v
  {
    if g == 1.0 {
      assert v as real * g == v as real;
      RoundHalfUpOfInteger(v);
    }
  }

  /** `Math.max(0, Math.round(delay * (1 + f)))`: within 10% of the delay, rounded. */
  function JitteredDelay(delay: nat, f: real): (r: nat)
    requires IsRandomFactor(f)
    ensures RoundHalfUp(delay as real * 0.9) <= r <= RoundHalfUp(delay as real * 1.1)
    ensures f == 0.0 ==> r == delay
  {
    var g := 1.0 + f;
    ScaledRoundBounds(delay, g, 0.9, 1.1);
    ScaleByOne(delay, g);
    Max0(RoundHalfUp(delay as real * g))
  }

  /** `Math.round(score * (1 + f * 0.5))`: within 5% of the score, rounded. */
  function JitteredScore(score: nat, f: real): (r: nat)
    requires IsRandomFactor(f)
    ensures RoundHalfUp(score as real * 0.95) <= r <= RoundHalfUp(score as real * 1.05)
    ensures f == 0.0 ==> r == score
  {
    var g := 1.0 + f * 0.5;
    assert 0.95 <= g <= 1.05;
    ScaledRoundBounds(score, g, 0.95, 1.05);
    ScaleByOne(score, g);
    RoundHalfUp(score as real * g)
  }

  /** A recommendation with its delay and score perturbed by the factor `f`. */
  function Jitter(rec: Recommendation, f: real): (r: Recommendation)
    requires IsRandomFactor(f)
    ensures r.trainId == rec.trainId && r.trainName == rec.trainName && r.action == rec.action
    ensures RoundHalfUp(rec.expectedDelay as real * 0.9) <= r.expectedDelay
      <= RoundHalfUp(rec.expectedDelay as real * 1.1)
    ensures RoundHalfUp(rec.trainScore as real * 0.95) <= r.trainScore
      <= RoundHalfUp(rec.trainScore as real * 1.05)
    ensures f == 0.0 ==> r == rec
  {
    rec.(expectedDelay := JitteredDelay(rec.expectedDelay, f),
         trainScore := JitteredScore(rec.trainScore, f))
  }

  /** `Math.round(throughputScore * 1.1)`; NaN stays NaN. */
  function Boost(t: Throughput): (r: Throughput)
    ensures r.Finite? <==> t.Finite?
    ensures r.Finite? ==> t.value <= r.value && 10 * r.value <= 11 * t.value + 5
  {
    match t
    case NotANumber => NotANumber
    case Finite(v) =>
      RoundHalfUpMonotone(v as real, v as real * 1.1);
      RoundHalfUpOfInteger(v);
      Finite(RoundHalfUp(v as real * 1.1))
  }

  /** The perturbation the "Simulated AI" mode applies to a heuristic result. */
  function Enhance(base: OptimizationResult, factors: seq<real>): (r: OptimizationResult)
    requires FitsJitter(factors, |base.recommendations|)
    ensures |r.recommendations| == |base.recommendations|
    ensures forall i :: 0 <= i < |factors| ==>
      r.recommendations[i] == Jitter(base.recommendations[i], factors[i])
    ensures r.throughputScore == Boost(base.throughputScore)
  {
    var recs := base.recommendations;
    OptimizationResult(
      seq(|recs|, i requires 0 <= i < |recs| => Jitter(recs[i], factors[i])),
      Boost(base.throughputScore))
  }

  /** The heuristic result, perturbed by the injected random factors. */
  method SimulatedAIOptimization(trains: seq<Train>, factors: seq<real>) returns (result: OptimizationResult)
    requires FitsJitter(factors, |trains|)
    ensures result == Enhance(HeuristicResult(trains), factors)
    ensures |result.recommendations| == |trains|
  {
    var baseResult := HeuristicOptimization(trains);
    result := Enhance(baseResult, factors);
  }

  /*************************************************************************
   * The facade
   *************************************************************************/

  /**
   * `optimizeSchedule(trains, mode)`: exactly the string "Simulated AI" selects
   * the perturbed variant; every other mode runs the heuristic.
   */
  method OptimizeSchedule(trains: seq<Train>, mode: string, factors: seq<real>)
    returns (result: OptimizationResult)
    requires mode == "Simulated AI" ==> FitsJitter(factors, |trains|)
    ensures mode == "Simulated AI" ==> result == Enhance(HeuristicResult(trains), factors)
    ensures mode != "Simulated AI" ==> result == HeuristicResult(trains)
  {
    if mode == "Simulated AI" {
      result := SimulatedAIOptimization(trains, factors);
    } else {
      result := HeuristicOptimization(trains);
    }
  }
}
