/**
 * The optimizer applied to the fixed registry, and worked examples for the
 * score, the order, the rule precedence and the mean.
 */
module RegistryRun {
  import opened TrainData
  import opened AiOptimizer

  // The insertion steps of the sort, from the last registry train backwards.

  lemma SortLastTwo()
    ensures SortByPriority([Memu, Freight]) == [Memu, Freight]
  {
    assert [Freight][1..] == [];
    assert [Memu, Freight][1..] == [Freight];
  }

  lemma SortLastThree()
    ensures SortByPriority([Kanchanjunga, Memu, Freight]) == [Kanchanjunga, Memu, Freight]
  {
    SortLastTwo();
    assert [Kanchanjunga, Memu, Freight][1..] == [Memu, Freight];
  }

  lemma InsertDoonBeforeMemu()
    ensures Insert(Doon, [Memu, Freight]) == [Doon, Memu, Freight]
  {
  }

  lemma InsertDoon()
    ensures Insert(Doon, [Kanchanjunga, Memu, Freight]) == [Kanchanjunga, Doon, Memu, Freight]
  {
    InsertDoonBeforeMemu();
    assert [Kanchanjunga, Memu, Freight][1..] == [Memu, Freight];
  }

  lemma SortLastFour()
    ensures SortByPriority([Doon, Kanchanjunga, Memu, Freight]) == [Kanchanjunga, Doon, Memu, Freight]
  {
    SortLastThree();
    InsertDoon();
    assert [Doon, Kanchanjunga, Memu, Freight][1..] == [Kanchanjunga, Memu, Freight];
  }

  lemma InsertRajdhani()
    ensures Insert(Rajdhani, [Kanchanjunga, Doon, Memu, Freight])
      == [Rajdhani, Kanchanjunga, Doon, Memu, Freight]
  {
  }

  /** The registry is processed as 12301, 15659, 13010, 63501, 15959. */
  lemma RegistryOrder()
    ensures SortByPriority(Registry()) == [Rajdhani, Kanchanjunga, Doon, Memu, Freight]
  {
    SortLastFour();
    InsertRajdhani();
    assert Registry()[1..] == [Doon, Kanchanjunga, Memu, Freight];
  }

  lemma IdsOfOrder(s: seq<Train>)
    requires s == [Rajdhani, Kanchanjunga, Doon, Memu, Freight]
    ensures TrainIds(s) == ["12301", "15659", "13010", "63501", "15959"]
  {
  }

  /** The identifiers in processing order. */
  lemma RegistryOrderIds()
    ensures TrainIds(SortByPriority(Registry())) == ["12301", "15659", "13010", "63501", "15959"]
  {
    RegistryOrder();
    IdsOfOrder(SortByPriority(Registry()));
  }

  /** The registry's scores 100, 70, 76, 40 and 0 add up to 286. */
  lemma RegistryTotalScore()
    ensures SumScores(Registry()) == 286
  {
    var reg := Registry();
    assert SumScores(reg[4..]) == 0;
    assert reg[3..][1..] == reg[4..];
    assert SumScores(reg[3..]) == 40;
    assert reg[2..][1..] == reg[3..];
    assert SumScores(reg[2..]) == 116;
    assert reg[1..][1..] == reg[2..];
    assert SumScores(reg[1..]) == 186;
  }

  /** The expected recommendations for the registry, in processing order. */
  const RegistryRecommendations := [
    Recommendation("12301", "12301 Rajdhani Express", Proceed, 0, 100),
    Recommendation("15659", "15659 Kanchanjunga Express", PriorityClearance, 0, 76),
    Recommendation("13010", "13010 Doon Express", PriorityClearance, 2, 70),
    Recommendation("63501", "63501 Local MEMU", Hold5Min, 5, 40),
    Recommendation("15959", "15959 Coal Freight", Hold5Min, 20, 0) ]

  lemma RajdhaniName()
    ensures Rajdhani.number + " " + Rajdhani.name == "12301 Rajdhani Express"
  {
  }

  lemma RajdhaniProceeds()
    ensures Recommend(Rajdhani, 0, 5) == RegistryRecommendations[0]
  {
    RajdhaniName();
  }

  lemma KanchanjungaName()
    ensures Kanchanjunga.number + " " + Kanchanjunga.name == "15659 Kanchanjunga Express"
  {
  }

  lemma KanchanjungaCleared()
    ensures Recommend(Kanchanjunga, 1, 5) == RegistryRecommendations[1]
  {
    KanchanjungaName();
  }

  lemma DoonName()
    ensures Doon.number + " " + Doon.name == "13010 Doon Express"
  {
  }

  lemma DoonCleared()
    ensures Recommend(Doon, 2, 5) == RegistryRecommendations[2]
  {
    DoonName();
  }

  lemma MemuName()
    ensures Memu.number + " " + Memu.name == "63501 Local MEMU"
  {
  }

  lemma MemuHeld()
    ensures Recommend(Memu, 3, 5) == RegistryRecommendations[3]
  {
    MemuName();
  }

  lemma FreightName()
    ensures Freight.number + " " + Freight.name == "15959 Coal Freight"
  {
  }

  lemma FreightHeld()
    ensures Recommend(Freight, 4, 5) == RegistryRecommendations[4]
  {
    FreightName();
  }

  lemma RecommendationsOfOrder(recs: seq<Recommendation>)
    requires |recs| == 5
    requires recs[0] == Recommend(Rajdhani, 0, 5) && recs[1] == Recommend(Kanchanjunga, 1, 5)
    requires recs[2] == Recommend(Doon, 2, 5) && recs[3] == Recommend(Memu, 3, 5)
    requires recs[4] == Recommend(Freight, 4, 5)
    ensures recs == RegistryRecommendations
  {
    RajdhaniProceeds();
    KanchanjungaCleared();
    DoonCleared();
    MemuHeld();
    FreightHeld();
  }

  lemma RecommendationsForOrder(trains: seq<Train>)
    requires SortByPriority(trains) == [Rajdhani, Kanchanjunga, Doon, Memu, Freight]
    ensures HeuristicResult(trains).recommendations == RegistryRecommendations
  {
    var recs := HeuristicResult(trains).recommendations;
    var sorted := SortByPriority(trains);
    assert |trains| == 5;
    assert recs[0] == Recommend(sorted[0], 0, 5);
    assert recs[1] == Recommend(sorted[1], 1, 5);
    assert recs[2] == Recommend(sorted[2], 2, 5);
    assert recs[3] == Recommend(sorted[3], 3, 5);
    assert recs[4] == Recommend(sorted[4], 4, 5);
    RecommendationsOfOrder(recs);
  }

  lemma ThroughputForTotal(trains: seq<Train>)
    requires |trains| == 5 && SumScores(trains) == 286
    ensures HeuristicResult(trains).throughputScore == Finite(57)
  {
    assert RoundedMean(286, 5) == Finite(57);
  }

  /**
   * The full heuristic result for the registry: actions PROCEED,
   * PRIORITY_CLEARANCE, PRIORITY_CLEARANCE, HOLD_5_MIN, HOLD_5_MIN, expected
   * delays 0, 0, 2, 5, 20, scores 100, 76, 70, 40, 0 and throughput 57.
   */
  lemma RegistryResult()
    ensures HeuristicResult(Registry()) == OptimizationResult(RegistryRecommendations, Finite(57))
  {
    RegistryOrder();
    RegistryTotalScore();
    RecommendationsForOrder(Registry());
    ThroughputForTotal(Registry());
  }

  /*************************************************************************
   * Worked examples
   *************************************************************************/

  /** An on-time priority-1 train scores 100; a priority-5 train 10 minutes late scores 0. */
  lemma ScoreExamples(id: string)
    ensures TrainScore(Train(id, id, id, 1, 0)) == 100
    ensures TrainScore(Train(id, id, id, 5, 10)) == 0
  {
  }

  const FreightA := Train("a", "a", "A", 5, 0)
  const ExpressB := Train("b", "b", "B", 1, 5)
  const PassengerC := Train("c", "c", "C", 3, 0)
  const ExpressD := Train("d", "d", "D", 1, 2)

  lemma SortExampleLastTwo()
    ensures SortByPriority([PassengerC, ExpressD]) == [ExpressD, PassengerC]
  {
    assert [ExpressD][1..] == [];
    assert [PassengerC, ExpressD][1..] == [ExpressD];
  }

  lemma SortExampleInsertB()
    ensures Insert(ExpressB, [ExpressD, PassengerC]) == [ExpressD, ExpressB, PassengerC]
  {
    assert [ExpressD, PassengerC][1..] == [PassengerC];
  }

  lemma SortExampleLastThree()
    ensures SortByPriority([ExpressB, PassengerC, ExpressD]) == [ExpressD, ExpressB, PassengerC]
  {
    SortExampleLastTwo();
    SortExampleInsertB();
    assert [ExpressB, PassengerC, ExpressD][1..] == [PassengerC, ExpressD];
  }

  lemma SortExampleFreightAfterC()
    ensures Insert(FreightA, [PassengerC]) == [PassengerC, FreightA]
  {
    assert [PassengerC][1..] == [];
  }

  lemma SortExampleFreightAfterB()
    ensures Insert(FreightA, [ExpressB, PassengerC]) == [ExpressB, PassengerC, FreightA]
  {
    SortExampleFreightAfterC();
    assert [ExpressB, PassengerC][1..] == [PassengerC];
  }

  lemma SortExampleInsertFreight()
    ensures Insert(FreightA, [ExpressD, ExpressB, PassengerC]) == [ExpressD, ExpressB, PassengerC, FreightA]
  {
    SortExampleFreightAfterB();
    assert [ExpressD, ExpressB, PassengerC][1..] == [ExpressB, PassengerC];
  }

  /** Priorities [5, 1, 3, 1] with delays [0, 5, 0, 2] are processed as d, b, c, a. */
  lemma SortExample()
    ensures SortByPriority([FreightA, ExpressB, PassengerC, ExpressD])
      == [ExpressD, ExpressB, PassengerC, FreightA]
  {
    SortExampleLastThree();
    SortExampleInsertFreight();
    assert [FreightA, ExpressB, PassengerC, ExpressD][1..] == [ExpressB, PassengerC, ExpressD];
  }

  /** A priority-1 train 10 minutes late gets priority clearance and 7 minutes. */
  lemma PrecedenceExample(t: Train, index: nat, count: nat)
    requires t.priority == 1 && t.currentDelay == 10
    ensures Recommend(t, index, count).action == PriorityClearance
    ensures Recommend(t, index, count).expectedDelay == 7
  {
  }

  /** A single on-time priority-1 train gives a throughput score of 100. */
  lemma SingleTrainThroughput(t: Train)
    requires t.priority == 1 && t.currentDelay == 0
    ensures HeuristicResult([t]).throughputScore == Finite(100)
  {
    assert SumScores([t]) == 100 by {
      assert [t][1..] == [];
    }
  }

  /**
   * Among four or more trains, a freight train within the first three
   * positions is held 8 minutes and one beyond them 5 minutes: the two
   * penalties never add up.
   */
  lemma FreightPenaltiesDoNotStack(t: Train, index: nat, count: nat)
    requires t.priority == 5 && count > 3
    ensures Recommend(t, index, count).action == Hold5Min
    ensures Recommend(t, index, count).expectedDelay
      == t.currentDelay + (if index > 2 then CongestionHold else FreightHold)
  {
  }
}
