/**
  The skill analyser: per-tier counts and average confidences of a user's
  solved problems, and the two tier classifiers built on them — the coarse
  one behind the simple recommendation path and the stricter "progression"
  one behind the difficulty-fit score. They are kept apart on purpose.
 */
module SkillAnalysis {
  import opened Base
  import opened Domain

  /** The size and confidence total of one group of solved records. */
  datatype GroupStats = GroupStats(count: nat, total: real)

  /**
    `groupingBy` with `counting()` / `averagingDouble(confidenceScore)`,
    restricted to the records the selector keeps.
   */
  function StatsWhere(records: seq<UserProgress>, selects: UserProgress -> bool): (g: GroupStats)
    ensures g.count <= |records|
    ensures g.count == 0 ==> g.total == 0.0
  {
    if |records| == 0 then GroupStats(0, 0.0)
    else
      var rest := StatsWhere(records[1..], selects);
      if selects(records[0]) then GroupStats(rest.count + 1, rest.total + records[0].confidenceScore)
      else rest
  }

  /** The sum of the records' confidences. */
  function SumConfidence(records: seq<UserProgress>): real
  {
    if |records| == 0 then 0.0 else records[0].confidenceScore + SumConfidence(records[1..])
  }

  /**
    A group is exactly the selected records: its count is how many the
    filter keeps and its total is the sum of their confidences.
   */
  lemma {:induction false} StatsAreOfTheSelectedRecords(records: seq<UserProgress>, selects: UserProgress -> bool)
    ensures StatsWhere(records, selects).count == |Filter(records, selects)|
    ensures StatsWhere(records, selects).total == SumConfidence(Filter(records, selects))
  {
    if |records| > 0 {
      StatsAreOfTheSelectedRecords(records[1..], selects);
      if selects(records[0]) {
        var kept := [records[0]] + Filter(records[1..], selects);
        assert kept[0] == records[0] && kept[1..] == Filter(records[1..], selects);
      }
    }
  }

  /** A missing group (`getOrDefault`) averages 0.0. */
  function Average(g: GroupStats): real
  {
    if g.count == 0 then 0.0 else g.total / (g.count as real)
  }

  predicate ConfidencesInUnitInterval(records: seq<UserProgress>)
  {
    forall i :: 0 <= i < |records| ==> 0.0 <= records[i].confidenceScore <= 1.0
  }

  lemma {:induction false} TotalBoundedByCount(records: seq<UserProgress>, selects: UserProgress -> bool)
    requires ConfidencesInUnitInterval(records)
    ensures 0.0 <= StatsWhere(records, selects).total <= StatsWhere(records, selects).count as real
  {
    if |records| > 0 {
      assert ConfidencesInUnitInterval(records[1..]) by {
        forall i | 0 <= i < |records[1..]| ensures 0.0 <= records[1..][i].confidenceScore <= 1.0 {
          assert records[1..][i] == records[i + 1];
        }
      }
      TotalBoundedByCount(records[1..], selects);
    }
  }

  /** When every confidence is within [0, 1], so is every group average. */
  lemma AverageInUnitInterval(records: seq<UserProgress>, selects: UserProgress -> bool)
    requires ConfidencesInUnitInterval(records)
    ensures 0.0 <= Average(StatsWhere(records, selects)) <= 1.0
  {
    var g := StatsWhere(records, selects);
    TotalBoundedByCount(records, selects);
    if g.count > 0 {
      RatioInUnitInterval(g.total, g.count as real);
    }
  }

  lemma RatioInUnitInterval(a: real, c: real)
    requires 0.0 <= a <= c && c > 0.0
    ensures 0.0 <= a / c <= 1.0
  {
    assert (a / c) * c == a;
  }

  /** The six numbers both classifiers read. */
  datatype TierProfile = TierProfile(
    easyCount: nat, easyConf: real,
    mediumCount: nat, mediumConf: real,
    hardCount: nat, hardConf: real)

  function TierStats(solved: seq<UserProgress>, d: Difficulty): GroupStats
  {
    StatsWhere(solved, (r: UserProgress) => r.problem.difficulty == d)
  }

  /**
    Per tier, the number of solves and their average confidence (0.0 for a
    tier with no solves); the three counts add up to all solves.
   */
  function ProfileOf(solved: seq<UserProgress>): (p: TierProfile)
    ensures p.easyCount == TierStats(solved, Easy).count && p.easyConf == Average(TierStats(solved, Easy))
    ensures p.mediumCount == TierStats(solved, Medium).count && p.mediumConf == Average(TierStats(solved, Medium))
    ensures p.hardCount == TierStats(solved, Hard).count && p.hardConf == Average(TierStats(solved, Hard))
    ensures p.easyCount + p.mediumCount + p.hardCount == |solved|
  {
    TierCountsAddUp(solved);
    var e := TierStats(solved, Easy);
    var m := TierStats(solved, Medium);
    var h := TierStats(solved, Hard);
    TierProfile(e.count, Average(e), m.count, Average(m), h.count, Average(h))
  }

  /** The solves of one tier, in list order. */
  function OfTier(solved: seq<UserProgress>, d: Difficulty): seq<UserProgress>
  {
    Filter(solved, (r: UserProgress) => r.problem.difficulty == d)
  }

  /** The mean confidence of a list of records, 0.0 for none. */
  function MeanConfidence(records: seq<UserProgress>): real
  {
    if |records| == 0 then 0.0 else SumConfidence(records) / (|records| as real)
  }

  /**
    The profile against a direct definition: each tier's count is the number
    of solves of that tier and its confidence their mean.
   */
  lemma ProfileCountsEachTier(solved: seq<UserProgress>, d: Difficulty)
    ensures var p := ProfileOf(solved);
            var (count, conf) := match d
              case Easy => (p.easyCount, p.easyConf)
              case Medium => (p.mediumCount, p.mediumConf)
              case Hard => (p.hardCount, p.hardConf);
            count == |OfTier(solved, d)| && conf == MeanConfidence(OfTier(solved, d))
  {
    StatsAreOfTheSelectedRecords(solved, (r: UserProgress) => r.problem.difficulty == d);
  }

  /** Every solved record falls into exactly one tier. */
  lemma {:induction false} TierCountsAddUp(solved: seq<UserProgress>)
    ensures TierStats(solved, Easy).count + TierStats(solved, Medium).count
            + TierStats(solved, Hard).count == |solved|
  {
    if |solved| > 0 {
      TierCountsAddUp(solved[1..]);
    }
  }

  /**
    The coarse classifier (first matching rule wins): too few or shaky EASY
    solves give EASY; then too few or shaky MEDIUM solves give MEDIUM; then too
    few or shaky HARD solves give HARD; an all-round user gets HARD when
    MEDIUM confidence is above 0.7 and MEDIUM otherwise.
   */
  function AnalyzeUserSkillLevel(solved: seq<UserProgress>): (d: Difficulty)
    ensures var p := ProfileOf(solved);
      && (d == Easy <==> p.easyCount < 3 || p.easyConf < 0.6)
      && (d == Medium <==>
            !(p.easyCount < 3 || p.easyConf < 0.6)
            && ((p.mediumCount < 2 || p.mediumConf < 0.5)
                || (!(p.hardCount < 1 || p.hardConf < 0.4) && p.mediumConf <= 0.7)))
  {
    if |solved| == 0 then
      assert TierStats(solved, Easy).count == 0;
      Easy
    else
      var p := ProfileOf(solved);
      if p.easyCount < 3 || p.easyConf < 0.6 then Easy
      else if p.mediumCount < 2 || p.mediumConf < 0.5 then Medium
      else if p.hardCount < 1 || p.hardConf < 0.4 then Hard
      else if p.mediumConf > 0.7 then Hard
      else if p.easyConf > 0.8 then Medium
      else Medium
  }

  /**
    The stricter progression classifier: the same ladder with thresholds
    5 / 0.7, 3 / 0.65 and 2 / 0.6, and an all-round user gets HARD only when
    MEDIUM confidence is above 0.75.
   */
  function CalculateRecommendedDifficulty(solved: seq<UserProgress>): (d: Difficulty)
    ensures var p := ProfileOf(solved);
      && (d == Easy <==> p.easyCount < 5 || p.easyConf < 0.7)
      && (d == Medium <==>
            !(p.easyCount < 5 || p.easyConf < 0.7)
            && ((p.mediumCount < 3 || p.mediumConf < 0.65)
                || (!(p.hardCount < 2 || p.hardConf < 0.6) && p.mediumConf <= 0.75)))
  {
    if |solved| == 0 then
      assert TierStats(solved, Easy).count == 0;
      Easy
    else
      var p := ProfileOf(solved);
      if p.easyCount < 5 || p.easyConf < 0.7 then Easy
      else if p.mediumCount < 3 || p.mediumConf < 0.65 then Medium
      else if p.hardCount < 2 || p.hardConf < 0.6 then Hard
      else if p.mediumConf > 0.75 then Hard
      else Medium
  }

  /** A user with no solved problem starts at EASY under both classifiers. */
  lemma NewUserStartsEasy()
    ensures AnalyzeUserSkillLevel([]) == Easy
    ensures CalculateRecommendedDifficulty([]) == Easy
  {
  }

  /** Fewer than three solves in all keep a user at EASY under both classifiers. */
  lemma FewSolvesStayEasy(solved: seq<UserProgress>)
    requires |solved| < 3
    ensures AnalyzeUserSkillLevel(solved) == Easy
    ensures CalculateRecommendedDifficulty(solved) == Easy
  {
    var p := ProfileOf(solved);
    assert p.easyCount <= |solved|;
  }

  /**
    The strict classifier's first gate is the harder one: whenever it lets a
    user past EASY, so does the coarse classifier.
   */
  lemma StrictPastEasyImpliesCoarsePastEasy(solved: seq<UserProgress>)
    ensures CalculateRecommendedDifficulty(solved) != Easy ==> AnalyzeUserSkillLevel(solved) != Easy
  {
  }

  /**
    HARD is only ever recommended to users with at least three EASY and two
    MEDIUM solves (coarse) or five EASY and three MEDIUM solves (strict).
   */
  lemma HardNeedsEasyAndMediumDepth(solved: seq<UserProgress>)
    ensures AnalyzeUserSkillLevel(solved) == Hard ==>
      ProfileOf(solved).easyCount >= 3 && ProfileOf(solved).mediumCount >= 2
    ensures CalculateRecommendedDifficulty(solved) == Hard ==>
      ProfileOf(solved).easyCount >= 5 && ProfileOf(solved).mediumCount >= 3
  {
  }

  function SolvedAt(d: Difficulty, conf: real, i: int): UserProgress
  {
    UserProgress(1, Problem(i, "", d, "", 50.0), Solved, None, None, None, 1, 0, conf, false)
  }

  /**
    Five confident EASY solves and nothing else: the coarse classifier moves
    the user to MEDIUM (fewer than two MEDIUM solves), and so does the strict
    one, since five EASY solves at 0.7 clear its first gate.
   */
  lemma FiveEasySolvesMoveToMedium()
    ensures var solved := [SolvedAt(Easy, 0.7, 1), SolvedAt(Easy, 0.8, 2), SolvedAt(Easy, 0.9, 3),
                           SolvedAt(Easy, 0.7, 4), SolvedAt(Easy, 1.0, 5)];
            AnalyzeUserSkillLevel(solved) == Medium && CalculateRecommendedDifficulty(solved) == Medium
  {
    var solved := [SolvedAt(Easy, 0.7, 1), SolvedAt(Easy, 0.8, 2), SolvedAt(Easy, 0.9, 3),
                   SolvedAt(Easy, 0.7, 4), SolvedAt(Easy, 1.0, 5)];
    var e := TierStats(solved, Easy);
    assert e == GroupStats(5, 4.1);
    assert TierStats(solved, Medium).count == 0;
  }
}
