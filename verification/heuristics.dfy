/**
  The three per-problem signals of the scored recommendation path: topic
  weakness, spaced repetition and difficulty fit.
 */
module Heuristics {
  import opened Base
  import opened Domain
  import opened SkillAnalysis

  /** The solved records in the problem's topic (topics compare exactly). */
  function TopicStats(solved: seq<UserProgress>, topic: string): GroupStats
  {
    StatsWhere(solved, (r: UserProgress) => r.problem.topic == topic)
  }

  lemma {:induction false} NoTopicSolvesMeansNoneInTopic(solved: seq<UserProgress>, topic: string)
    ensures TopicStats(solved, topic).count == 0 <==>
            forall i :: 0 <= i < |solved| ==> solved[i].problem.topic != topic
  {
    if |solved| > 0 {
      NoTopicSolvesMeansNoneInTopic(solved[1..], topic);
      assert forall i :: 1 <= i < |solved| ==> solved[i] == solved[1..][i - 1];
    }
  }

  /**
    Topic weakness: an untouched topic scores 1.0, a topic with one or two
    solves 0.8, a topic solved three or more times with average confidence
    below 0.6 scores 0.6, and a well-practised topic 0.
   */
  function CalculateTopicScore(problem: Problem, solved: seq<UserProgress>): (s: real)
    ensures s in {0.0, 0.6, 0.8, 1.0}
    ensures s == 1.0 <==> forall i :: 0 <= i < |solved| ==> solved[i].problem.topic != problem.topic
    ensures s == 0.8 <==> 0 < TopicStats(solved, problem.topic).count < 3
    ensures s == 0.6 <==>
      TopicStats(solved, problem.topic).count >= 3 && Average(TopicStats(solved, problem.topic)) < 0.6
    ensures s == 0.0 <==>
      TopicStats(solved, problem.topic).count >= 3 && Average(TopicStats(solved, problem.topic)) >= 0.6
  {
    NoTopicSolvesMeansNoneInTopic(solved, problem.topic);
    var g := TopicStats(solved, problem.topic);
    if g.count == 0 then 1.0
    else if g.count < 3 then 0.8
    else if Average(g) < 0.6 then 0.6
    else 0.0
  }

  /** The first record in `solved` about problem `id` (`findFirst`). */
  function FindFirst(solved: seq<UserProgress>, id: ProblemId): (r: Option<UserProgress>)
    ensures r.None? <==> id !in ProblemIds(solved)
    ensures r.Some? ==> exists i :: 0 <= i < |solved| && solved[i] == r.value
                          && r.value.problem.id == id
                          && forall j :: 0 <= j < i ==> solved[j].problem.id != id
  {
    if |solved| == 0 then None
    else if solved[0].problem.id == id then
      assert solved[0] in solved;
      Some(solved[0])
    else
      var r := FindFirst(solved[1..], id);
      IdBeyondHead(solved, id);
      if r.Some? then
        var i :| 0 <= i < |solved[1..]| && solved[1..][i] == r.value
                 && forall j :: 0 <= j < i ==> solved[1..][j].problem.id != id;
        assert solved[i + 1] == r.value;
        assert forall j :: 1 <= j < i + 1 ==> solved[j] == solved[1..][j - 1];
        r
      else r
  }

  /** An id other than the head's occurs in the list iff it occurs in the tail. */
  lemma IdBeyondHead(solved: seq<UserProgress>, id: ProblemId)
    requires |solved| > 0 && solved[0].problem.id != id
    ensures id in ProblemIds(solved) <==> id in ProblemIds(solved[1..])
  {
    if id in ProblemIds(solved) {
      var r :| r in solved && r.problem.id == id;
      var k :| 0 <= k < |solved| && solved[k] == r;
      assert solved[1..][k - 1] == r;
    }
    if id in ProblemIds(solved[1..]) {
      var r :| r in solved[1..] && r.problem.id == id;
      assert r in solved;
    }
  }

  /**
    The review ramp by whole days since the solve: nothing before day 7, a
    linear climb (d - 7) / 23 from 0 at day 7 to 1 at day 30, and a flat 0.5
    afterwards.
   */
  function SpacedRamp(days: int): (s: real)
    ensures 0.0 <= s <= 1.0
    ensures s > 0.0 <==> days >= 8
    ensures s == 1.0 <==> days == 30
    ensures 7 <= days <= 30 ==> s == (days - 7) as real / 23.0
    ensures days > 30 ==> s == 0.5
  {
    if 7 <= days <= 30 then MinReal(1.0, (days - 7) as real / 23.0)
    else if days > 30 then 0.5
    else 0.0
  }

  /** Within the review window the ramp rises with the days since the solve. */
  lemma SpacedRampMonotoneInWindow(d1: int, d2: int)
    requires 7 <= d1 <= d2 <= 30
    ensures SpacedRamp(d1) <= SpacedRamp(d2)
  {
    assert (d1 - 7) as real / 23.0 <= (d2 - 7) as real / 23.0;
  }

  /** The ramp's edges: 0 at day 7 (inclusive bound, zero value) and 1 at day 30. */
  lemma SpacedRampEdges()
    ensures SpacedRamp(6) == 0.0 && SpacedRamp(7) == 0.0 && SpacedRamp(8) == 1.0 / 23.0
    ensures SpacedRamp(30) == 1.0 && SpacedRamp(31) == 0.5
  {
  }

  /**
    Spaced repetition: only a problem whose first solved record carries a
    solve time can score, and then by the ramp of the whole days since.
   */
  function CalculateSpacedRepetitionScore(problem: Problem, solved: seq<UserProgress>, now: Instant): (s: real)
    ensures 0.0 <= s <= 1.0
    ensures problem.id !in ProblemIds(solved) ==> s == 0.0
    ensures s > 0.0 <==>
      var r := FindFirst(solved, problem.id);
      r.Some? && r.value.solvedAt.Some? && DaysBetween(r.value.solvedAt.value, now) >= 8
    ensures var r := FindFirst(solved, problem.id);
      r.Some? && r.value.solvedAt.Some? ==>
        var d := DaysBetween(r.value.solvedAt.value, now);
        && (7 <= d <= 30 ==> s == (d - 7) as real / 23.0)
        && (d > 30 ==> s == 0.5)
  {
    var r := FindFirst(solved, problem.id);
    if r.Some? && r.value.solvedAt.Some? then SpacedRamp(DaysBetween(r.value.solvedAt.value, now))
    else 0.0
  }

  /**
    Difficulty fit of a problem's tier against a recommended tier: 1.0 on the
    tier, 0.6 one tier away, 0.2 two tiers away.
   */
  function DifficultyFit(problemTier: Difficulty, recommended: Difficulty): (s: real)
    ensures s in {0.2, 0.6, 1.0}
    ensures s == 1.0 <==> problemTier == recommended
    ensures s == 0.6 <==> problemTier.Ordinal() - recommended.Ordinal() in {-1, 1}
    ensures s == 0.2 <==> {problemTier, recommended} == {Easy, Hard}
  {
    if problemTier == recommended then 1.0
    else if problemTier.Ordinal() - recommended.Ordinal() in {-1, 1} then 0.6
    else 0.2
  }

  /** The fit does not depend on the direction of the gap. */
  lemma DifficultyFitSymmetric(a: Difficulty, b: Difficulty)
    ensures DifficultyFit(a, b) == DifficultyFit(b, a)
  {
  }

  /** The difficulty fit against the strict progression tier of the solved list. */
  function CalculateDifficultyScore(problem: Problem, solved: seq<UserProgress>): (s: real)
    ensures s in {0.2, 0.6, 1.0}
    ensures s == 1.0 <==> problem.difficulty == CalculateRecommendedDifficulty(solved)
    ensures s == 0.6 <==> problem.difficulty.Ordinal() - CalculateRecommendedDifficulty(solved).Ordinal() in {-1, 1}
    ensures s == 0.2 <==> {problem.difficulty, CalculateRecommendedDifficulty(solved)} == {Easy, Hard}
  {
    DifficultyFit(problem.difficulty, CalculateRecommendedDifficulty(solved))
  }
}
