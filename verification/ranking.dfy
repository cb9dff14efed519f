/**
  The two recommendation paths and the topic query. The repositories become
  inputs: `catalog` is every problem (in repository order), `solved` the
  user's SOLVED records and `inProgress` the user's IN_PROGRESS records.
 */
module Ranking {
  import opened Base
  import opened Domain
  import opened Sorting
  import opened SkillAnalysis
  import opened Heuristics

  // ---------------------------------------------------------------------
  // Scored ("enhanced") path
  // ---------------------------------------------------------------------

  /** Weights of the three signals in a candidate's total. */
  const SPACED_WEIGHT: real := 0.5
  const TOPIC_WEIGHT: real := 0.4
  const DIFFICULTY_WEIGHT: real := 0.3

  /** Why a problem was recommended. */
  datatype Signal = Review | FocusArea(topic: string) | MatchesLevel

  function Phrase(s: Signal): string
  {
    match s
    case Review => "Time to review this problem. "
    case FocusArea(topic) => "Focus area: " + topic + ". "
    case MatchesLevel => "Matches your current skill level. "
  }

  function Phrases(signals: seq<Signal>): string
  {
    if |signals| == 0 then "" else Phrase(signals[0]) + Phrases(signals[1..])
  }

  /** Drops the leading characters at or below the space, as `String.trim` does. */
  function TrimStart(s: string): (r: string)
    ensures |r| <= |s| && r == s[|s| - |r|..]
    ensures forall i :: 0 <= i < |s| - |r| ==> s[i] <= ' '
    ensures |r| > 0 ==> r[0] > ' '
  {
    if |s| > 0 && s[0] <= ' ' then TrimStart(s[1..]) else s
  }

  /** Drops the trailing characters at or below the space, as `String.trim` does. */
  function TrimEnd(s: string): (r: string)
    ensures |r| <= |s| && r == s[..|r|]
    ensures forall i :: |r| <= i < |s| ==> s[i] <= ' '
    ensures |r| > 0 ==> r[|r| - 1] > ' '
  {
    if |s| > 0 && s[|s| - 1] <= ' ' then TrimEnd(s[..|s| - 1]) else s
  }

  /**
    `r` is `s` with blanks (characters at or below the space) cut from both
    ends and nothing else: a contiguous piece of `s` whose ends are not
    blank, with only blanks before and after it.
   */
  predicate TrimmedFrom(r: string, s: string)
  {
    && (exists i, j :: 0 <= i <= j <= |s| && CutAt(r, s, i, j))
    && (|r| > 0 ==> r[0] > ' ' && r[|r| - 1] > ' ')
  }

  /** `r` is `s[i..j]`, and everything before `i` and from `j` on is blank. */
  predicate CutAt(r: string, s: string, i: int, j: int)
  {
    && 0 <= i <= j <= |s| && r == s[i..j]
    && (forall k :: 0 <= k < i ==> s[k] <= ' ')
    && (forall k :: j <= k < |s| ==> s[k] <= ' ')
  }

  /** Trimming the start and then the end trims `s` on both sides. */
  lemma TrimBothEnds(s: string)
    ensures TrimmedFrom(TrimEnd(TrimStart(s)), s)
  {
    var front := TrimStart(s);
    BlankCutsCompose(s, front, TrimEnd(front));
  }

  /** A blank-only cut from the front followed by a blank-only cut from the back. */
  lemma BlankCutsCompose(s: string, front: string, r: string)
    requires |front| <= |s| && front == s[|s| - |front|..]
    requires forall k :: 0 <= k < |s| - |front| ==> s[k] <= ' '
    requires |r| <= |front| && r == front[..|r|]
    requires forall k :: |r| <= k < |front| ==> front[k] <= ' '
    ensures CutAt(r, s, |s| - |front|, |s| - |front| + |r|)
  {
    var i := |s| - |front|;
    forall k | i + |r| <= k < |s| ensures s[k] <= ' ' {
      assert s[k] == front[k - i];
    }
  }

  /** The rationale: the phrases in order, trimmed as `String.trim` does. */
  function Reason(signals: seq<Signal>): (r: string)
    ensures TrimmedFrom(r, Phrases(signals))
  {
    TrimBothEnds(Phrases(signals));
    TrimEnd(TrimStart(Phrases(signals)))
  }

  /** A problem due for review is given exactly the review phrase, trailing space trimmed. */
  lemma ReviewReason()
    ensures Reason([Review]) == "Time to review this problem."
  {
    var all := Phrases([Review]);
    assert all == "Time to review this problem. " + "";
    var trimmed := all[..|all| - 1];
    assert TrimStart(all) == all;
    assert TrimEnd(trimmed) == trimmed;
  }

  /** The part the topic signal adds: only a weakness above 0.3 counts. */
  function TopicContribution(topicScore: real): real
  {
    if topicScore > 0.3 then TOPIC_WEIGHT * topicScore else 0.0
  }

  /**
    Scores one catalog problem. In-progress problems are skipped. A problem
    due for review scores half its spaced-repetition value and nothing else;
    an unsolved problem scores its weighted topic weakness plus its weighted
    difficulty fit; a solved problem not due for review is dropped.
   */
  function ScoreCandidate(problem: Problem, solved: seq<UserProgress>, inProgressIds: set<ProblemId>, now: Instant)
    : (r: Option<RecommendationResult>)
    ensures problem.id in inProgressIds ==> r.None?
    ensures r.Some? ==> r.value.problem == problem && 0.0 < r.value.score <= 0.7
    ensures problem.id !in inProgressIds && problem.id !in ProblemIds(solved) ==>
      && r.Some?
      && r.value.score >= DIFFICULTY_WEIGHT * 0.2
      && r.value.score == TopicContribution(CalculateTopicScore(problem, solved))
                          + DIFFICULTY_WEIGHT * CalculateDifficultyScore(problem, solved)
    ensures problem.id !in inProgressIds && problem.id in ProblemIds(solved) ==>
      var spaced := CalculateSpacedRepetitionScore(problem, solved, now);
      && (r.Some? <==> spaced > 0.0)
      && (r.Some? ==> r.value.score == SPACED_WEIGHT * spaced)
    ensures problem.id !in inProgressIds && CalculateSpacedRepetitionScore(problem, solved, now) > 0.0 ==>
      r.Some? && r.value.reason == "Time to review this problem."
    ensures problem.id !in inProgressIds && problem.id !in ProblemIds(solved) ==>
      r.Some? && r.value.reason
        == Reason((if CalculateTopicScore(problem, solved) > 0.3 then [FocusArea(problem.topic)] else [])
                  + (if CalculateDifficultyScore(problem, solved) > 0.5 then [MatchesLevel] else []))
  {
    ReviewReason();
    if problem.id in inProgressIds then None
    else
      var isSolved := problem.id in ProblemIds(solved);
      var spaced := CalculateSpacedRepetitionScore(problem, solved, now);
      if spaced > 0.0 then
        Some(RecommendationResult(problem, Reason([Review]), SPACED_WEIGHT * spaced))
      else if !isSolved then
        var topic := CalculateTopicScore(problem, solved);
        var difficulty := CalculateDifficultyScore(problem, solved);
        var score := TopicContribution(topic) + DIFFICULTY_WEIGHT * difficulty;
        var signals := (if topic > 0.3 then [FocusArea(problem.topic)] else [])
                       + (if difficulty > 0.5 then [MatchesLevel] else []);
        if score > 0.0 then Some(RecommendationResult(problem, Reason(signals), score))
        else None
      else None
  }

  /** The scored candidates, in catalog order. */
  function Candidates(catalog: seq<Problem>, solved: seq<UserProgress>, inProgressIds: set<ProblemId>, now: Instant)
    : (cs: seq<RecommendationResult>)
    ensures forall c :: c in cs ==> c.problem in catalog && ScoreCandidate(c.problem, solved, inProgressIds, now) == Some(c)
    ensures forall p :: p in catalog && ScoreCandidate(p, solved, inProgressIds, now).Some? ==>
      ScoreCandidate(p, solved, inProgressIds, now).value in cs
  {
    if |catalog| == 0 then []
    else
      var rest := Candidates(catalog[1..], solved, inProgressIds, now);
      var here := ScoreCandidate(catalog[0], solved, inProgressIds, now);
      var cs := if here.Some? then [here.value] + rest else rest;
      forall c | c in cs
        ensures c.problem in catalog && ScoreCandidate(c.problem, solved, inProgressIds, now) == Some(c)
      {
        if c !in rest {
          assert c == here.value;
        }
      }
      forall p | p in catalog && ScoreCandidate(p, solved, inProgressIds, now).Some?
        ensures ScoreCandidate(p, solved, inProgressIds, now).value in cs
      {
        if p != catalog[0] {
          assert p in catalog[1..];
        }
      }
      cs
  }

  /**
    Scoring goes problem by problem: the candidates of a split catalog are
    those of the first part followed by those of the second.
   */
  lemma {:induction false} CandidatesDistribute(front: seq<Problem>, back: seq<Problem>, solved: seq<UserProgress>,
                                                inProgressIds: set<ProblemId>, now: Instant)
    ensures Candidates(front + back, solved, inProgressIds, now)
            == Candidates(front, solved, inProgressIds, now) + Candidates(back, solved, inProgressIds, now)
  {
    if |front| > 0 {
      assert (front + back)[0] == front[0];
      assert (front + back)[1..] == front[1..] + back;
      CandidatesDistribute(front[1..], back, solved, inProgressIds, now);
    } else {
      assert front + back == back;
    }
  }

  /** A one-problem catalog yields its scored result if kept, and nothing otherwise. */
  lemma CandidatesOfOne(p: Problem, solved: seq<UserProgress>, inProgressIds: set<ProblemId>, now: Instant)
    ensures Candidates([p], solved, inProgressIds, now)
            == match ScoreCandidate(p, solved, inProgressIds, now)
               case Some(c) => [c]
               case None => []
  {
    assert [p][1..] == [];
  }

  /** Every problem neither solved nor in progress (a given-up one, say) is a candidate. */
  lemma UnsolvedIsCandidate(catalog: seq<Problem>, solved: seq<UserProgress>, inProgressIds: set<ProblemId>,
                            now: Instant, p: Problem)
    requires p in catalog && p.id !in inProgressIds && p.id !in ProblemIds(solved)
    ensures exists c :: c in Candidates(catalog, solved, inProgressIds, now) && c.problem == p
  {
    var c := ScoreCandidate(p, solved, inProgressIds, now).value;
    assert c in Candidates(catalog, solved, inProgressIds, now);
  }

  function ScoreOf(r: RecommendationResult): real { r.score }

  /**
    The scored recommendations computed afresh: candidates sorted by score,
    highest first, cut to `limit`. No in-progress problem appears, a solved
    problem appears only when due for review, every score is in (0, 0.7],
    and no candidate left out outscores one returned. A negative limit throws.
   */
  function RankRecommendations(catalog: seq<Problem>, solved: seq<UserProgress>, inProgress: seq<UserProgress>,
                               now: Instant, limit: int)
    : (r: Result<seq<RecommendationResult>>)
    ensures r.Ok? <==> limit >= 0
    ensures r.Ok? ==>
      var cs := Candidates(catalog, solved, ProblemIds(inProgress), now);
      && |r.value| == Min(limit, |cs|)
      && SortedDesc(r.value, ScoreOf)
      && multiset(r.value) <= multiset(cs)
      && (forall x :: x in r.value ==>
            && x.problem in catalog
            && x.problem.id !in ProblemIds(inProgress)
            && 0.0 < x.score <= 0.7
            && (x.problem.id in ProblemIds(solved) ==>
                  x.score == SPACED_WEIGHT * CalculateSpacedRepetitionScore(x.problem, solved, now)))
      && (forall c, x :: c in cs && c !in r.value && x in r.value ==> c.score <= x.score)
  {
    if limit < 0 then Err(IllegalArgument("maxSize must not be negative"))
    else
      var cs := Candidates(catalog, solved, ProblemIds(inProgress), now);
      var top := TopK(cs, ScoreOf, limit);
      forall x | x in top
        ensures x.problem in catalog && x.problem.id !in ProblemIds(inProgress) && 0.0 < x.score <= 0.7
        ensures x.problem.id in ProblemIds(solved) ==>
                  x.score == SPACED_WEIGHT * CalculateSpacedRepetitionScore(x.problem, solved, now)
      {
        assert x in cs;
        assert ScoreCandidate(x.problem, solved, ProblemIds(inProgress), now) == Some(x);
      }
      forall c, x | c in cs && c !in top && x in top ensures c.score <= x.score {
        assert ScoreOf(c) <= ScoreOf(x);
      }
      Ok(top)
  }

  /**
    A ranking cut to `limit` is the corresponding prefix of the ranking of
    every candidate.
   */
  lemma RankingIsPrefixOfFullRanking(catalog: seq<Problem>, solved: seq<UserProgress>, inProgress: seq<UserProgress>,
                                     now: Instant, limit: int)
    requires limit >= 0
    ensures var all := Candidates(catalog, solved, ProblemIds(inProgress), now);
            var full := RankRecommendations(catalog, solved, inProgress, now, |all|).value;
            && |full| == |all|
            && RankRecommendations(catalog, solved, inProgress, now, limit).value == full[..Min(limit, |all|)]
  {
    var all := Candidates(catalog, solved, ProblemIds(inProgress), now);
    var sorted := SortDesc(all, ScoreOf);
    assert |sorted| == |multiset(sorted)| == |all|;
    assert TopK(all, ScoreOf, |all|) == sorted[..|all|] == sorted;
    assert RankRecommendations(catalog, solved, inProgress, now, |all|) == Ok(sorted);
    assert TopK(all, ScoreOf, limit) == sorted[..Min(limit, |all|)];
    assert RankRecommendations(catalog, solved, inProgress, now, limit) == Ok(sorted[..Min(limit, |all|)]);
  }

  // ---------------------------------------------------------------------
  // Simple path
  // ---------------------------------------------------------------------

  /** The catalog problems of tier `d` whose ids are not excluded. */
  function UnseenOfTier(catalog: seq<Problem>, d: Difficulty, excluded: set<ProblemId>): seq<Problem>
  {
    Filter(catalog, (p: Problem) => p.difficulty == d && p.id !in excluded)
  }

  /** The catalog problems whose ids are not excluded, of any tier. */
  function Unseen(catalog: seq<Problem>, excluded: set<ProblemId>): seq<Problem>
  {
    Filter(catalog, (p: Problem) => p.id !in excluded)
  }

  /** The unseen problems split exactly into the three tiers. */
  lemma {:induction false} UnseenSplitsByTier(catalog: seq<Problem>, excluded: set<ProblemId>)
    ensures |Unseen(catalog, excluded)| ==
            |UnseenOfTier(catalog, Easy, excluded)| + |UnseenOfTier(catalog, Medium, excluded)|
            + |UnseenOfTier(catalog, Hard, excluded)|
  {
    if |catalog| > 0 {
      UnseenSplitsByTier(catalog[1..], excluded);
    }
  }

  /** The tier order of the backfill loop. */
  const BACKFILL_ORDER: seq<Difficulty> := [Easy, Medium, Hard]

  /**
    Appends whole tiers other than the recommended one, in the given order,
    stopping as soon as the pool holds at least `limit` problems.
   */
  function Backfill(pool: seq<Problem>, tiers: seq<Difficulty>, recommended: Difficulty,
                    catalog: seq<Problem>, excluded: set<ProblemId>, limit: int): seq<Problem>
    decreases |tiers|
  {
    if |tiers| == 0 then pool
    else if tiers[0] == recommended then Backfill(pool, tiers[1..], recommended, catalog, excluded, limit)
    else
      var grown := pool + UnseenOfTier(catalog, tiers[0], excluded);
      if |grown| >= limit then grown
      else Backfill(grown, tiers[1..], recommended, catalog, excluded, limit)
  }

  /** How many unseen problems the tiers other than `recommended` hold together. */
  function OtherTiersSize(tiers: seq<Difficulty>, recommended: Difficulty,
                          catalog: seq<Problem>, excluded: set<ProblemId>): nat
  {
    if |tiers| == 0 then 0
    else (if tiers[0] == recommended then 0 else |UnseenOfTier(catalog, tiers[0], excluded)|)
         + OtherTiersSize(tiers[1..], recommended, catalog, excluded)
  }

  /**
    The backfill only adds unseen catalog problems of tiers other than the
    recommended one; it either reaches `limit` or adds every such tier.
   */
  lemma {:induction false} BackfillFacts(pool: seq<Problem>, tiers: seq<Difficulty>, recommended: Difficulty,
                                         catalog: seq<Problem>, excluded: set<ProblemId>, limit: int)
    ensures var b := Backfill(pool, tiers, recommended, catalog, excluded, limit);
      && (forall p :: p in b ==> p in pool || (p in catalog && p.id !in excluded && p.difficulty != recommended))
      && |b| <= |pool| + OtherTiersSize(tiers, recommended, catalog, excluded)
      && (|b| >= limit || |b| == |pool| + OtherTiersSize(tiers, recommended, catalog, excluded))
      && |pool| <= |b| && b[..|pool|] == pool
    decreases |tiers|
  {
    if |tiers| > 0 {
      if tiers[0] == recommended {
        BackfillFacts(pool, tiers[1..], recommended, catalog, excluded, limit);
      } else {
        var grown := pool + UnseenOfTier(catalog, tiers[0], excluded);
        BackfillFacts(grown, tiers[1..], recommended, catalog, excluded, limit);
        var b := Backfill(pool, tiers, recommended, catalog, excluded, limit);
        assert b[..|grown|] == grown;
        assert b[..|pool|] == b[..|grown|][..|pool|];
      }
    }
  }

  /** The problems the simple path sorts: the recommended tier, backfilled when short. */
  function CandidatePool(catalog: seq<Problem>, excluded: set<ProblemId>, recommended: Difficulty, limit: int)
    : seq<Problem>
  {
    var pool := UnseenOfTier(catalog, recommended, excluded);
    if |pool| < limit then Backfill(pool, BACKFILL_ORDER, recommended, catalog, excluded, limit) else pool
  }

  /**
    The pool holds only unseen catalog problems, and as many as `limit` asks
    for whenever the catalog has that many unseen problems at all.
   */
  lemma CandidatePoolFacts(catalog: seq<Problem>, excluded: set<ProblemId>, recommended: Difficulty, limit: int)
    ensures var pool := CandidatePool(catalog, excluded, recommended, limit);
      && (forall p :: p in pool ==> p in catalog && p.id !in excluded)
      && Min(limit, |pool|) == Min(limit, |Unseen(catalog, excluded)|)
  {
    var tier := UnseenOfTier(catalog, recommended, excluded);
    UnseenSplitsByTier(catalog, excluded);
    BackfillFacts(tier, BACKFILL_ORDER, recommended, catalog, excluded, limit);
    assert OtherTiersSize(BACKFILL_ORDER[2..], recommended, catalog, excluded)
           == (if Hard == recommended then 0 else |UnseenOfTier(catalog, Hard, excluded)|);
    assert BACKFILL_ORDER[1..][1..] == BACKFILL_ORDER[2..];
  }

  /**
    The pool in closed form: the recommended tier alone when it holds
    `limit` problems; otherwise the first other tier in EASY, MEDIUM, HARD
    order is appended whole, and the second one only if the pool is still
    short after that.
   */
  lemma CandidatePoolFollowsTierOrder(catalog: seq<Problem>, excluded: set<ProblemId>, recommended: Difficulty,
                                      limit: int)
    ensures var own := UnseenOfTier(catalog, recommended, excluded);
            var first := UnseenOfTier(catalog, if recommended == Easy then Medium else Easy, excluded);
            var second := UnseenOfTier(catalog, if recommended == Hard then Medium else Hard, excluded);
            CandidatePool(catalog, excluded, recommended, limit)
            == if |own| >= limit then own
               else if |own| + |first| >= limit then own + first
               else own + first + second
  {
    var own := UnseenOfTier(catalog, recommended, excluded);
    if |own| < limit {
      var order := BACKFILL_ORDER;
      assert order[1..][1..] == [Hard] && order[1..] == [Medium, Hard];
      assert [Hard][1..] == [];
    }
  }

  function AcceptanceOf(p: Problem): real { p.acceptanceRate }

  /**
    The simple recommendations: unseen problems of the coarse tier, backfilled
    from the other tiers when short, sorted by acceptance rate (highest
    first) and cut to `limit`. Nothing solved or in progress is returned, and
    exactly `limit` problems come back whenever the catalog has that many
    unseen. A negative limit throws.
   */
  function GetRecommendedProblems(catalog: seq<Problem>, solved: seq<UserProgress>, inProgress: seq<UserProgress>,
                                  limit: int)
    : (r: Result<seq<Problem>>)
    ensures r.Ok? <==> limit >= 0
    ensures r.Ok? ==>
      var excluded := ProblemIds(solved) + ProblemIds(inProgress);
      var recommended := AnalyzeUserSkillLevel(solved);
      var pool := CandidatePool(catalog, excluded, recommended, limit);
      && |r.value| == Min(limit, |Unseen(catalog, excluded)|)
      && multiset(r.value) <= multiset(pool)
      && SortedDesc(r.value, AcceptanceOf)
      && (forall p :: p in r.value ==>
            p in catalog && p.id !in ProblemIds(solved) && p.id !in ProblemIds(inProgress))
      && (|UnseenOfTier(catalog, recommended, excluded)| >= limit ==>
            forall p :: p in r.value ==> p.difficulty == recommended)
      && (forall c, p :: c in pool && c !in r.value && p in r.value ==> c.acceptanceRate <= p.acceptanceRate)
  {
    var excluded := ProblemIds(solved) + ProblemIds(inProgress);
    var recommended := AnalyzeUserSkillLevel(solved);
    var pool := CandidatePool(catalog, excluded, recommended, limit);
    CandidatePoolFacts(catalog, excluded, recommended, limit);
    if limit < 0 then Err(IllegalArgument("maxSize must not be negative"))
    else
      var top := TopK(pool, AcceptanceOf, limit);
      assert |top| == Min(limit, |Unseen(catalog, excluded)|);
      forall p | p in top
        ensures p in catalog && p.id !in ProblemIds(solved) && p.id !in ProblemIds(inProgress)
      {
        assert p in pool;
      }
      assert |UnseenOfTier(catalog, recommended, excluded)| >= limit ==>
             forall p :: p in top ==> p.difficulty == recommended by {
        if |UnseenOfTier(catalog, recommended, excluded)| >= limit {
          assert pool == UnseenOfTier(catalog, recommended, excluded);
          forall p | p in top ensures p.difficulty == recommended {
            assert p in pool;
          }
        }
      }
      forall c, p | c in pool && c !in top && p in top ensures c.acceptanceRate <= p.acceptanceRate {
        assert AcceptanceOf(c) <= AcceptanceOf(p);
      }
      Ok(top)
  }

  /**
    The backfill follows the tier order, not closeness: when HARD is
    recommended but short, EASY problems fill the gap first, and if they
    suffice no MEDIUM problem is returned.
   */
  lemma HardBackfillSkipsMedium(catalog: seq<Problem>, solved: seq<UserProgress>, inProgress: seq<UserProgress>,
                                limit: int)
    requires AnalyzeUserSkillLevel(solved) == Hard
    requires var excluded := ProblemIds(solved) + ProblemIds(inProgress);
      |UnseenOfTier(catalog, Hard, excluded)| < limit
      <= |UnseenOfTier(catalog, Hard, excluded)| + |UnseenOfTier(catalog, Easy, excluded)|
    ensures GetRecommendedProblems(catalog, solved, inProgress, limit).Ok?
    ensures forall p :: p in GetRecommendedProblems(catalog, solved, inProgress, limit).value ==>
      p.difficulty != Medium
  {
    var excluded := ProblemIds(solved) + ProblemIds(inProgress);
    var pool := CandidatePool(catalog, excluded, Hard, limit);
    assert pool == UnseenOfTier(catalog, Hard, excluded) + UnseenOfTier(catalog, Easy, excluded);
    forall p | p in pool ensures p.difficulty != Medium {
      if p in UnseenOfTier(catalog, Hard, excluded) {} else {}
    }
  }

  // ---------------------------------------------------------------------
  // Topic query
  // ---------------------------------------------------------------------

  function AsciiLower(c: char): char
  {
    if 'A' <= c <= 'Z' then (c as int + 32) as char else c
  }

  /** Case-insensitive topic equality (ASCII letters fold). */
  predicate EqualsIgnoreCase(a: string, b: string)
  {
    |a| == |b| && forall i :: 0 <= i < |a| ==> AsciiLower(a[i]) == AsciiLower(b[i])
  }

  function InTopicUnsolved(catalog: seq<Problem>, topic: string, solvedIds: set<ProblemId>): seq<Problem>
  {
    Filter(catalog, (p: Problem) => EqualsIgnoreCase(p.topic, topic) && p.id !in solvedIds)
  }

  /**
    The problems of a topic (matched case-insensitively) that the user has
    not solved, in catalog order, cut to `limit`. In-progress problems are
    not excluded here. A negative limit throws.
   */
  function GetProblemsByTopic(catalog: seq<Problem>, solved: seq<UserProgress>, topic: string, limit: int)
    : (r: Result<seq<Problem>>)
    ensures r.Ok? <==> limit >= 0
    ensures r.Ok? ==>
      var matching := InTopicUnsolved(catalog, topic, ProblemIds(solved));
      && |r.value| == Min(limit, |matching|)
      && r.value == matching[..|r.value|]
      && forall p :: p in r.value ==>
           p in catalog && EqualsIgnoreCase(p.topic, topic) && p.id !in ProblemIds(solved)
  {
    var matching := InTopicUnsolved(catalog, topic, ProblemIds(solved));
    var r := Limit(matching, limit);
    if r.Ok? then
      assert forall p :: p in r.value ==> p in matching;
      r
    else r
  }

  /**
    The topic query keeps catalog order: splitting the catalog anywhere, the
    matches from the first part all come before those from the second.
   */
  lemma TopicQueryKeepsCatalogOrder(front: seq<Problem>, back: seq<Problem>, topic: string, solvedIds: set<ProblemId>)
    ensures InTopicUnsolved(front + back, topic, solvedIds)
            == InTopicUnsolved(front, topic, solvedIds) + InTopicUnsolved(back, topic, solvedIds)
  {
    FilterDistributes(front, back, (p: Problem) => EqualsIgnoreCase(p.topic, topic) && p.id !in solvedIds);
  }
}
