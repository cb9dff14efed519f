/**
  The progress tracker: the per-(user, problem) state machine and the
  confidence score computed when a problem is solved. The progress repository
  is a map from (user, problem id) to the stored record; every operation
  returns the saved record together with the repository after the save.
 */
module ProgressTracking {
  import opened Base
  import opened Domain

  type Key = (UserId, ProblemId)
  type ProgressStore = map<Key, UserProgress>

  /** Confidence starts from 1.0 and loses this much per attempt after the first. */
  const ATTEMPT_PENALTY: real := 0.15
  /** ... this much per hint used. */
  const HINT_PENALTY: real := 0.2
  /** ... this much when more than 45 minutes were spent. */
  const SLOW_PENALTY: real := 0.1
  /** ... and this much more when more than 90 minutes were spent. */
  const VERY_SLOW_PENALTY: real := 0.2

  function Clamp01(x: real): (c: real)
    ensures 0.0 <= c <= 1.0
    ensures 0.0 <= x <= 1.0 ==> c == x
    ensures x < 0.0 ==> c == 0.0
    ensures x > 1.0 ==> c == 1.0
  {
    MaxReal(0.0, MinReal(1.0, x))
  }

  function TimePenalty(timeSpentMinutes: Option<int32>): real
  {
    match timeSpentMinutes
    case None => 0.0
    case Some(t) =>
      (if t > 45 then SLOW_PENALTY else 0.0) + (if t > 90 then VERY_SLOW_PENALTY else 0.0)
  }

  /** The unclamped score; `attemptsCount - 1` is Java `int` arithmetic. */
  function RawConfidence(p: UserProgress): real
  {
    1.0
    - (Dec32(p.attemptsCount) as int as real) * ATTEMPT_PENALTY
    - (p.hintsUsed as int as real) * HINT_PENALTY
    - TimePenalty(p.timeSpentMinutes)
  }

  /** How confidently the problem was solved: always within [0, 1]. */
  function ConfidenceScore(p: UserProgress): (c: real)
    ensures 0.0 <= c <= 1.0
  {
    Clamp01(RawConfidence(p))
  }

  /** `t'` is at least as much time spent as `t` (no time recorded counts as least). */
  predicate NoLessTime(t: Option<int32>, t': Option<int32>)
  {
    t.None? || (t'.Some? && t.value <= t'.value)
  }

  /**
    Fewer attempts, fewer hints and less time mean more confidence: raising
    any of them never raises the score (attempt counts above the smallest
    `int`, where `attemptsCount - 1` does not wrap).
   */
  lemma ConfidenceMonotone(p: UserProgress, q: UserProgress)
    requires p.attemptsCount as int > INT32_MIN && p.attemptsCount <= q.attemptsCount
    requires p.hintsUsed <= q.hintsUsed
    requires NoLessTime(p.timeSpentMinutes, q.timeSpentMinutes)
    ensures ConfidenceScore(q) <= ConfidenceScore(p)
  {
    assert TimePenalty(p.timeSpentMinutes) <= TimePenalty(q.timeSpentMinutes);
    assert RawConfidence(q) <= RawConfidence(p);
  }

  /**
    A record whose counters are still at their field defaults (no attempt, no
    hint, no time) has a raw score of 1.15, which clamps to full confidence.
   */
  lemma ZeroAttemptsClampToOne(p: UserProgress)
    requires p.attemptsCount == 0 && p.hintsUsed == 0 && p.timeSpentMinutes.None?
    ensures RawConfidence(p) == 1.15
    ensures ConfidenceScore(p) == 1.0
  {
  }

  /** Five attempts and three hints give a negative raw score, which clamps to 0. */
  lemma HeavyPenaltiesClampToZero(p: UserProgress)
    requires p.attemptsCount == 5 && p.hintsUsed == 3
    ensures RawConfidence(p) < 0.0
    ensures ConfidenceScore(p) == 0.0
  {
    assert TimePenalty(p.timeSpentMinutes) >= 0.0;
  }

  /** Nothing but the record stored under `key` differs, and `key` is now stored. */
  ghost predicate OnlyKeyChanged(store: ProgressStore, store': ProgressStore, key: Key)
  {
    && store'.Keys == store.Keys + {key}
    && forall k :: k in store && k != key ==> store'[k] == store[k]
  }

  /**
    Starting a problem: a new record is IN_PROGRESS with one attempt; a
    NOT_STARTED record moves to IN_PROGRESS, counts one more attempt and is
    attempted now; any other record is returned as it is, without a save.
   */
  function StartProblem(store: ProgressStore, user: UserId, problem: Problem, now: Instant)
    : (r: (UserProgress, ProgressStore))
    ensures r.1 == store[(user, problem.id) := r.0]
    ensures OnlyKeyChanged(store, r.1, (user, problem.id))
    ensures (user, problem.id) !in store ==>
      r.0 == NewProgress(user, problem, InProgress, now)
    ensures (user, problem.id) in store && store[(user, problem.id)].status == NotStarted ==>
      var prior := store[(user, problem.id)];
      && r.0.status == InProgress
      && r.0.attemptsCount == Inc32(prior.attemptsCount)
      && r.0.attemptedAt == Some(now)
      && r.0.(status := NotStarted, attemptsCount := prior.attemptsCount, attemptedAt := prior.attemptedAt) == prior
    ensures (user, problem.id) in store && store[(user, problem.id)].status != NotStarted ==>
      r.0 == store[(user, problem.id)] && r.1 == store
  {
    var key := (user, problem.id);
    if key in store then
      var p := store[key];
      if p.status == NotStarted then
        var q := p.(status := InProgress, attemptedAt := Some(now), attemptsCount := Inc32(p.attemptsCount));
        (q, store[key := q])
      else
        assert store[key := p] == store;
        (p, store)
    else
      var q := NewProgress(user, problem, InProgress, now);
      (q, store[key := q])
  }

  /**
    Starting twice on a fresh pair: the first start creates the record with
    one attempt, the second leaves record and store as they were.
   */
  lemma StartIsIdempotentOnFreshPair(store: ProgressStore, user: UserId, problem: Problem, t1: Instant, t2: Instant)
    requires (user, problem.id) !in store
    ensures var (p1, s1) := StartProblem(store, user, problem, t1);
            var (p2, s2) := StartProblem(s1, user, problem, t2);
            p1.attemptsCount == 1 && p2 == p1 && s2 == s1
  {
  }

  /**
    Recording an attempt: an existing record counts one more attempt whatever
    its status and nothing else about it changes; a missing record is created
    IN_PROGRESS with one attempt.
   */
  function RecordAttempt(store: ProgressStore, user: UserId, problem: Problem, now: Instant)
    : (r: (UserProgress, ProgressStore))
    ensures r.1 == store[(user, problem.id) := r.0]
    ensures OnlyKeyChanged(store, r.1, (user, problem.id))
    ensures (user, problem.id) !in store ==> r.0 == NewProgress(user, problem, InProgress, now)
    ensures (user, problem.id) in store ==>
      var prior := store[(user, problem.id)];
      && r.0.attemptsCount == Inc32(prior.attemptsCount)
      && r.0.(attemptsCount := prior.attemptsCount) == prior
  {
    var key := (user, problem.id);
    var q := if key in store then store[key].(attemptsCount := Inc32(store[key].attemptsCount))
             else NewProgress(user, problem, InProgress, now);
    (q, store[key := q])
  }

  /**
    Using a hint: an existing record counts one more hint and nothing else
    about it changes; a missing record is created IN_PROGRESS with one
    attempt and one hint.
   */
  function UseHint(store: ProgressStore, user: UserId, problem: Problem, now: Instant)
    : (r: (UserProgress, ProgressStore))
    ensures r.1 == store[(user, problem.id) := r.0]
    ensures OnlyKeyChanged(store, r.1, (user, problem.id))
    ensures (user, problem.id) !in store ==>
      r.0.hintsUsed == 1 && r.0 == NewProgress(user, problem, InProgress, now).(hintsUsed := 1)
    ensures (user, problem.id) in store ==>
      var prior := store[(user, problem.id)];
      && r.0.hintsUsed == Inc32(prior.hintsUsed)
      && r.0.(hintsUsed := prior.hintsUsed) == prior
  {
    var key := (user, problem.id);
    var q := if key in store then store[key].(hintsUsed := Inc32(store[key].hintsUsed))
             else NewProgress(user, problem, InProgress, now).(hintsUsed := 1);
    (q, store[key := q])
  }

  /**
    The record a solve works on before its confidence is set: SOLVED, solved
    now, and with the supplied time when there is one.
   */
  function SolvedRecord(store: ProgressStore, user: UserId, problem: Problem,
                        timeSpentMinutes: Option<int32>, now: Instant): UserProgress
  {
    var key := (user, problem.id);
    var base :=
      if key in store then store[key].(status := Solved, solvedAt := Some(now))
      else NewProgress(user, problem, Solved, now).(solvedAt := Some(now));
    if timeSpentMinutes.Some? then base.(timeSpentMinutes := timeSpentMinutes) else base
  }

  /**
    Solving: the record becomes SOLVED at `now`, its time spent is replaced
    only when one is supplied, its counters are kept, and its confidence is
    the score of the record as saved.
   */
  function SolveProblem(store: ProgressStore, user: UserId, problem: Problem,
                        timeSpentMinutes: Option<int32>, now: Instant)
    : (r: (UserProgress, ProgressStore))
    ensures r.1 == store[(user, problem.id) := r.0]
    ensures OnlyKeyChanged(store, r.1, (user, problem.id))
    ensures r.0.status == Solved && r.0.solvedAt == Some(now)
    ensures r.0.confidenceScore == ConfidenceScore(r.0)
    ensures 0.0 <= r.0.confidenceScore <= 1.0
    ensures r.0.timeSpentMinutes ==
      if timeSpentMinutes.Some? then timeSpentMinutes
      else if (user, problem.id) in store then store[(user, problem.id)].timeSpentMinutes
      else None
    ensures (user, problem.id) in store ==>
      var prior := store[(user, problem.id)];
      && r.0.attemptsCount == prior.attemptsCount && r.0.hintsUsed == prior.hintsUsed
      && r.0.attemptedAt == prior.attemptedAt && r.0.isBookmarked == prior.isBookmarked
      && r.0.user == prior.user && r.0.problem == prior.problem
    ensures (user, problem.id) !in store ==>
      && r.0.user == user && r.0.problem == problem && !r.0.isBookmarked
      && r.0.attemptsCount == 1 && r.0.hintsUsed == 0 && r.0.attemptedAt == Some(now)
  {
    var p := SolvedRecord(store, user, problem, timeSpentMinutes, now);
    var q := p.(confidenceScore := ConfidenceScore(p));
    assert RawConfidence(q) == RawConfidence(p);
    (q, store[(user, problem.id) := q])
  }

  /**
    A first solve with no prior record scores by time alone: 1.0 up to 45
    minutes (or with no time given), 0.9 up to 90 minutes, 0.7 beyond.
   */
  lemma FreshSolveConfidence(store: ProgressStore, user: UserId, problem: Problem,
                             timeSpentMinutes: Option<int32>, now: Instant)
    requires (user, problem.id) !in store
    ensures var c := SolveProblem(store, user, problem, timeSpentMinutes, now).0.confidenceScore;
            && (timeSpentMinutes.None? || timeSpentMinutes.value <= 45 ==> c == 1.0)
            && (timeSpentMinutes.Some? && 45 < timeSpentMinutes.value <= 90 ==> c == 0.9)
            && (timeSpentMinutes.Some? && timeSpentMinutes.value > 90 ==> c == 0.7)
  {
    var p := SolvedRecord(store, user, problem, timeSpentMinutes, now);
    assert p.attemptsCount == 1 && p.hintsUsed == 0;
    assert RawConfidence(p) == 1.0 - TimePenalty(timeSpentMinutes);
  }

  /**
    Recording an attempt before solving never yields a higher confidence than
    solving straight away (attempt counts in the range where adding one does
    not wrap).
   */
  lemma AttemptBeforeSolveNeverRaisesConfidence(store: ProgressStore, user: UserId, problem: Problem,
                                                 timeSpentMinutes: Option<int32>, t1: Instant, t2: Instant)
    requires (user, problem.id) in store ==>
      INT32_MIN < store[(user, problem.id)].attemptsCount as int < INT32_MAX
    ensures var direct := SolveProblem(store, user, problem, timeSpentMinutes, t2).0;
            var (_, s1) := RecordAttempt(store, user, problem, t1);
            var after := SolveProblem(s1, user, problem, timeSpentMinutes, t2).0;
            after.confidenceScore <= direct.confidenceScore
  {
    var direct := SolvedRecord(store, user, problem, timeSpentMinutes, t2);
    var (_, s1) := RecordAttempt(store, user, problem, t1);
    var after := SolvedRecord(s1, user, problem, timeSpentMinutes, t2);
    ConfidenceMonotone(direct, after);
  }

  /**
    Using a hint before solving never yields a higher confidence than solving
    straight away (hint counts below the largest `int`).
   */
  lemma HintBeforeSolveNeverRaisesConfidence(store: ProgressStore, user: UserId, problem: Problem,
                                              timeSpentMinutes: Option<int32>, t1: Instant, t2: Instant)
    requires (user, problem.id) in store ==>
      && store[(user, problem.id)].attemptsCount as int > INT32_MIN
      && store[(user, problem.id)].hintsUsed as int < INT32_MAX
    ensures var direct := SolveProblem(store, user, problem, timeSpentMinutes, t2).0;
            var (_, s1) := UseHint(store, user, problem, t1);
            var after := SolveProblem(s1, user, problem, timeSpentMinutes, t2).0;
            after.confidenceScore <= direct.confidenceScore
  {
    var direct := SolvedRecord(store, user, problem, timeSpentMinutes, t2);
    var (_, s1) := UseHint(store, user, problem, t1);
    var after := SolvedRecord(s1, user, problem, timeSpentMinutes, t2);
    ConfidenceMonotone(direct, after);
  }

  /**
    Solving with an explicit confidence: a supplied value is clamped into
    [0, 1] and replaces the computed score; without one this is the plain
    solve. Every other field is as the plain solve sets it.
   */
  function SolveProblemWithConfidence(store: ProgressStore, user: UserId, problem: Problem,
                                      timeSpentMinutes: Option<int32>, confidence: Option<real>, now: Instant)
    : (r: (UserProgress, ProgressStore))
    ensures r.1 == store[(user, problem.id) := r.0]
    ensures OnlyKeyChanged(store, r.1, (user, problem.id))
    ensures 0.0 <= r.0.confidenceScore <= 1.0
    ensures confidence.None? ==> r == SolveProblem(store, user, problem, timeSpentMinutes, now)
    ensures confidence.Some? && 0.0 <= confidence.value <= 1.0 ==> r.0.confidenceScore == confidence.value
    ensures confidence.Some? && confidence.value < 0.0 ==> r.0.confidenceScore == 0.0
    ensures confidence.Some? && confidence.value > 1.0 ==> r.0.confidenceScore == 1.0
    ensures r.0.(confidenceScore := 0.0) ==
            SolveProblem(store, user, problem, timeSpentMinutes, now).0.(confidenceScore := 0.0)
  {
    var p := SolvedRecord(store, user, problem, timeSpentMinutes, now);
    var c := if confidence.Some? then Clamp01(confidence.value) else ConfidenceScore(p);
    var q := p.(confidenceScore := c);
    (q, store[(user, problem.id) := q])
  }

  /**
    Giving up: the record becomes GAVE_UP and keeps its counters, confidence,
    solve time and time spent; a missing record is created GAVE_UP with one
    attempt.
   */
  function GiveUpProblem(store: ProgressStore, user: UserId, problem: Problem, now: Instant)
    : (r: (UserProgress, ProgressStore))
    ensures r.1 == store[(user, problem.id) := r.0]
    ensures OnlyKeyChanged(store, r.1, (user, problem.id))
    ensures r.0.status == GaveUp
    ensures (user, problem.id) !in store ==> r.0 == NewProgress(user, problem, GaveUp, now)
    ensures (user, problem.id) in store ==>
      r.0.(status := store[(user, problem.id)].status) == store[(user, problem.id)]
  {
    var key := (user, problem.id);
    var q := if key in store then store[key].(status := GaveUp) else NewProgress(user, problem, GaveUp, now);
    (q, store[key := q])
  }

  /** Every stored confidence lies within [0, 1]. */
  ghost predicate ConfidencesInRange(store: ProgressStore)
  {
    forall k :: k in store ==> 0.0 <= store[k].confidenceScore <= 1.0
  }

  /** The operations a caller can apply to one (user, problem) pair. */
  datatype Operation =
    | Start
    | Attempt
    | Hint
    | Solve(timeSpentMinutes: Option<int32>)
    | SolveWithConfidence(timeSpentMinutes: Option<int32>, confidence: Option<real>)
    | GiveUp

  function Apply(store: ProgressStore, user: UserId, problem: Problem, op: Operation, now: Instant)
    : (r: (UserProgress, ProgressStore))
    ensures OnlyKeyChanged(store, r.1, (user, problem.id))
  {
    match op
    case Start => StartProblem(store, user, problem, now)
    case Attempt => RecordAttempt(store, user, problem, now)
    case Hint => UseHint(store, user, problem, now)
    case Solve(t) => SolveProblem(store, user, problem, t, now)
    case SolveWithConfidence(t, c) => SolveProblemWithConfidence(store, user, problem, t, c, now)
    case GiveUp => GiveUpProblem(store, user, problem, now)
  }

  /** Applies a sequence of operations, each to its own pair, in order. */
  function ApplyAll(store: ProgressStore, ops: seq<(UserId, Problem, Operation, Instant)>): ProgressStore
    decreases |ops|
  {
    if |ops| == 0 then store
    else
      var (u, p, op, t) := ops[0];
      ApplyAll(Apply(store, u, p, op, t).1, ops[1..])
  }

  /**
    Stored confidences stay within [0, 1] whatever sequence of operations is
    applied: new records start at 0.0, solves store a clamped value and the
    other operations keep the stored one.
   */
  lemma {:induction false} ConfidencesStayInRange(store: ProgressStore, ops: seq<(UserId, Problem, Operation, Instant)>)
    requires ConfidencesInRange(store)
    ensures ConfidencesInRange(ApplyAll(store, ops))
    decreases |ops|
  {
    if |ops| > 0 {
      var (u, p, op, t) := ops[0];
      var r := Apply(store, u, p, op, t);
      assert r.1 == store[(u, p.id) := r.0] by {
        match op
        case Start =>
        case Attempt =>
        case Hint =>
        case Solve(_) =>
        case SolveWithConfidence(_, _) =>
        case GiveUp =>
      }
      assert 0.0 <= r.0.confidenceScore <= 1.0 by {
        match op
        case Start =>
        case Attempt =>
        case Hint =>
        case Solve(_) =>
        case SolveWithConfidence(_, _) =>
        case GiveUp =>
      }
      ConfidencesStayInRange(r.1, ops[1..]);
    }
  }

  /** An operation on one pair leaves every other pair's record as it was. */
  lemma OtherPairsUntouched(store: ProgressStore, user: UserId, problem: Problem, op: Operation,
                            now: Instant, k: Key)
    requires k != (user, problem.id)
    ensures k in Apply(store, user, problem, op, now).1 <==> k in store
    ensures k in store ==> Apply(store, user, problem, op, now).1[k] == store[k]
  {
  }
}
