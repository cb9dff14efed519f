/**
  The entities the engine works on: problems of the catalog, per-(user, problem)
  progress records and scored recommendations, plus the clock model.
 */
module Domain {
  import opened Base

  type UserId = int
  type ProblemId = int

  /** A point in time, in whole seconds; the wall clock is always a parameter. */
  type Instant = int

  /** `ChronoUnit.MINUTES.between(from, to)`: whole minutes, truncated toward zero. */
  function MinutesBetween(from: Instant, to: Instant): int
  {
    TruncDiv(to - from, 60)
  }

  /** `ChronoUnit.DAYS.between(from, to)`: whole days, truncated toward zero. */
  function DaysBetween(from: Instant, to: Instant): int
  {
    TruncDiv(to - from, 86400)
  }

  /** Difficulty tiers, declared (and ordered) EASY < MEDIUM < HARD. */
  datatype Difficulty = Easy | Medium | Hard {
    /** Java's `ordinal()`: the position in the declaration order. */
    function Ordinal(): nat
    {
      match this
      case Easy => 0
      case Medium => 1
      case Hard => 2
    }
  }

  datatype ProgressStatus = NotStarted | InProgress | Solved | GaveUp

  /** A catalog problem; the acceptance rate is a percentage. */
  datatype Problem = Problem(
    id: ProblemId,
    title: string,
    difficulty: Difficulty,
    topic: string,
    acceptanceRate: real)

  /** The progress record of one user on one problem. */
  datatype UserProgress = UserProgress(
    user: UserId,
    problem: Problem,
    status: ProgressStatus,
    attemptedAt: Option<Instant>,
    solvedAt: Option<Instant>,
    timeSpentMinutes: Option<int32>,
    attemptsCount: int32,
    hintsUsed: int32,
    confidenceScore: real,
    isBookmarked: bool)

  /** A scored recommendation with its human-readable rationale. */
  datatype RecommendationResult = RecommendationResult(
    problem: Problem,
    reason: string,
    score: real)

  /**
    The three-argument constructor: the record is attempted now, counts one
    attempt, and every other field keeps its declared default.
   */
  function NewProgress(user: UserId, problem: Problem, status: ProgressStatus, now: Instant): (p: UserProgress)
    ensures p.user == user && p.problem == problem && p.status == status
    ensures p.attemptedAt == Some(now) && p.attemptsCount == 1
    ensures p.hintsUsed == 0 && p.confidenceScore == 0.0 && !p.isBookmarked
    ensures p.solvedAt.None? && p.timeSpentMinutes.None?
  {
    UserProgress(user, problem, status, Some(now), None, None, 1, 0, 0.0, false)
  }

  /** The ids of the problems a list of progress records refers to. */
  function ProblemIds(records: seq<UserProgress>): (ids: set<ProblemId>)
    ensures forall r :: r in records ==> r.problem.id in ids
    ensures forall id :: id in ids ==> exists r :: r in records && r.problem.id == id
  {
    set r | r in records :: r.problem.id
  }
}
