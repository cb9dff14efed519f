# AlgoCoach recommendation engine, progress tracker and rate limiter in Dafny

This project models three parts of the AlgoCoach practice service:

- **The recommendation engine** (`ProblemRecommendationService`). It covers:
  - the two skill-tier classifiers: the coarse one behind the simple path and the stricter "progression" one behind the difficulty fit;
  - the three per-problem signals: topic weakness, spaced repetition and difficulty fit;
  - the weighted, filtered, sorted and truncated "enhanced" ranking;
  - the simple path: filter by tier, backfill EASY, MEDIUM, HARD, sort by acceptance rate, truncate;
  - the case-insensitive topic query;
  - the per-user recommendation cache with its lazy ten-minute expiry.
- **The progress tracker** (`UserProgressService` and the `UserProgress` record). It covers the per-(user, problem) state machine (start, attempt, hint, solve, solve with an explicit confidence, give up) and the clamped confidence formula.
- **The fixed-window rate limiter** (`RateLimitingConfig.isAllowed`). It keeps a per-key counter inside a 60 000 ms window.

Everything is stated over immutable data. The repositories become inputs:
- `catalog` is every problem in repository order;
- `solved` is the user's SOLVED records;
- `inProgress` is the user's IN_PROGRESS records;
- the progress repository is a `map` from (user id, problem id) to the record.

The wall clock becomes a parameter, read once per operation:
- whole seconds (`Instant`) for progress, the cache and spaced repetition;
- milliseconds for the rate limiter.

`ChronoUnit.MINUTES/DAYS.between` truncate toward zero, and `Base.TruncDiv` states that division. A thrown `IllegalArgumentException` (a negative `Stream.limit`) is an `Err` of `Base.Result`. Java `int` fields are the `int32` newtype, with wrap-around written out. Scores are exact reals.

Files and modules:

| file | module | contents |
|---|---|---|
| base.dfy | `Base` | `Option`, `Result`, `int32` with wrapping increment, truncating division, `Stream.limit`, `filter` |
| domain.dfy | `Domain` | problems, progress records, recommendations, the three-argument record constructor, clock helpers |
| sorting.dfy | `Sorting` | stable descending sort and top-k |
| skill.dfy | `SkillAnalysis` | per-tier counts and average confidences; the coarse and strict tier classifiers |
| heuristics.dfy | `Heuristics` | topic, spaced-repetition and difficulty-fit scores |
| ranking.dfy | `Ranking` | scored ranking, simple path with backfill, topic query |
| cache.dfy | `RecommendationCache` | the per-user cache in front of the scored ranking |
| progress.dfy | `ProgressTracking` | progress operations and the confidence score |
| rate_limit.dfy | `RateLimiting` | the fixed-window limiter |

## Model

| member | source | states |
|---|---|---|
| Base.Inc32 | src/main/java/com/algocoach/service/UserProgressService.java:125 | `count + 1` on a Java `int` adds one below the largest value and wraps to the smallest at it |
| Base.Dec32 | src/main/java/com/algocoach/service/UserProgressService.java:192 | `attempts - 1` on a Java `int` subtracts one above the smallest value and wraps to the largest at it |
| Base.TruncDiv | src/main/java/com/algocoach/service/ProblemRecommendationService.java:353 | whole units between two instants truncate toward zero: the quotient's bounds for non-negative and for negative differences |
| Base.Limit | src/main/java/com/algocoach/service/ProblemRecommendationService.java:90 | `limit(n)` succeeds iff n ≥ 0 and then returns the first min(n, size) elements |
| Base.Filter | src/main/java/com/algocoach/service/ProblemRecommendationService.java:67-70 | the filtered list holds exactly the elements that satisfy the predicate and is no longer than the input |
| Base.FilterDistributes | src/main/java/com/algocoach/service/ProblemRecommendationService.java:102-106 | filtering keeps relative order: filtering a concatenation is the concatenation of the filtered parts |
| Domain.NewProgress | src/main/java/com/algocoach/domain/UserProgress.java:26-57 | the three-argument constructor: attempted now, one attempt, no hints, confidence 0.0, not bookmarked, no solve time, no time spent |
| Domain.ProblemIds | src/main/java/com/algocoach/service/ProblemRecommendationService.java:53-55 | the id set holds the problem id of every record and nothing else |
| Sorting.SortDesc | src/main/java/com/algocoach/service/ProblemRecommendationService.java:298 | the result is ordered highest key first and is a permutation of the input |
| Sorting.TopK | src/main/java/com/algocoach/service/ProblemRecommendationService.java:297-303 | sort then `limit(k)`: min(k, size) elements, a sub-multiset of the input, in descending order, and no element left out has a higher key than one kept |
| SkillAnalysis.StatsWhere | src/main/java/com/algocoach/service/ProblemRecommendationService.java:135-146 | a group never counts more records than the list holds, and an empty group totals 0.0 |
| SkillAnalysis.StatsAreOfTheSelectedRecords | src/main/java/com/algocoach/service/ProblemRecommendationService.java:135-146 | a group's count is the number of records the selector keeps, and its total is the sum of exactly those records' confidences |
| SkillAnalysis.TotalBoundedByCount | src/main/java/com/algocoach/service/ProblemRecommendationService.java:142-146 | with confidences in [0, 1], a group's confidence total lies between 0 and its count |
| SkillAnalysis.AverageInUnitInterval | src/main/java/com/algocoach/service/ProblemRecommendationService.java:152-154 | with confidences in [0, 1], every group average (0.0 for a missing group) lies in [0, 1] |
| SkillAnalysis.ProfileOf | src/main/java/com/algocoach/service/ProblemRecommendationService.java:148-154 | per tier, the count and average confidence of that tier's solved records (0.0 for none); the three counts add up to the number of solved records |
| SkillAnalysis.ProfileCountsEachTier | src/main/java/com/algocoach/service/ProblemRecommendationService.java:135-154 | against a direct definition: each tier's count is the length of the list of that tier's solves, and its confidence is their mean |
| SkillAnalysis.TierCountsAddUp | src/main/java/com/algocoach/service/ProblemRecommendationService.java:135-139 | every solved record falls into exactly one tier group |
| SkillAnalysis.AnalyzeUserSkillLevel | src/main/java/com/algocoach/service/ProblemRecommendationService.java:130-173 | EASY iff easyCount < 3 or easyConf < 0.6; MEDIUM iff past that gate and either the MEDIUM gate (2 / 0.5) fails or every gate passes with mediumConf ≤ 0.7; HARD otherwise |
| SkillAnalysis.CalculateRecommendedDifficulty | src/main/java/com/algocoach/service/ProblemRecommendationService.java:369-408 | the same ladder with gates 5 / 0.7, 3 / 0.65, 2 / 0.6 and a final HARD iff mediumConf > 0.75 |
| SkillAnalysis.NewUserStartsEasy | src/main/java/com/algocoach/service/ProblemRecommendationService.java:131-133 | an empty solved list gives EASY under both classifiers |
| SkillAnalysis.FewSolvesStayEasy | src/main/java/com/algocoach/service/ProblemRecommendationService.java:157-158 | fewer than three solves in all keep a user at EASY under both classifiers |
| SkillAnalysis.StrictPastEasyImpliesCoarsePastEasy | src/main/java/com/algocoach/service/ProblemRecommendationService.java:395-396 | whenever the strict classifier lets a user past EASY, so does the coarse one |
| SkillAnalysis.HardNeedsEasyAndMediumDepth | src/main/java/com/algocoach/service/ProblemRecommendationService.java:157-162 | HARD needs at least 3 EASY and 2 MEDIUM solves (coarse), or 5 EASY and 3 MEDIUM solves (strict) |
| SkillAnalysis.FiveEasySolvesMoveToMedium | src/main/java/com/algocoach/service/ProblemRecommendationService.java:395-398 | five EASY solves averaging 0.82 and nothing else give MEDIUM under both classifiers |
| Heuristics.NoTopicSolvesMeansNoneInTopic | src/main/java/com/algocoach/service/ProblemRecommendationService.java:315-328 | the topic count is 0 iff no solved record has that topic |
| Heuristics.CalculateTopicScore | src/main/java/com/algocoach/service/ProblemRecommendationService.java:314-341 | result in {0, 0.6, 0.8, 1.0}; 1.0 iff no solved record is in the topic; 0.8 iff the topic has 1 or 2 solves; 0.6 iff it has ≥ 3 solves averaging below 0.6; 0 iff it has ≥ 3 solves averaging ≥ 0.6 |
| Heuristics.FindFirst | src/main/java/com/algocoach/service/ProblemRecommendationService.java:347-349 | `findFirst`: none iff the id was never solved, otherwise the earliest record with that id |
| Heuristics.SpacedRamp | src/main/java/com/algocoach/service/ProblemRecommendationService.java:353-360 | the day ramp lies in [0, 1]; for 7 ≤ d ≤ 30 it is (d − 7) / 23; it is positive iff d ≥ 8, 1 iff d = 30, 0.5 beyond day 30 and 0 below day 7 |
| Heuristics.SpacedRampMonotoneInWindow | src/main/java/com/algocoach/service/ProblemRecommendationService.java:356-357 | from day 7 to day 30 the ramp never decreases |
| Heuristics.SpacedRampEdges | src/main/java/com/algocoach/service/ProblemRecommendationService.java:355-359 | values at the edges: 0 at days 6 and 7, 1/23 at day 8, 1 at day 30, 0.5 at day 31 |
| Heuristics.CalculateSpacedRepetitionScore | src/main/java/com/algocoach/service/ProblemRecommendationService.java:346-364 | result in [0, 1], 0 for an unsolved problem, positive iff the first solved record has a solve time at least 8 whole days back; with d whole days since that solve, (d − 7) / 23 for 7 ≤ d ≤ 30 and 0.5 beyond |
| Heuristics.DifficultyFit | src/main/java/com/algocoach/service/ProblemRecommendationService.java:417-423 | result in {0.2, 0.6, 1.0}: 1.0 iff same tier, 0.6 iff ordinals one apart, 0.2 iff EASY against HARD |
| Heuristics.DifficultyFitSymmetric | src/main/java/com/algocoach/service/ProblemRecommendationService.java:419 | the fit does not depend on which side of the gap the problem lies |
| Heuristics.CalculateDifficultyScore | src/main/java/com/algocoach/service/ProblemRecommendationService.java:413-424 | result in {0.2, 0.6, 1.0}: 1.0 iff the problem's tier is the strict classifier's tier, 0.6 iff it is one tier away, 0.2 iff one is EASY and the other HARD |
| Ranking.TrimStart | src/main/java/com/algocoach/service/ProblemRecommendationService.java:293 | `trim`'s left half: the result is a suffix of the input, only characters at or below the space were dropped, and it does not start with one |
| Ranking.TrimEnd | src/main/java/com/algocoach/service/ProblemRecommendationService.java:293 | `trim`'s right half: the result is a prefix of the input, only characters at or below the space were dropped, and it does not end with one |
| Ranking.TrimBothEnds | src/main/java/com/algocoach/service/ProblemRecommendationService.java:293 | trimming both ends yields a contiguous piece of the input with only blanks cut off either side and no blank at either end |
| Ranking.Reason | src/main/java/com/algocoach/service/ProblemRecommendationService.java:266-293 | the rationale is the phrases of the signals, in order, trimmed on both sides |
| Ranking.ReviewReason | src/main/java/com/algocoach/service/ProblemRecommendationService.java:270-275 | a problem due for review gets exactly "Time to review this problem." |
| Ranking.ScoreCandidate | src/main/java/com/algocoach/service/ProblemRecommendationService.java:260-295 | an in-progress problem is skipped; a kept score lies in (0, 0.7]; an unsolved problem is always kept with 0.4-weighted topic (above 0.3) plus 0.3-weighted fit, at least 0.06; a solved problem is kept iff due for review, with 0.5 times its spaced score; a problem due for review has the review reason; an unsolved problem's reason is the focus-area phrase when the topic score is above 0.3, then the skill-level phrase when the fit is above 0.5, trimmed |
| Ranking.Candidates | src/main/java/com/algocoach/service/ProblemRecommendationService.java:258-295 | the candidate list holds exactly the scored results of the catalog problems that are kept |
| Ranking.CandidatesDistribute | src/main/java/com/algocoach/service/ProblemRecommendationService.java:258-295 | candidates are produced problem by problem in catalog order: those of a split catalog are the first part's followed by the second part's |
| Ranking.CandidatesOfOne | src/main/java/com/algocoach/service/ProblemRecommendationService.java:262-294 | one problem yields its scored result when it is kept and nothing otherwise |
| Ranking.UnsolvedIsCandidate | src/main/java/com/algocoach/service/ProblemRecommendationService.java:275-294 | every catalog problem neither solved nor in progress (a given-up one, say) is a candidate |
| Ranking.RankRecommendations | src/main/java/com/algocoach/service/ProblemRecommendationService.java:244-303 | succeeds iff limit ≥ 0; min(limit, candidates) results, score-descending, drawn from the candidates; none in progress; scores in (0, 0.7]; solved ones at 0.5 times spaced; nothing left out outscores a result |
| Ranking.RankingIsPrefixOfFullRanking | src/main/java/com/algocoach/service/ProblemRecommendationService.java:297-303 | the ranking cut to a limit is that prefix of the ranking of all candidates |
| Ranking.UnseenSplitsByTier | src/main/java/com/algocoach/service/ProblemRecommendationService.java:67-81 | the unseen problems split exactly into the three tier lists |
| Ranking.BackfillFacts | src/main/java/com/algocoach/service/ProblemRecommendationService.java:73-85 | backfill only appends to the pool it is given, adds only unseen problems of other tiers, and either reaches the limit or adds every other tier |
| Ranking.CandidatePoolFacts | src/main/java/com/algocoach/service/ProblemRecommendationService.java:66-85 | the pool holds only unseen catalog problems, and reaches the limit whenever the catalog has that many unseen |
| Ranking.CandidatePoolFollowsTierOrder | src/main/java/com/algocoach/service/ProblemRecommendationService.java:66-85 | the pool is the coarse tier alone when it fills the limit; otherwise the other tiers are appended whole in EASY, MEDIUM, HARD order, and the second only while the pool is still short |
| Ranking.GetRecommendedProblems | src/main/java/com/algocoach/service/ProblemRecommendationService.java:50-91 | succeeds iff limit ≥ 0; min(limit, unseen) problems drawn from the backfilled pool, acceptance-rate descending; none solved or in progress; only the coarse tier when that tier alone fills the limit; nothing in the pool left out has a higher rate than a result |
| Ranking.HardBackfillSkipsMedium | src/main/java/com/algocoach/service/ProblemRecommendationService.java:74-84 | when HARD is recommended but short and EASY fills the gap, no MEDIUM problem is returned |
| Ranking.GetProblemsByTopic | src/main/java/com/algocoach/service/ProblemRecommendationService.java:96-107 | succeeds iff limit ≥ 0; returns the first min(limit, matches) of the unsolved problems whose topic matches ignoring case, in catalog order |
| Ranking.TopicQueryKeepsCatalogOrder | src/main/java/com/algocoach/service/ProblemRecommendationService.java:102-106 | matches from an earlier part of the catalog come before matches from a later part |
| RecommendationCache.ExpiredExactlyAfter660Seconds | src/main/java/com/algocoach/service/ProblemRecommendationService.java:42-44 | whole minutes > 10 means an entry is stale exactly from 660 seconds after it was stored |
| RecommendationCache.GetEnhancedRecommendations | src/main/java/com/algocoach/service/ProblemRecommendationService.java:237-309 | succeeds iff limit ≥ 0. A live hit returns a prefix of min(limit, stored) of the stored list and leaves the cache alone. A miss returns the fresh ranking, at most `limit` long, and stores it for the user |
| RecommendationCache.ClearUserCache | src/main/java/com/algocoach/service/ProblemRecommendationService.java:429-431 | removes that user's entry and keeps every other entry unchanged |
| RecommendationCache.ClearForcesRecompute | src/main/java/com/algocoach/service/ProblemRecommendationService.java:239-244 | after a clear, the next read is the fresh ranking of the current inputs |
| RecommendationCache.LiveEntryServedWhole | src/main/java/com/algocoach/service/ProblemRecommendationService.java:239-242 | a live entry that fits the limit is returned whole, whatever the current inputs, with the cache unchanged |
| RecommendationCache.HitReturnsStoredListUnchanged | src/main/java/com/algocoach/service/ProblemRecommendationService.java:239-306 | within 660 seconds of a miss, the same limit returns the stored list and cache, even when the progress inputs have changed |
| RecommendationCache.StaleEntryIsRecomputed | src/main/java/com/algocoach/service/ProblemRecommendationService.java:240-303 | from 660 seconds on, a read is the fresh ranking of the inputs it is given |
| RecommendationCache.SmallerLimitCutsLaterReads | src/main/java/com/algocoach/service/ProblemRecommendationService.java:239-241 | as written: whenever two candidates exist, a miss with limit 1 makes a read with limit 2 within the time-to-live return one result, although the fresh ranking has two |
| RecommendationCache.LargerLimitAfterSmallerIsCutShort | src/main/java/com/algocoach/service/ProblemRecommendationService.java:239-241 | as written: asking for 1 and then for 2 within the time-to-live returns 1 result, although the fresh ranking has 2 |
| RecommendationCache.GetEnhancedRecommendationsFullEntry | src/main/java/com/algocoach/service/ProblemRecommendationService.java:237-309 | corrected: succeeds iff limit ≥ 0; a miss returns the fresh ranking and stores the ranking of every candidate under the user at now, every other user's entry unchanged; a hit returns the first min(limit, stored) of the stored list and leaves the cache alone |
| RecommendationCache.FullEntryHitMatchesFreshRanking | src/main/java/com/algocoach/service/ProblemRecommendationService.java:239-241 | corrected: within the time-to-live, a hit answers any limit exactly as the fresh ranking of the stored inputs would |
| ProgressTracking.Clamp01 | src/main/java/com/algocoach/service/UserProgressService.java:211 | the clamp lies in [0, 1], is the identity inside it, 0 below it and 1 above it |
| ProgressTracking.ConfidenceScore | src/main/java/com/algocoach/service/UserProgressService.java:188-212 | the confidence is always within [0, 1] |
| ProgressTracking.ConfidenceMonotone | src/main/java/com/algocoach/service/UserProgressService.java:185-212 | more attempts, more hints or more time spent never raise the confidence |
| ProgressTracking.ZeroAttemptsClampToOne | src/main/java/com/algocoach/domain/UserProgress.java:35-48 | a record still at the field defaults (0 attempts) has raw score 1.15, clamped to 1.0 |
| ProgressTracking.HeavyPenaltiesClampToZero | src/main/java/com/algocoach/service/UserProgressService.java:189-211 | five attempts and three hints give a negative raw score, clamped to 0.0 |
| ProgressTracking.StartProblem | src/main/java/com/algocoach/service/UserProgressService.java:24-40 | no record: a new IN_PROGRESS record with one attempt. NOT_STARTED: IN_PROGRESS, one more attempt, attempted now, nothing else changed. Any other status: record and store returned as they are. Only this pair's entry changes |
| ProgressTracking.StartIsIdempotentOnFreshPair | src/main/java/com/algocoach/service/UserProgressService.java:24-40 | two starts on a fresh pair leave one attempt, and the second start changes nothing |
| ProgressTracking.RecordAttempt | src/main/java/com/algocoach/service/UserProgressService.java:119-131 | an existing record gains one attempt whatever its status, with every other field kept; a missing record is created IN_PROGRESS with one attempt |
| ProgressTracking.UseHint | src/main/java/com/algocoach/service/UserProgressService.java:136-149 | an existing record gains one hint with every other field kept; a missing record is created IN_PROGRESS with one attempt and one hint |
| ProgressTracking.SolveProblem | src/main/java/com/algocoach/service/UserProgressService.java:45-69 | SOLVED at now. Time spent is replaced only when supplied. Counters, attempt time, bookmark and identity are kept; a missing record is first created for this user and problem, unbookmarked, with one attempt. Confidence is the formula applied to the saved record, within [0, 1] |
| ProgressTracking.FreshSolveConfidence | src/main/java/com/algocoach/service/UserProgressService.java:56-66 | a first solve scores 1.0 with no time or at most 45 minutes, 0.9 up to 90, 0.7 beyond |
| ProgressTracking.AttemptBeforeSolveNeverRaisesConfidence | src/main/java/com/algocoach/service/UserProgressService.java:119-131 | recording an attempt before a solve never yields a higher confidence than solving directly |
| ProgressTracking.HintBeforeSolveNeverRaisesConfidence | src/main/java/com/algocoach/service/UserProgressService.java:136-149 | using a hint before a solve never yields a higher confidence than solving directly |
| ProgressTracking.SolveProblemWithConfidence | src/main/java/com/algocoach/service/UserProgressService.java:154-182 | a supplied confidence is stored clamped to [0, 1]; without one this is the plain solve; every other field is as the plain solve sets it |
| ProgressTracking.GiveUpProblem | src/main/java/com/algocoach/service/UserProgressService.java:74-86 | GAVE_UP with every other field of an existing record kept; a missing record is created GAVE_UP with one attempt |
| ProgressTracking.Apply | src/main/java/com/algocoach/service/UserProgressService.java:24-182 | any operation only adds or replaces the entry of its own (user, problem) pair |
| ProgressTracking.ConfidencesStayInRange | src/main/java/com/algocoach/domain/UserProgress.java:41-42 | any sequence of operations keeps every stored confidence within [0, 1] |
| ProgressTracking.OtherPairsUntouched | src/main/java/com/algocoach/service/UserProgressService.java:24-182 | an operation leaves every other pair's presence and record as they were |
| RateLimiting.IsAllowed | src/main/java/com/algocoach/config/RateLimitingConfig.java:14-32 | the key becomes present and no other key changes. A limit ≤ 0 refuses. In a running window: allowed iff count < limit, an allowed call adds one, a refusal changes nothing. On a new or reset window: allowed iff limit ≥ 1, with the window starting now |
| RateLimiting.IsAllowedKeepsWithinLimit | src/main/java/com/algocoach/config/RateLimitingConfig.java:25-31 | under a fixed non-negative limit, every counter stays between 0 and the limit |
| RateLimiting.IncrementNeverWraps | src/main/java/com/algocoach/config/RateLimitingConfig.java:47-49 | counters stay non-negative whatever limits are passed, and an allowed call adds exactly one, with no wrap-around |
| RateLimiting.Run | src/main/java/com/algocoach/config/RateLimitingConfig.java:14-32 | successive calls for one key: one answer per call, the key is present afterwards, and every other key's entry is untouched |
| RateLimiting.RunWithinWindow | src/main/java/com/algocoach/config/RateLimitingConfig.java:19-31 | within one running window that began at count c, the i-th further call is allowed iff c + i < limit |
| RateLimiting.FreshWindowAllowsExactlyTheLimit | src/main/java/com/algocoach/config/RateLimitingConfig.java:14-32 | for a new key, or one whose window has run out, exactly the first n calls within the following minute are allowed |
| RateLimiting.AllowsRequestsWithinLimit | src/test/java/com/algocoach/config/RateLimitingConfigTest.java:17-28 | under a limit of 3 on a fresh key, within one minute: allowed, allowed, allowed, refused |
| RateLimiting.SeparateKeysAreTrackedIndependently | src/test/java/com/algocoach/config/RateLimitingConfigTest.java:30-38 | under a limit of 1, "client-a" is allowed then refused, and "client-b" is still allowed |

## Left out

- `getRandomProblems`: it shuffles the list with `Collections.shuffle`, and randomness is outside the model.
- `getUserProgressStats`: repository counts gathered into an untyped map, with floating-point rounding.
- Read-only progress queries (`getUserProgress`, `getSolvedProblems`, `getInProgressProblems`): each is a single repository call. Their results are the `solved` and `inProgress` inputs.
- Controllers, the rate-limiting aspect (client address extraction), authentication, data seeding and error mapping: HTTP and infrastructure glue.
- Repositories: JPA queries become plain inputs. Order is repository order, and uniqueness of a (user, problem) pair is the key of the map.
- Concurrency: `ConcurrentHashMap` and the non-atomic read-modify-write of the limiter and the cache are modelled single-threaded.
- Floating point: scores, averages and confidences are exact reals. NaN, −0.0 and `Double.compare` corner cases, and rounding in the 1/23 ramp, are not modelled.
- Null fields: the no-argument constructor leaves user, problem and status null. A null `acceptanceRate`, `attemptsCount` or `hintsUsed` (an unboxing exception) is not modelled. `ZeroAttemptsClampToOne` covers a record at the field defaults.
- Time: `Instant` counts whole seconds, so sub-second precision of `LocalDateTime` is not modelled. Rate-limiter milliseconds are unbounded integers, so `long` overflow is not modelled.
- `RateLimiting.Current`: a new entry's window is taken to open at the call's own `now`. The code reads the clock a second time in the entry's constructor, a few milliseconds later at most.
- `Ranking.EqualsIgnoreCase`: folds ASCII letters only; the database's collation for other characters is not modelled.
- `Sorting.TopK`: stability is built into the definition (an element is inserted ahead of equal keys that came after it) but is not stated in the contract.
- `Ranking.RankRecommendations`: the order among equal scores is inherited from `Sorting.TopK` and is not stated.
- `Ranking.GetRecommendedProblems`: the order among equal acceptance rates, and so which of several tied problems survive the cut to the limit, is inherited from `Sorting.TopK` (pool order, as the stable `List.sort` keeps it) and is not stated.
- `ProgressTracking.ConfidenceMonotone`: requires an attempt count above the smallest `int`, where `attemptsCount - 1` would wrap.
- `ProgressTracking.AttemptBeforeSolveNeverRaisesConfidence`: requires a stored attempt count strictly inside the `int` range, so that the extra attempt does not wrap.
- `ProgressTracking.HintBeforeSolveNeverRaisesConfidence`: requires a stored hint count below the largest `int`, for the same reason.
- `RateLimiting.IsAllowed`: "a limit ≤ 0 refuses" is stated for states whose counters are non-negative. `RateLimiting.IncrementNeverWraps` shows that every reachable state is like that.
- `RecommendationCache.HitReturnsStoredListUnchanged`: stated for the same limit as the storing call. A smaller limit gets a prefix, as `GetEnhancedRecommendations` states.
- Cache invalidation: the comment on `clearUserCache` (ProblemRecommendationService.java:427) asks for it to be called when a user solves a problem, but no progress operation calls it. The model follows the code, so a solve is not seen by the scored path until the entry expires.
- Strict tier with five EASY solves at confidence ≥ 0.7 and nothing else: the code gives MEDIUM, since the first gate is passed and MEDIUM has fewer than three solves (`SkillAnalysis.FiveEasySolvesMoveToMedium`).
- Repeated clock reads: one `getEnhancedRecommendations` call reads the clock in the expiry check (ProblemRecommendationService.java:43), once per solved catalog problem for spaced repetition (:353) and again for the new entry's timestamp (:39). The model uses one `now` for all of them, so a call that straddles a day or minute boundary is not modelled.
- A refused rate-limit call leaves the key's entry unchanged only inside a running window. When the window was reset first, the reset is kept even though the call is refused. The model follows the code.

## Findings

| source | as written | input that shows it | evidently intended | confidence | as-written member | corrected member |
|---|---|---|---|---|---|---|
| src/main/java/com/algocoach/service/ProblemRecommendationService.java:239-241 | the cache is keyed by user only, and the stored list is already cut to the limit of the call that stored it; a hit then applies its own limit to that shorter list | a catalog of two EASY problems and an empty history: a call with limit 1 and then a call with limit 2 at the same instant; the second returns one result, while the fresh ranking has two | a cache hit answers any limit as a fresh ranking of the same inputs would: store the ranking of every candidate and cut it on read | medium, not executed | RecommendationCache.LargerLimitAfterSmallerIsCutShort | RecommendationCache.FullEntryHitMatchesFreshRanking |
