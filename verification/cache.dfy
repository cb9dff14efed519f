/**
  The per-user recommendation cache in front of the scored path. Entries
  expire lazily: an entry is only checked when it is read. Nothing in the
  progress operations clears it; only an explicit `ClearUserCache` does.
 */
module RecommendationCache {
  import opened Base
  import opened Domain
  import opened Ranking

  const CACHE_TTL_MINUTES: int := 10

  datatype CacheEntry = CacheEntry(recommendations: seq<RecommendationResult>, timestamp: Instant)

  type Cache = map<UserId, CacheEntry>

  /** An entry is stale once more than ten whole minutes have passed since it was stored. */
  predicate IsExpired(entry: CacheEntry, now: Instant)
  {
    MinutesBetween(entry.timestamp, now) > CACHE_TTL_MINUTES
  }

  /**
    Whole minutes truncate, so an entry is served for the first 660 seconds
    after it was stored (and whenever the clock reads earlier than its
    timestamp) and is stale from second 660 on.
   */
  lemma ExpiredExactlyAfter660Seconds(entry: CacheEntry, now: Instant)
    ensures IsExpired(entry, now) <==> now - entry.timestamp >= 660
  {
    var x := now - entry.timestamp;
    var q := TruncDiv(x, 60);
    if x >= 660 {
      assert 60 * (q + 1) > 660;
    } else if x >= 0 {
      assert 60 * q < 660;
    }
  }

  predicate IsHit(cache: Cache, user: UserId, now: Instant)
  {
    user in cache && !IsExpired(cache[user], now)
  }

  /**
    The scored recommendations through the cache. A live entry answers with
    its first `limit` results and leaves the cache alone; otherwise the
    ranking is computed from the current inputs and stored for the user,
    replacing any stale entry. A negative limit throws before anything is
    stored.
   */
  function GetEnhancedRecommendations(cache: Cache, user: UserId, catalog: seq<Problem>,
                                      solved: seq<UserProgress>, inProgress: seq<UserProgress>,
                                      now: Instant, limit: int)
    : (r: Result<(seq<RecommendationResult>, Cache)>)
    ensures r.Ok? <==> limit >= 0
    ensures r.Ok? && IsHit(cache, user, now) ==>
      && r.value.1 == cache
      && |r.value.0| == Min(limit, |cache[user].recommendations|)
      && r.value.0 == cache[user].recommendations[..|r.value.0|]
    ensures r.Ok? && !IsHit(cache, user, now) ==>
      && RankRecommendations(catalog, solved, inProgress, now, limit) == Ok(r.value.0)
      && |r.value.0| <= limit
      && r.value.1 == cache[user := CacheEntry(r.value.0, now)]
  {
    if IsHit(cache, user, now) then
      var hit := Limit(cache[user].recommendations, limit);
      if hit.Ok? then Ok((hit.value, cache)) else Err(hit.error)
    else
      var computed := RankRecommendations(catalog, solved, inProgress, now, limit);
      if computed.Ok? then Ok((computed.value, cache[user := CacheEntry(computed.value, now)]))
      else Err(computed.error)
  }

  /** Forgets the user's entry and no other. */
  function ClearUserCache(cache: Cache, user: UserId): (c: Cache)
    ensures user !in c
    ensures forall u :: u != user ==> (u in c <==> u in cache)
    ensures forall u :: u in c ==> c[u] == cache[u]
  {
    cache - {user}
  }

  /** After a clear, the next read for that user recomputes from current inputs. */
  lemma ClearForcesRecompute(cache: Cache, user: UserId, catalog: seq<Problem>,
                             solved: seq<UserProgress>, inProgress: seq<UserProgress>, now: Instant, limit: int)
    requires limit >= 0
    ensures GetEnhancedRecommendations(ClearUserCache(cache, user), user, catalog, solved, inProgress, now, limit).value.0
            == RankRecommendations(catalog, solved, inProgress, now, limit).value
  {
  }

  /**
    A live entry whose list fits the limit is served whole, whatever the
    current progress inputs are, and the cache stays as it is.
   */
  lemma LiveEntryServedWhole(cache: Cache, user: UserId, stored: seq<RecommendationResult>,
                             catalog: seq<Problem>, solved: seq<UserProgress>, inProgress: seq<UserProgress>,
                             t: Instant, t': Instant, limit: int)
    requires |stored| <= limit
    requires t' - t < 660
    ensures var c := cache[user := CacheEntry(stored, t)];
            GetEnhancedRecommendations(c, user, catalog, solved, inProgress, t', limit) == Ok((stored, c))
  {
    var c := cache[user := CacheEntry(stored, t)];
    ExpiredExactlyAfter660Seconds(c[user], t');
    assert IsHit(c, user, t');
    assert stored[..|stored|] == stored;
  }

  /**
    Within the time-to-live a read returns exactly what the previous miss
    stored, when asked with the same limit, and ignores the current progress
    inputs: solving or starting problems in between does not refresh it.
   */
  lemma HitReturnsStoredListUnchanged(cache: Cache, user: UserId, catalog: seq<Problem>,
                                      solved: seq<UserProgress>, inProgress: seq<UserProgress>,
                                      catalog': seq<Problem>, solved': seq<UserProgress>, inProgress': seq<UserProgress>,
                                      t: Instant, t': Instant, limit: int)
    requires !IsHit(cache, user, t) && limit >= 0
    requires t' - t < 660
    ensures var first := GetEnhancedRecommendations(cache, user, catalog, solved, inProgress, t, limit).value;
            GetEnhancedRecommendations(first.1, user, catalog', solved', inProgress', t', limit) == Ok(first)
  {
    var first := GetEnhancedRecommendations(cache, user, catalog, solved, inProgress, t, limit).value;
    LiveEntryServedWhole(cache, user, first.0, catalog', solved', inProgress', t, t', limit);
  }

  /** Once 660 seconds have passed, a read recomputes from the inputs it is given. */
  lemma StaleEntryIsRecomputed(cache: Cache, user: UserId, catalog: seq<Problem>,
                               solved: seq<UserProgress>, inProgress: seq<UserProgress>, now: Instant, limit: int)
    requires user in cache && now - cache[user].timestamp >= 660 && limit >= 0
    ensures GetEnhancedRecommendations(cache, user, catalog, solved, inProgress, now, limit).value.0
            == RankRecommendations(catalog, solved, inProgress, now, limit).value
  {
    ExpiredExactlyAfter660Seconds(cache[user], now);
  }

  // ---------------------------------------------------------------------
  // The stored list is already cut to the limit of the call that stored it
  // ---------------------------------------------------------------------

  function TwoEasyProblems(): seq<Problem>
  {
    [Problem(1, "a", Easy, "Array", 50.0), Problem(2, "b", Easy, "Array", 40.0)]
  }

  /**
    The cache key ignores the limit: on a miss with limit 1, whenever two
    candidates exist, a read with limit 2 within the time-to-live returns
    one result, although the fresh ranking has two.
   */
  lemma SmallerLimitCutsLaterReads(cache: Cache, user: UserId, catalog: seq<Problem>,
                                                      solved: seq<UserProgress>, inProgress: seq<UserProgress>,
                                                      now: Instant)
    requires !IsHit(cache, user, now)
    requires |Candidates(catalog, solved, ProblemIds(inProgress), now)| >= 2
    ensures var first := GetEnhancedRecommendations(cache, user, catalog, solved, inProgress, now, 1).value;
            var second := GetEnhancedRecommendations(first.1, user, catalog, solved, inProgress, now, 2).value;
            && |second.0| == 1
            && |RankRecommendations(catalog, solved, inProgress, now, 2).value| == 2
  {
    var first := GetEnhancedRecommendations(cache, user, catalog, solved, inProgress, now, 1).value;
    assert |first.0| == 1;
    ExpiredExactlyAfter660Seconds(first.1[user], now);
    assert IsHit(first.1, user, now);
  }

  /** Two different problems neither solved nor in progress give at least two candidates. */
  lemma TwoUnseenProblemsAreCandidates(catalog: seq<Problem>, solved: seq<UserProgress>,
                                                          inProgress: seq<UserProgress>, now: Instant, p: Problem, q: Problem)
    requires p in catalog && q in catalog && p != q
    requires p.id !in ProblemIds(solved) && p.id !in ProblemIds(inProgress)
    requires q.id !in ProblemIds(solved) && q.id !in ProblemIds(inProgress)
    ensures |Candidates(catalog, solved, ProblemIds(inProgress), now)| >= 2
  {
    var cs := Candidates(catalog, solved, ProblemIds(inProgress), now);
    UnsolvedIsCandidate(catalog, solved, ProblemIds(inProgress), now, p);
    UnsolvedIsCandidate(catalog, solved, ProblemIds(inProgress), now, q);
    var c1 :| c1 in cs && c1.problem == p;
    var c2 :| c2 in cs && c2.problem == q;
    TwoDistinctElements(cs, c1, c2);
  }

  lemma TwoDistinctElements<T>(s: seq<T>, x: T, y: T)
    requires x in s && y in s && x != y
    ensures |s| >= 2
  {
    var i :| 0 <= i < |s| && s[i] == x;
    var j :| 0 <= j < |s| && s[j] == y;
    assert i != j;
  }

  /**
    The concrete case: asking for one recommendation and then, within the
    time-to-live, for two returns one, although two are available.
   */
  lemma LargerLimitAfterSmallerIsCutShort()
    ensures var first := GetEnhancedRecommendations(map[], 7, TwoEasyProblems(), [], [], 0, 1).value;
            var second := GetEnhancedRecommendations(first.1, 7, TwoEasyProblems(), [], [], 0, 2).value;
            && |second.0| == 1
            && |RankRecommendations(TwoEasyProblems(), [], [], 0, 2).value| == 2
  {
    var catalog := TwoEasyProblems();
    TwoUnseenProblemsAreCandidates(catalog, [], [], 0, catalog[0], catalog[1]);
    SmallerLimitCutsLaterReads(map[], 7, TwoEasyProblems(), [], [], 0);
  }

  /**
    The cache with the limit applied on read: a miss stores the whole ranking
    and every read, hit or miss, cuts it to its own limit.
   */
  function GetEnhancedRecommendationsFullEntry(cache: Cache, user: UserId, catalog: seq<Problem>,
                                               solved: seq<UserProgress>, inProgress: seq<UserProgress>,
                                               now: Instant, limit: int)
    : (r: Result<(seq<RecommendationResult>, Cache)>)
    ensures r.Ok? <==> limit >= 0
    ensures r.Ok? && IsHit(cache, user, now) ==>
      && r.value.1 == cache
      && r.value.0 == cache[user].recommendations[..Min(limit, |cache[user].recommendations|)]
    ensures r.Ok? && !IsHit(cache, user, now) ==>
      && RankRecommendations(catalog, solved, inProgress, now, limit) == Ok(r.value.0)
      && r.value.1
         == cache[user := CacheEntry(RankRecommendations(catalog, solved, inProgress, now,
                                       |Candidates(catalog, solved, ProblemIds(inProgress), now)|).value, now)]
  {
    if limit < 0 then Err(IllegalArgument("maxSize must not be negative"))
    else if IsHit(cache, user, now) then
      Ok((Limit(cache[user].recommendations, limit).value, cache))
    else
      var cs := Candidates(catalog, solved, ProblemIds(inProgress), now);
      var full := RankRecommendations(catalog, solved, inProgress, now, |cs|).value;
      RankingIsPrefixOfFullRanking(catalog, solved, inProgress, now, limit);
      Ok((Limit(full, limit).value, cache[user := CacheEntry(full, now)]))
  }

  /**
    With the limit applied on read, a hit within the time-to-live answers any
    limit exactly as a fresh ranking of the inputs the entry was computed
    from would.
   */
  lemma FullEntryHitMatchesFreshRanking(cache: Cache, user: UserId, catalog: seq<Problem>,
                                        solved: seq<UserProgress>, inProgress: seq<UserProgress>,
                                        catalog': seq<Problem>, solved': seq<UserProgress>, inProgress': seq<UserProgress>,
                                        t: Instant, t': Instant, limit1: int, limit2: int)
    requires !IsHit(cache, user, t) && limit1 >= 0 && limit2 >= 0
    requires t' - t < 660
    ensures var c1 := GetEnhancedRecommendationsFullEntry(cache, user, catalog, solved, inProgress, t, limit1).value.1;
            GetEnhancedRecommendationsFullEntry(c1, user, catalog', solved', inProgress', t', limit2).value.0
            == RankRecommendations(catalog, solved, inProgress, t, limit2).value
  {
    var c1 := GetEnhancedRecommendationsFullEntry(cache, user, catalog, solved, inProgress, t, limit1).value.1;
    ExpiredExactlyAfter660Seconds(c1[user], t');
    assert IsHit(c1, user, t');
    RankingIsPrefixOfFullRanking(catalog, solved, inProgress, t, limit2);
  }
}
