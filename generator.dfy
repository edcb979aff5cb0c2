/** The consumer worker (claude_generator): it claims due jobs from
    generation_queue, asks a language model for page components, upserts them
    into page_cache under the query's fingerprint and resolves each job as
    completed, re-queued for another attempt, or failed.

    Every write is specified by a pure function of the tables before it; the
    methods that mirror the Python functions mutate a `Database` and promise
    exactly that function's result. The language model is a parameter. */
module Generator {
  import opened Common
  import opened Store
  import opened Fingerprint
  import opened Activity
  import opened PendingJobs

  /** page_cache rows written by this worker stay valid for 30 minutes. */
  const CACHE_VALIDITY: int := 30 * MINUTE
  /** handle_job_failure keeps the first 500 characters of the message. */
  const ERROR_MESSAGE_LIMIT: nat := 500
  /** store_in_page_cache's relevance when the pattern has no confidence. */
  const DEFAULT_RELEVANCE: real := 0.7
  const NO_COMPONENTS_MESSAGE: string := "Failed to generate components"
  /** `str(e)` for the AttributeError that `None.lower()` raises when a pattern
      carries a null predicted query. */
  const NULL_QUERY_MESSAGE: string := "'NoneType' object has no attribute 'lower'"

  // ---------------------------------------------------------------------------
  // update_job_status

  /** The UPDATE that `update_job_status` issues, applied to one row. */
  function StatusUpdate(j: WorkItem, status: Status, resultKey: Option<CacheRef>, now: int): WorkItem {
    if resultKey.Some? then j.(status := status, resultCacheKey := resultKey, completedAt := Some(now))
    else if status == Processing then j.(status := status, startedAt := Some(now))
    else j.(status := status)
  }

  /** `update_job_status(connection, job_id, status, result_cache_key)`: only rows
      whose id is `jobId` change, and rows keep their places and ids. */
  function WithStatus(rows: seq<WorkItem>, jobId: nat, status: Status, resultKey: Option<CacheRef>, now: int)
    : (r: seq<WorkItem>)
    ensures |r| == |rows|
    ensures forall i :: 0 <= i < |rows| ==> r[i].id == rows[i].id
    ensures forall i :: 0 <= i < |rows| && rows[i].id != jobId ==> r[i] == rows[i]
    ensures forall i :: 0 <= i < |rows| && rows[i].id == jobId ==> r[i].status == status
  {
    seq(|rows|, i requires 0 <= i < |rows| =>
      if rows[i].id == jobId then StatusUpdate(rows[i], status, resultKey, now) else rows[i])
  }

  /** With a result key the update sets status, result key and completion time;
      for `processing` it sets status and start time; otherwise status alone.
      No other column of the row changes. */
  lemma StatusUpdateColumns(j: WorkItem, status: Status, resultKey: Option<CacheRef>, now: int)
    ensures var r := StatusUpdate(j, status, resultKey, now);
      && r.status == status
      && (resultKey.Some? ==> r == j.(status := status, resultCacheKey := resultKey, completedAt := Some(now)))
      && (resultKey.None? && status == Processing ==> r == j.(status := status, startedAt := Some(now)))
      && (resultKey.None? && status != Processing ==> r == j.(status := status))
  {
  }

  /** The claim is not a compare-and-swap: marking a job `processing` succeeds
      whatever the row's status was, even for a job another run has already
      completed, failed or claimed. */
  lemma ClaimIsUnconditional(rows: seq<WorkItem>, i: nat, now: int)
    requires i < |rows|
    ensures var r := WithStatus(rows, rows[i].id, Processing, None, now);
      r[i] == rows[i].(status := Processing, startedAt := Some(now))
  {
  }

  method UpdateJobStatus(db: Database, jobId: nat, status: Status, resultKey: Option<CacheRef>, now: int)
    requires db.Valid()
    modifies db
    ensures db.Valid()
    ensures db.queue == WithStatus(old(db.queue), jobId, status, resultKey, now)
    ensures db.cache == old(db.cache) && db.events == old(db.events) && db.nextId == old(db.nextId)
  {
    db.queue := WithStatus(db.queue, jobId, status, resultKey, now);
  }

  // ---------------------------------------------------------------------------
  // handle_job_failure

  /** The UPDATE that `handle_job_failure` issues for a job whose snapshot had
      `prior` attempts: the attempt counter becomes prior + 1; at MAX_ATTEMPTS the
      job fails for good with a truncated message and a completion time,
      otherwise it is queued again with its schedule and validity untouched. */
  function AfterFailure(row: WorkItem, prior: nat, message: string, now: int): (r: WorkItem)
    ensures r.attempts == prior + 1
    ensures r.status == Failed <==> prior + 1 >= MAX_ATTEMPTS
    ensures r.status == Queued <==> prior + 1 < MAX_ATTEMPTS
    ensures r.status == Failed ==>
      && r.errorMessage.Some? && r.errorMessage.value <= message
      && |r.errorMessage.value| == (if |message| < ERROR_MESSAGE_LIMIT then |message| else ERROR_MESSAGE_LIMIT)
      && r.completedAt == Some(now)
    ensures r.status == Queued ==>
      r.errorMessage == row.errorMessage && r.completedAt == row.completedAt
    ensures r.(status := row.status, attempts := row.attempts, errorMessage := row.errorMessage,
               completedAt := row.completedAt) == row
  {
    var attempts := prior + 1;
    if attempts >= MAX_ATTEMPTS then
      row.(status := Failed, attempts := attempts,
           errorMessage := Some(Take(message, ERROR_MESSAGE_LIMIT)), completedAt := Some(now))
    else
      row.(status := Queued, attempts := attempts)
  }

  /** `handle_job_failure(connection, job, error_message)`: the attempt count
      comes from the `job` snapshot taken at selection time. */
  function WithFailure(rows: seq<WorkItem>, job: WorkItem, message: string, now: int): (r: seq<WorkItem>)
    ensures |r| == |rows|
    ensures forall i :: 0 <= i < |rows| ==> r[i].id == rows[i].id
    ensures forall i :: 0 <= i < |rows| && rows[i].id != job.id ==> r[i] == rows[i]
    ensures forall i :: 0 <= i < |rows| && rows[i].id == job.id ==> r[i].attempts == job.attempts + 1
  {
    seq(|rows|, i requires 0 <= i < |rows| =>
      if rows[i].id == job.id then AfterFailure(rows[i], job.attempts, message, now) else rows[i])
  }

  /** A re-queued job is eligible again at once: there is no back-off, because the
      retry leaves scheduled_for and valid_until as they were. */
  lemma RetryIsImmediatelyEligible(job: WorkItem, message: string, now: int)
    requires Eligible(job, now) && job.attempts + 1 < MAX_ATTEMPTS
    ensures Eligible(AfterFailure(StatusUpdate(job, Processing, None, now), job.attempts, message, now), now)
  {
  }

  method HandleJobFailure(db: Database, job: WorkItem, message: string, now: int)
    requires db.Valid()
    modifies db
    ensures db.Valid()
    ensures db.queue == WithFailure(old(db.queue), job, message, now)
    ensures db.cache == old(db.cache) && db.events == old(db.events) && db.nextId == old(db.nextId)
  {
    db.queue := WithFailure(db.queue, job, message, now);
  }

  // ---------------------------------------------------------------------------
  // store_in_page_cache

  /** `pattern.get('predicted_query', pattern.get('predicted_action', ''))`; None
      when the value found is null, which makes the key computation raise. */
  function QueryOf(p: Pattern): (q: Option<string>)
    ensures p.predictedQuery.Present? ==> q == Some(p.predictedQuery.v)
    ensures p.predictedQuery.Absent? && p.predictedAction.Present? ==> q == Some(p.predictedAction.v)
    ensures p.predictedQuery.Absent? && p.predictedAction.Absent? ==> q == Some("")
    ensures q.None? <==> p.predictedQuery.Null? || (p.predictedQuery.Absent? && p.predictedAction.Null?)
  {
    match p.predictedQuery
    case Present(q) => Some(q)
    case Null => None
    case Absent => p.predictedAction.GetOr("")
  }

  /** `pattern.get('confidence', 0.7)` */
  function RelevanceOf(p: Pattern): (r: Score)
    ensures p.confidence.NoScore? ==> r == Score(DEFAULT_RELEVANCE)
    ensures !p.confidence.NoScore? ==> r == p.confidence
  {
    if p.confidence.NoScore? then Score(DEFAULT_RELEVANCE) else p.confidence
  }

  predicate HasKey(row: CacheRow, userId: string, key: string) {
    row.userId == userId && row.cacheKey == key
  }

  predicate KeyPresent(cache: seq<CacheRow>, userId: string, key: string) {
    exists i :: 0 <= i < |cache| && HasKey(cache[i], userId, key)
  }

  /** page_cache after an upsert, what the function returns, and the id counter. */
  datatype Upserted = Upserted(cache: seq<CacheRow>, ref: CacheRef, nextId: nat)

  /** INSERT the row; on the (user_id, cache_key) uniqueness conflict UPDATE the
      existing row's components, relevance, validity and creation time instead.
      A fresh insert returns the new row's id, the update returns the key. */
  function Upsert(cache: seq<CacheRow>, nextId: nat, userId: string, query: string,
                  components: seq<Component>, relevance: Score, now: int): Upserted
  {
    var key := CacheKey(userId, query);
    var validUntil := now + CACHE_VALIDITY;
    if KeyPresent(cache, userId, key) then
      Upserted(
        seq(|cache|, i requires 0 <= i < |cache| =>
          if HasKey(cache[i], userId, key)
          then cache[i].(components := components, relevance := relevance,
                         validUntil := validUntil, createdAt := now)
          else cache[i]),
        KeyRef(key), nextId)
    else
      Upserted(
        cache + [CacheRow(nextId, userId, key, "prediction", query, components, relevance, validUntil, now)],
        RowId(nextId), nextId + 1)
  }

  /** After an upsert there is exactly one row for (user, fingerprint): it holds the
      new components and relevance and is valid for 30 minutes; an existing row
      is overwritten in place and keeps its id and its original query text; every
      other row is untouched; the cache stays well formed. A fresh insert returns
      the new row's id, not the fingerprint; only the conflict path returns the
      fingerprint. */
  lemma UpsertOutcome(cache: seq<CacheRow>, nextId: nat, userId: string, query: string,
                      components: seq<Component>, relevance: Score, now: int)
    requires CacheWellFormed(cache, nextId)
    ensures var u := Upsert(cache, nextId, userId, query, components, relevance, now);
      var key := CacheKey(userId, query);
      && CacheWellFormed(u.cache, u.nextId)
      && nextId <= u.nextId
      && (exists i :: 0 <= i < |u.cache| && HasKey(u.cache[i], userId, key)
            && u.cache[i].components == components && u.cache[i].relevance == relevance
            && u.cache[i].validUntil == now + CACHE_VALIDITY)
      && |cache| <= |u.cache| <= |cache| + 1
      && (forall i :: 0 <= i < |cache| && !HasKey(cache[i], userId, key) ==> u.cache[i] == cache[i])
      && (forall i :: 0 <= i < |cache| && HasKey(cache[i], userId, key) ==>
            u.cache[i] == cache[i].(components := components, relevance := relevance,
                                    validUntil := now + CACHE_VALIDITY, createdAt := now))
      && (KeyPresent(cache, userId, key) ==> u.ref == KeyRef(key) && |u.cache| == |cache|)
      && (!KeyPresent(cache, userId, key) ==>
            && u.ref == RowId(nextId) && |u.cache| == |cache| + 1
            && u.cache[|cache|] == CacheRow(nextId, userId, key, "prediction", query, components, relevance,
                                            now + CACHE_VALIDITY, now))
  {
    var key := CacheKey(userId, query);
    var u := Upsert(cache, nextId, userId, query, components, relevance, now);
    if KeyPresent(cache, userId, key) {
      var i :| 0 <= i < |cache| && HasKey(cache[i], userId, key);
      assert HasKey(u.cache[i], userId, key);
    } else {
      var n := |cache|;
      assert HasKey(u.cache[n], userId, key);
      forall i, k | 0 <= i < k < |u.cache|
        ensures u.cache[i].id != u.cache[k].id
        ensures u.cache[i].userId != u.cache[k].userId || u.cache[i].cacheKey != u.cache[k].cacheKey
      {
        if k == n {
          assert !HasKey(cache[i], userId, key);
        }
      }
    }
  }

  /** Upserting while a row with the key is live makes it visible to the
      scheduler's cache check until the new validity runs out. */
  lemma UpsertIsLive(cache: seq<CacheRow>, nextId: nat, userId: string, query: string,
                     components: seq<Component>, relevance: Score, now: int, t: int)
    requires CacheWellFormed(cache, nextId)
    requires t < now + CACHE_VALIDITY
    ensures LiveInCache(Upsert(cache, nextId, userId, query, components, relevance, now).cache,
                        userId, CacheKey(userId, query), t)
  {
    UpsertOutcome(cache, nextId, userId, query, components, relevance, now);
  }

  /** Last writer wins: two writes for the same user and the same normalised query
      leave one row, holding the second write's components; the second write
      takes the conflict path and returns the fingerprint. */
  lemma UpsertTwiceLastWriterWins(cache: seq<CacheRow>, nextId: nat, userId: string,
                                  q1: string, c1: seq<Component>, r1: Score, t1: int,
                                  q2: string, c2: seq<Component>, r2: Score, t2: int)
    requires CacheWellFormed(cache, nextId)
    requires Normalize(q1) == Normalize(q2)
    ensures var u1 := Upsert(cache, nextId, userId, q1, c1, r1, t1);
      var u2 := Upsert(u1.cache, u1.nextId, userId, q2, c2, r2, t2);
      var key := CacheKey(userId, q2);
      && u2.ref == KeyRef(key)
      && (forall i, k :: 0 <= i < k < |u2.cache| ==> !(HasKey(u2.cache[i], userId, key) && HasKey(u2.cache[k], userId, key)))
      && (forall i :: 0 <= i < |u2.cache| && HasKey(u2.cache[i], userId, key) ==>
            u2.cache[i].components == c2 && u2.cache[i].relevance == r2 && u2.cache[i].validUntil == t2 + CACHE_VALIDITY)
  {
    UpsertOutcome(cache, nextId, userId, q1, c1, r1, t1);
    var u1 := Upsert(cache, nextId, userId, q1, c1, r1, t1);
    assert CacheKey(userId, q1) == CacheKey(userId, q2);
    UpsertOutcome(u1.cache, u1.nextId, userId, q2, c2, r2, t2);
  }

  /** `store_in_page_cache(connection, user_id, components, pattern)`; None when
      the key computation raises on a null query (nothing is written then). */
  method StoreInPageCache(db: Database, userId: string, components: seq<Component>, pattern: Pattern, now: int)
    returns (ref: Option<CacheRef>)
    requires db.Valid()
    modifies db
    ensures db.Valid()
    ensures db.queue == old(db.queue) && db.events == old(db.events)
    ensures QueryOf(pattern).None? ==> ref.None? && db.cache == old(db.cache) && db.nextId == old(db.nextId)
    ensures QueryOf(pattern).Some? ==>
      var u := Upsert(old(db.cache), old(db.nextId), userId, QueryOf(pattern).value, components,
                      RelevanceOf(pattern), now);
      ref == Some(u.ref) && db.cache == u.cache && db.nextId == u.nextId
  {
    var query := QueryOf(pattern);
    if query.None? {
      ref := None;
      return;
    }
    var u := Upsert(db.cache, db.nextId, userId, query.value, components, RelevanceOf(pattern), now);
    UpsertOutcome(db.cache, db.nextId, userId, query.value, components, RelevanceOf(pattern), now);
    WellFormedUnderLargerId(db.queue, db.events, db.nextId, u.nextId);
    db.cache, db.nextId := u.cache, u.nextId;
    ref := Some(u.ref);
  }

  // ---------------------------------------------------------------------------
  // get_user_context

  /** What `get_user_context` hands to the model. */
  datatype UserContext =
    | NoRecentActivity
    | Summary(recentQueries: seq<string>, timePatterns: map<string, nat>, totalActivities: nat)

  /** The context of a user whose activity fetch returned `acts`. */
  function ContextOf(acts: seq<ActivityRecord>): UserContext {
    if acts == [] then NoRecentActivity
    else Summary(RecentQueries(acts), Tally(TimesOfDay(acts)), |acts|)
  }

  /** The loop of `get_user_context` over the fetched activity rows: it collects
      every non-empty query and counts every time of day that is set. */
  method CollectActivity(acts: seq<ActivityRecord>) returns (queries: seq<string>, timePatterns: map<string, nat>)
    ensures queries == Queries(acts)
    ensures timePatterns == Tally(TimesOfDay(acts))
  {
    queries, timePatterns := [], map[];
    assert QueryFields(acts[..0]) == [] && TimeOfDayFields(acts[..0]) == [];
    assert Queries(acts[..0]) == [] && TimesOfDay(acts[..0]) == [];
    var i := 0;
    while i < |acts|
      invariant 0 <= i <= |acts|
      invariant queries == Queries(acts[..i])
      invariant timePatterns == Tally(TimesOfDay(acts[..i]))
    {
      assert acts[..i + 1] == acts[..i] + [acts[i]];
      queries, timePatterns := CollectOne(acts[..i], acts[i], queries, timePatterns);
      i := i + 1;
    }
    assert acts[..i] == acts;
  }

  /** One pass of that loop's body, on the record `a` after the records `pre`. */
  method CollectOne(ghost pre: seq<ActivityRecord>, a: ActivityRecord, queries: seq<string>, timePatterns: map<string, nat>)
    returns (queries': seq<string>, timePatterns': map<string, nat>)
    requires queries == Queries(pre) && timePatterns == Tally(TimesOfDay(pre))
    ensures queries' == Queries(pre + [a]) && timePatterns' == Tally(TimesOfDay(pre + [a]))
  {
    QueriesSnoc(pre, a);
    TimesOfDayTallySnoc(pre, a);
    queries', timePatterns' := queries, timePatterns;
    if Truthy(a.query) {
      queries' := queries + [a.query.v];
    }
    if Truthy(a.timeOfDay) {
      timePatterns' := timePatterns[a.timeOfDay.v := Count(timePatterns, a.timeOfDay.v) + 1];
    }
  }

  /** `get_user_context(connection, user_id)` once the activity rows are fetched:
      "No recent activity" for none, otherwise the first ten queries, the
      time-of-day counts and the number of rows. */
  method GetUserContext(acts: seq<ActivityRecord>) returns (ctx: UserContext)
    ensures ctx == ContextOf(acts)
  {
    if acts == [] {
      return NoRecentActivity;
    }
    var queries, timePatterns := CollectActivity(acts);
    ctx := Summary(Take(queries, MAX_RECENT_QUERIES), timePatterns, |acts|);
  }

  /** The summary keeps at most ten queries, the first non-empty ones in fetch
      order, counts each time of day as often as it occurs, and reports the number
      of rows fetched; no activity gives the fixed "No recent activity" answer. */
  lemma ContextSummarises(acts: seq<ActivityRecord>)
    ensures ContextOf(acts).NoRecentActivity? <==> acts == []
    ensures var ctx := ContextOf(acts);
      ctx.Summary? ==>
        && |ctx.recentQueries| == (if |Queries(acts)| < MAX_RECENT_QUERIES then |Queries(acts)| else MAX_RECENT_QUERIES)
        && ctx.recentQueries <= Queries(acts)
        && (forall t :: Count(ctx.timePatterns, t) == multiset(TimesOfDay(acts))[t])
        && ctx.totalActivities == |acts|
  {
    TallyCounts(TimesOfDay(acts));
  }

  // ---------------------------------------------------------------------------
  // lambda_handler

  /** The language model: given a job and its user's context, the components it
      produced, or None when it failed or produced none. */
  type Generate = (WorkItem, UserContext) -> Option<seq<Component>>
  /** The activity_log fetch for a user. */
  type ActivityFetch = string -> seq<ActivityRecord>

  /** The part of the store the consumer writes. */
  datatype Tables = Tables(queue: seq<WorkItem>, cache: seq<CacheRow>, nextId: nat)

  datatype Counters = Counters(jobsProcessed: nat, pagesGenerated: nat, errors: nat)

  datatype JobOutcome = PageGenerated | JobFailed

  function Record(c: Counters, o: JobOutcome): Counters {
    match o
    case PageGenerated => Counters(c.jobsProcessed + 1, c.pagesGenerated + 1, c.errors)
    case JobFailed => Counters(c.jobsProcessed, c.pagesGenerated, c.errors + 1)
  }

  /** One iteration of the job loop: claim, build the context, generate, then
      store and complete, or go through the failure transition. */
  function ProcessJob(t: Tables, job: WorkItem, now: int, generate: Generate, fetch: ActivityFetch)
    : (Tables, JobOutcome)
  {
    var claimed := WithStatus(t.queue, job.id, Processing, None, now);
    var components := generate(job, ContextOf(fetch(job.userId)));
    if components.Some? && |components.value| > 0 then
      match QueryOf(job.context)
      case None =>
        (Tables(WithFailure(claimed, job, NULL_QUERY_MESSAGE, now), t.cache, t.nextId), JobFailed)
      case Some(q) =>
        var u := Upsert(t.cache, t.nextId, job.userId, q, components.value, RelevanceOf(job.context), now);
        (Tables(WithStatus(claimed, job.id, Completed, Some(u.ref), now), u.cache, u.nextId), PageGenerated)
    else
      (Tables(WithFailure(claimed, job, NO_COMPONENTS_MESSAGE, now), t.cache, t.nextId), JobFailed)
  }

  /** The job loop over `jobs` from tables `t` with counters `c` so far. */
  function RunJobs(t: Tables, c: Counters, jobs: seq<WorkItem>, now: int, generate: Generate, fetch: ActivityFetch)
    : (Tables, Counters)
    decreases |jobs|
  {
    if jobs == [] then (t, c)
    else
      var (t', o) := ProcessJob(t, jobs[0], now, generate, fetch);
      RunJobs(t', Record(c, o), jobs[1..], now, generate, fetch)
  }

  /** The loop's step: a run over a non-empty list processes its first job, then
      runs over the rest. */
  lemma RunJobsStep(t: Tables, c: Counters, jobs: seq<WorkItem>, i: nat, now: int, generate: Generate, fetch: ActivityFetch)
    requires i < |jobs|
    ensures var (t', o) := ProcessJob(t, jobs[i], now, generate, fetch);
      RunJobs(t, c, jobs[i..], now, generate, fetch) == RunJobs(t', Record(c, o), jobs[i + 1..], now, generate, fetch)
  {
    assert jobs[i..][0] == jobs[i] && jobs[i..][1..] == jobs[i + 1..];
  }

  /** How a claimed job ends: completed with a result key, re-queued with one more
      attempt and its window untouched, or failed once the attempts reach the
      maximum. */
  predicate Resolved(job: WorkItem, after: WorkItem) {
    && after.id == job.id
    && (|| (after.status == Completed && after.attempts == job.attempts && after.resultCacheKey.Some?)
        || (after.status == Queued && after.attempts == job.attempts + 1 && after.attempts < MAX_ATTEMPTS
            && after.scheduledFor == job.scheduledFor && after.validUntil == job.validUntil)
        || (after.status == Failed && after.attempts == job.attempts + 1 && after.attempts >= MAX_ATTEMPTS
            && after.errorMessage.Some?))
  }

  /** Attempt counters never pass the maximum, and a failed job has used them all. */
  predicate AttemptsBounded(queue: seq<WorkItem>) {
    forall i :: 0 <= i < |queue| ==>
      queue[i].attempts <= MAX_ATTEMPTS && (queue[i].status == Failed ==> queue[i].attempts == MAX_ATTEMPTS)
  }

  /** One job changes only its own row, resolves it, and keeps the cache well
      formed. */
  lemma ProcessJobOutcome(t: Tables, job: WorkItem, now: int, generate: Generate, fetch: ActivityFetch)
    requires CacheWellFormed(t.cache, t.nextId)
    requires forall i :: 0 <= i < |t.queue| && t.queue[i].id == job.id ==> t.queue[i] == job
    ensures var (t', o) := ProcessJob(t, job, now, generate, fetch);
      && |t'.queue| == |t.queue|
      && (forall i :: 0 <= i < |t.queue| ==> t'.queue[i].id == t.queue[i].id)
      && (forall i :: 0 <= i < |t.queue| && t.queue[i].id != job.id ==> t'.queue[i] == t.queue[i])
      && (forall i :: 0 <= i < |t.queue| && t.queue[i].id == job.id ==> Resolved(job, t'.queue[i]))
      && CacheWellFormed(t'.cache, t'.nextId)
      && t.nextId <= t'.nextId
  {
    var claimed := WithStatus(t.queue, job.id, Processing, None, now);
    var t' := ProcessJob(t, job, now, generate, fetch).0;
    ProcessJobFrame(t, job, now, generate, fetch);
    var components := generate(job, ContextOf(fetch(job.userId)));
    if components.Some? && |components.value| > 0 {
      match QueryOf(job.context) {
        case None =>
          assert t'.queue == WithFailure(claimed, job, NULL_QUERY_MESSAGE, now);
        case Some(q) =>
          var u := Upsert(t.cache, t.nextId, job.userId, q, components.value, RelevanceOf(job.context), now);
          assert t'.queue == WithStatus(claimed, job.id, Completed, Some(u.ref), now);
      }
    } else {
      assert t'.queue == WithFailure(claimed, job, NO_COMPONENTS_MESSAGE, now);
    }
  }

  /** The counters of a run: every job counts once, either as a generated page
      (counted as processed too) or as an error. */
  lemma {:induction false} RunCounts(t: Tables, c: Counters, jobs: seq<WorkItem>, now: int,
                                     generate: Generate, fetch: ActivityFetch)
    ensures var (_, c') := RunJobs(t, c, jobs, now, generate, fetch);
      && c'.jobsProcessed - c.jobsProcessed == c'.pagesGenerated - c.pagesGenerated
      && c'.pagesGenerated + c'.errors == c.pagesGenerated + c.errors + |jobs|
    decreases |jobs|
  {
    if jobs != [] {
      var (t', o) := ProcessJob(t, jobs[0], now, generate, fetch);
      RunCounts(t', Record(c, o), jobs[1..], now, generate, fetch);
    }
  }

  /** A run neither adds nor removes queue rows, and rows of jobs it did not
      claim are untouched. */
  lemma {:induction false} RunFrame(t: Tables, c: Counters, jobs: seq<WorkItem>, now: int,
                                    generate: Generate, fetch: ActivityFetch)
    requires CacheWellFormed(t.cache, t.nextId)
    ensures var (t', _) := RunJobs(t, c, jobs, now, generate, fetch);
      && |t'.queue| == |t.queue|
      && (forall i :: 0 <= i < |t.queue| ==> t'.queue[i].id == t.queue[i].id)
      && (forall i :: 0 <= i < |t.queue| && (forall k :: 0 <= k < |jobs| ==> jobs[k].id != t.queue[i].id) ==>
            t'.queue[i] == t.queue[i])
      && CacheWellFormed(t'.cache, t'.nextId)
      && t.nextId <= t'.nextId
    decreases |jobs|
  {
    if jobs != [] {
      var (t1, o) := ProcessJob(t, jobs[0], now, generate, fetch);
      ProcessJobFrame(t, jobs[0], now, generate, fetch);
      RunFrame(t1, Record(c, o), jobs[1..], now, generate, fetch);
      var (t', _) := RunJobs(t, c, jobs, now, generate, fetch);
      forall i | 0 <= i < |t.queue| && (forall k :: 0 <= k < |jobs| ==> jobs[k].id != t.queue[i].id)
        ensures t'.queue[i] == t.queue[i]
      {
        assert jobs[0].id != t.queue[i].id;
        assert forall k :: 0 <= k < |jobs[1..]| ==> jobs[1..][k].id != t1.queue[i].id by {
          forall k | 0 <= k < |jobs[1..]| ensures jobs[1..][k].id != t1.queue[i].id {
            assert jobs[1..][k] == jobs[k + 1];
          }
        }
      }
    }
  }

  /** The part of ProcessJobOutcome that needs nothing about the queue. */
  lemma ProcessJobFrame(t: Tables, job: WorkItem, now: int, generate: Generate, fetch: ActivityFetch)
    requires CacheWellFormed(t.cache, t.nextId)
    ensures var (t', _) := ProcessJob(t, job, now, generate, fetch);
      && |t'.queue| == |t.queue|
      && (forall i :: 0 <= i < |t.queue| ==> t'.queue[i].id == t.queue[i].id)
      && (forall i :: 0 <= i < |t.queue| && t.queue[i].id != job.id ==> t'.queue[i] == t.queue[i])
      && CacheWellFormed(t'.cache, t'.nextId)
      && t.nextId <= t'.nextId
  {
    var claimed := WithStatus(t.queue, job.id, Processing, None, now);
    var t' := ProcessJob(t, job, now, generate, fetch).0;
    var components := generate(job, ContextOf(fetch(job.userId)));
    if components.Some? && |components.value| > 0 {
      match QueryOf(job.context) {
        case None =>
          assert t' == Tables(WithFailure(claimed, job, NULL_QUERY_MESSAGE, now), t.cache, t.nextId);
        case Some(q) =>
          var u := Upsert(t.cache, t.nextId, job.userId, q, components.value, RelevanceOf(job.context), now);
          UpsertKeepsWellFormed(t.cache, t.nextId, job.userId, q, components.value, RelevanceOf(job.context), now);
          assert t' == Tables(WithStatus(claimed, job.id, Completed, Some(u.ref), now), u.cache, u.nextId);
      }
    } else {
      assert t' == Tables(WithFailure(claimed, job, NO_COMPONENTS_MESSAGE, now), t.cache, t.nextId);
    }
  }

  /** The part of UpsertOutcome that the job loop needs. */
  lemma UpsertKeepsWellFormed(cache: seq<CacheRow>, nextId: nat, userId: string, query: string,
                              components: seq<Component>, relevance: Score, now: int)
    requires CacheWellFormed(cache, nextId)
    ensures var u := Upsert(cache, nextId, userId, query, components, relevance, now);
      CacheWellFormed(u.cache, u.nextId) && nextId <= u.nextId
  {
    UpsertOutcome(cache, nextId, userId, query, components, relevance, now);
  }

  /** Every job of a run ends resolved, provided the jobs are distinct and are
      snapshots of their rows, as the selection guarantees. */
  lemma {:induction false} RunResolvesEveryJob(t: Tables, c: Counters, jobs: seq<WorkItem>, now: int,
                                               generate: Generate, fetch: ActivityFetch)
    requires CacheWellFormed(t.cache, t.nextId)
    requires UniqueIds(jobs)
    requires forall k, i :: 0 <= k < |jobs| && 0 <= i < |t.queue| && t.queue[i].id == jobs[k].id ==>
               t.queue[i] == jobs[k]
    ensures var (t', _) := RunJobs(t, c, jobs, now, generate, fetch);
      && |t'.queue| == |t.queue|
      && forall k, i :: 0 <= k < |jobs| && 0 <= i < |t.queue| && t.queue[i].id == jobs[k].id ==>
           Resolved(jobs[k], t'.queue[i])
    decreases |jobs|
  {
    if jobs != [] {
      var job := jobs[0];
      var rest := jobs[1..];
      var (t1, o) := ProcessJob(t, job, now, generate, fetch);
      ProcessJobOutcome(t, job, now, generate, fetch);
      assert forall k, i :: 0 <= k < |rest| && 0 <= i < |t1.queue| && t1.queue[i].id == rest[k].id ==>
               t1.queue[i] == rest[k] by {
        forall k, i | 0 <= k < |rest| && 0 <= i < |t1.queue| && t1.queue[i].id == rest[k].id
          ensures t1.queue[i] == rest[k]
        {
          assert rest[k] == jobs[k + 1];
          assert jobs[0].id != jobs[k + 1].id;
        }
      }
      RunResolvesEveryJob(t1, Record(c, o), rest, now, generate, fetch);
      RunFrame(t1, Record(c, o), rest, now, generate, fetch);
      var (t', _) := RunJobs(t, c, jobs, now, generate, fetch);
      forall k, i | 0 <= k < |jobs| && 0 <= i < |t.queue| && t.queue[i].id == jobs[k].id
        ensures Resolved(jobs[k], t'.queue[i])
      {
        if k == 0 {
          forall m | 0 <= m < |rest| ensures rest[m].id != t1.queue[i].id {
            assert rest[m] == jobs[m + 1];
          }
        } else {
          assert rest[k - 1] == jobs[k];
        }
      }
    }
  }

  /** A run over jobs that all had attempts left keeps every attempt counter at or
      below the maximum, and a failed job at exactly the maximum. */
  lemma {:induction false} RunKeepsAttemptsBounded(t: Tables, c: Counters, jobs: seq<WorkItem>, now: int,
                                                   generate: Generate, fetch: ActivityFetch)
    requires AttemptsBounded(t.queue)
    requires forall k :: 0 <= k < |jobs| ==> jobs[k].attempts < MAX_ATTEMPTS
    ensures AttemptsBounded(RunJobs(t, c, jobs, now, generate, fetch).0.queue)
    decreases |jobs|
  {
    if jobs != [] {
      var (t1, o) := ProcessJob(t, jobs[0], now, generate, fetch);
      assert AttemptsBounded(t1.queue);
      assert forall k :: 0 <= k < |jobs[1..]| ==> jobs[1..][k].attempts < MAX_ATTEMPTS by {
        forall k | 0 <= k < |jobs[1..]| ensures jobs[1..][k].attempts < MAX_ATTEMPTS {
          assert jobs[1..][k] == jobs[k + 1];
        }
      }
      RunKeepsAttemptsBounded(t1, Record(c, o), jobs[1..], now, generate, fetch);
    }
  }

  /** Rows of a well-formed table are the only rows with their id. */
  lemma SelectedAreSnapshots(queue: seq<WorkItem>, nextId: nat, jobs: seq<WorkItem>)
    requires QueueWellFormed(queue, nextId)
    requires forall k :: 0 <= k < |jobs| ==> jobs[k] in queue
    ensures forall k, i :: 0 <= k < |jobs| && 0 <= i < |queue| && queue[i].id == jobs[k].id ==>
              queue[i] == jobs[k]
  {
    forall k, i | 0 <= k < |jobs| && 0 <= i < |queue| && queue[i].id == jobs[k].id
      ensures queue[i] == jobs[k]
    {
      var m :| 0 <= m < |queue| && queue[m] == jobs[k];
      assert m == i;
    }
  }

  /** What a run promises about the queue: the counters account for every selected
      job, each selected job's row ends resolved, every other row is untouched,
      and attempt counters stay bounded. */
  lemma RunSummary(t: Tables, now: int, generate: Generate, fetch: ActivityFetch)
    requires QueueWellFormed(t.queue, t.nextId) && CacheWellFormed(t.cache, t.nextId)
    ensures var jobs := SelectPending(t.queue, now);
      var (t', c) := RunJobs(t, Counters(0, 0, 0), jobs, now, generate, fetch);
      && c.jobsProcessed == c.pagesGenerated
      && c.pagesGenerated + c.errors == |jobs|
      && |t'.queue| == |t.queue|
      && (forall i :: 0 <= i < |t.queue| ==> t'.queue[i].id == t.queue[i].id)
      && (forall i :: 0 <= i < |t.queue| && t.queue[i] in jobs ==> Resolved(t.queue[i], t'.queue[i]))
      && (forall i :: 0 <= i < |t.queue| && t.queue[i] !in jobs ==> t'.queue[i] == t.queue[i])
      && (AttemptsBounded(t.queue) ==> AttemptsBounded(t'.queue))
      && CacheWellFormed(t'.cache, t'.nextId)
      && t.nextId <= t'.nextId
  {
    var jobs := SelectPending(t.queue, now);
    RunCounts(t, Counters(0, 0, 0), jobs, now, generate, fetch);
    SelectJobsUnique(t.queue, now, MAX_JOBS_PER_RUN);
    SelectedAreSnapshots(t.queue, t.nextId, jobs);
    RunSummaryRows(t, jobs, now, generate, fetch);
  }

  /** The part of RunSummary about the rows of the queue, for any list of
      distinct jobs that are snapshots of their rows and have attempts left. */
  lemma RunSummaryRows(t: Tables, jobs: seq<WorkItem>, now: int, generate: Generate, fetch: ActivityFetch)
    requires CacheWellFormed(t.cache, t.nextId)
    requires UniqueIds(jobs)
    requires forall k, i :: 0 <= k < |jobs| && 0 <= i < |t.queue| && t.queue[i].id == jobs[k].id ==>
               t.queue[i] == jobs[k]
    requires forall k :: 0 <= k < |jobs| ==> jobs[k].attempts < MAX_ATTEMPTS
    ensures var t' := RunJobs(t, Counters(0, 0, 0), jobs, now, generate, fetch).0;
      && |t'.queue| == |t.queue|
      && (forall i :: 0 <= i < |t.queue| ==> t'.queue[i].id == t.queue[i].id)
      && (forall i :: 0 <= i < |t.queue| && t.queue[i] in jobs ==> Resolved(t.queue[i], t'.queue[i]))
      && (forall i :: 0 <= i < |t.queue| && t.queue[i] !in jobs ==> t'.queue[i] == t.queue[i])
      && (AttemptsBounded(t.queue) ==> AttemptsBounded(t'.queue))
      && CacheWellFormed(t'.cache, t'.nextId)
      && t.nextId <= t'.nextId
  {
    var zero := Counters(0, 0, 0);
    var t' := RunJobs(t, zero, jobs, now, generate, fetch).0;
    RunFrame(t, zero, jobs, now, generate, fetch);
    RunResolvesEveryJob(t, zero, jobs, now, generate, fetch);
    if AttemptsBounded(t.queue) {
      RunKeepsAttemptsBounded(t, zero, jobs, now, generate, fetch);
    }
    forall i | 0 <= i < |t.queue| && t.queue[i] in jobs
      ensures Resolved(t.queue[i], t'.queue[i])
    {
      var k :| 0 <= k < |jobs| && jobs[k] == t.queue[i];
    }
    forall i | 0 <= i < |t.queue| && t.queue[i] !in jobs
      ensures t'.queue[i] == t.queue[i]
    {
      assert forall k :: 0 <= k < |jobs| ==> jobs[k].id != t.queue[i].id;
    }
  }

  /** The body of the job loop's `try`: claim the job, build its context, generate,
      then store and complete it, or hand it to the failure transition. */
  method ProcessOne(db: Database, job: WorkItem, now: int, generate: Generate, fetch: ActivityFetch)
    returns (outcome: JobOutcome)
    requires db.Valid()
    modifies db
    ensures db.Valid()
    ensures db.events == old(db.events)
    ensures (Tables(db.queue, db.cache, db.nextId), outcome)
         == ProcessJob(Tables(old(db.queue), old(db.cache), old(db.nextId)), job, now, generate, fetch)
  {
    UpdateJobStatus(db, job.id, Processing, None, now);
    var context := GetUserContext(fetch(job.userId));
    var components := generate(job, context);
    if components.Some? && |components.value| > 0 {
      var ref := StoreInPageCache(db, job.userId, components.value, job.context, now);
      if ref.Some? {
        UpdateJobStatus(db, job.id, Completed, ref, now);
        outcome := PageGenerated;
      } else {
        HandleJobFailure(db, job, NULL_QUERY_MESSAGE, now);
        outcome := JobFailed;
      }
    } else {
      HandleJobFailure(db, job, NO_COMPONENTS_MESSAGE, now);
      outcome := JobFailed;
    }
  }

  /** The job loop of the consumer's `lambda_handler`: each claimed job is
      processed in selection order and a failing job does not stop the run. */
  method ProcessJobs(db: Database, jobs: seq<WorkItem>, now: int, generate: Generate, fetch: ActivityFetch)
    returns (jobsProcessed: nat, pagesGenerated: nat, errors: nat)
    requires db.Valid()
    modifies db
    ensures db.Valid()
    ensures db.events == old(db.events)
    ensures (Tables(db.queue, db.cache, db.nextId), Counters(jobsProcessed, pagesGenerated, errors))
         == RunJobs(Tables(old(db.queue), old(db.cache), old(db.nextId)), Counters(0, 0, 0), jobs, now, generate, fetch)
  {
    ghost var run := RunJobs(Tables(db.queue, db.cache, db.nextId), Counters(0, 0, 0), jobs, now, generate, fetch);
    jobsProcessed, pagesGenerated, errors := 0, 0, 0;
    var i := 0;
    while i < |jobs|
      invariant 0 <= i <= |jobs|
      invariant db.Valid()
      invariant db.events == old(db.events)
      invariant RunJobs(Tables(db.queue, db.cache, db.nextId), Counters(jobsProcessed, pagesGenerated, errors),
                        jobs[i..], now, generate, fetch) == run
    {
      ghost var before := Tables(db.queue, db.cache, db.nextId);
      ghost var counted := Counters(jobsProcessed, pagesGenerated, errors);
      ghost var step := ProcessJob(before, jobs[i], now, generate, fetch);
      RunJobsStep(before, counted, jobs, i, now, generate, fetch);
      var outcome := ProcessOne(db, jobs[i], now, generate, fetch);
      assert Tables(db.queue, db.cache, db.nextId) == step.0 && outcome == step.1;
      var next := Record(Counters(jobsProcessed, pagesGenerated, errors), outcome);
      jobsProcessed, pagesGenerated, errors := next.jobsProcessed, next.pagesGenerated, next.errors;
      i := i + 1;
    }
    assert jobs[i..] == [];
  }

  /** `lambda_handler` of the consumer: select the pending jobs, then run the job
      loop over them. Returns jobs_processed, pages_generated and errors; with no
      pending job all three are zero. */
  method RunOnce(db: Database, now: int, generate: Generate, fetch: ActivityFetch)
    returns (jobsProcessed: nat, pagesGenerated: nat, errors: nat)
    requires db.Valid()
    modifies db
    ensures db.Valid()
    ensures db.events == old(db.events)
    ensures (Tables(db.queue, db.cache, db.nextId), Counters(jobsProcessed, pagesGenerated, errors))
         == RunJobs(Tables(old(db.queue), old(db.cache), old(db.nextId)), Counters(0, 0, 0),
                    SelectPending(old(db.queue), now), now, generate, fetch)
  {
    var jobs := SelectPending(db.queue, now);
    if jobs == [] {
      return 0, 0, 0;
    }
    jobsProcessed, pagesGenerated, errors := ProcessJobs(db, jobs, now, generate, fetch);
  }
}
