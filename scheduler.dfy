/** The producer worker (prediction_scheduler): it summarises a user's activity
    for a pattern-detection model, keeps the patterns the model is at least 60%
    sure of, and admits the ones it is at least 70% sure of into generation_queue,
    unless an equivalent job is already pending or an equivalent page is already
    cached. The model call itself is not part of this module: its output is the
    `patterns` argument. */
module Scheduler {
  import opened Common
  import opened Store
  import opened Fingerprint
  import opened Activity

  /** The pattern model must be at least this sure for a pattern to be kept. */
  const MIN_CONFIDENCE: real := 0.6
  /** ... and at least this sure for the pattern to be queued. */
  const QUEUE_CONFIDENCE: real := 0.7
  /** Without a trigger time a job is scheduled 30 minutes ahead. */
  const DEFAULT_LEAD: int := 30 * MINUTE
  /** A queued job stays valid for an hour after its trigger time. */
  const JOB_VALIDITY: int := HOUR

  /** `pattern.get('confidence', 0)` as a number; None when it is not a number and
      comparing it raises. */
  function ConfidenceOf(p: Pattern): Option<real> {
    match p.confidence
    case NoScore => Some(0.0)
    case NotANumber => None
    case Score(v) => Some(v)
  }

  // ---------------------------------------------------------------------------
  // The MIN_CONFIDENCE filter of analyze_patterns_with_llama

  /** `[p for p in patterns if p.get('confidence', 0) >= MIN_CONFIDENCE]`; None when
      some confidence is not a number, so the comprehension raises. */
  function KeepConfident(patterns: seq<Pattern>): (r: Option<seq<Pattern>>)
    ensures r.None? <==> exists p :: p in patterns && ConfidenceOf(p).None?
    ensures r.Some? ==> forall p :: p in r.value <==> p in patterns && ConfidenceOf(p).value >= MIN_CONFIDENCE
    ensures r.Some? ==> |r.value| <= |patterns|
  {
    if patterns == [] then Some([])
    else
      var p := patterns[0];
      assert patterns == [p] + patterns[1..];
      match ConfidenceOf(p)
      case None => None
      case Some(c) =>
        match KeepConfident(patterns[1..])
        case None => None
        case Some(rest) => Some(if c >= MIN_CONFIDENCE then [p] + rest else rest)
  }

  /** Filtering commutes with concatenation, so the kept patterns stay in their
      original order. */
  lemma {:induction false} KeepConfidentAppend(a: seq<Pattern>, b: seq<Pattern>)
    requires KeepConfident(a).Some? && KeepConfident(b).Some?
    ensures KeepConfident(a + b) == Some(KeepConfident(a).value + KeepConfident(b).value)
    decreases |a|
  {
    if a == [] {
      assert a + b == b;
      assert KeepConfident(a) == Some([]);
      assert [] + KeepConfident(b).value == KeepConfident(b).value;
    } else {
      assert a == [a[0]] + a[1..];
      assert (a + b)[0] == a[0] && (a + b)[1..] == a[1..] + b;
      assert ConfidenceOf(a[0]).Some? && KeepConfident(a[1..]).Some?;
      KeepConfidentAppend(a[1..], b);
      var x, y := KeepConfident(a[1..]).value, KeepConfident(b).value;
      assert [a[0]] + (x + y) == ([a[0]] + x) + y;
    }
  }

  // ---------------------------------------------------------------------------
  // queue_predictions

  /** `int(confidence * 100)`: truncated, not rounded. */
  function Priority(confidence: real): (p: int)
    ensures confidence >= 0.0 ==> 0 <= p && p as real <= confidence * 100.0 < p as real + 1.0
  {
    Trunc(confidence * 100.0)
  }

  /** A confidence of 0.855 gives priority 85, where rounding would give 86. */
  lemma PriorityTruncates()
    ensures Priority(0.855) == 85
  {
    assert 0.855 * 100.0 == 85.5;
  }

  /** The trigger time of a pattern: its parsed `trigger_time`, 30 minutes from
      now when it has none, and None when `fromisoformat` rejects it. */
  function TriggerOf(p: Pattern, now: int): (t: Option<int>)
    ensures p.triggerTime.NoTime? ==> t == Some(now + DEFAULT_LEAD)
    ensures p.triggerTime.Unparseable? <==> t.None?
    ensures p.triggerTime.Parsed? ==> t == Some(p.triggerTime.t)
  {
    match p.triggerTime
    case NoTime => Some(now + DEFAULT_LEAD)
    case Unparseable => None
    case Parsed(t) => Some(t)
  }

  /** `pattern.get('predicted_action')`, the job's predicted_need. */
  function ActionOf(p: Pattern): Option<string> {
    if p.predictedAction.Present? then Some(p.predictedAction.v) else None
  }

  /** The first duplicate check: a queued job of this user for the same predicted
      need that is scheduled after now. A missing or null need is compared with
      SQL `=` against NULL and never matches. */
  predicate PendingDuplicate(queue: seq<WorkItem>, userId: string, need: Option<string>, now: int) {
    && need.Some?
    && exists i :: 0 <= i < |queue| && queue[i].userId == userId && queue[i].predictedNeed == need
                   && queue[i].status == Queued && queue[i].scheduledFor > now
  }

  /** The second duplicate check, made only when the pattern's predicted query is
      non-empty: a live page_cache row under the query's fingerprint. */
  predicate CachedDuplicate(cache: seq<CacheRow>, userId: string, p: Pattern, now: int) {
    Truthy(p.predictedQuery) && LiveInCache(cache, userId, CacheKey(userId, p.predictedQuery.v), now)
  }

  /** The generation_queue row the INSERT writes. */
  function NewJob(id: nat, userId: string, p: Pattern, confidence: real, trigger: int, now: int): WorkItem {
    WorkItem(id, userId, "prediction", Priority(confidence), ActionOf(p), p,
             trigger, trigger + JOB_VALIDITY, Queued, 0, None, None, None, None, now)
  }

  /** What becomes of one candidate pattern. */
  datatype Admission =
    | ConfidenceRaises   // comparing a non-numeric confidence raises out of the loop
    | BelowThreshold     // confidence < 0.7: skipped
    | BadTriggerTime     // fromisoformat raised: rolled back and skipped
    | AlreadyQueued      // first duplicate check
    | AlreadyCached      // second duplicate check
    | InsertFailed       // the INSERT raised: rolled back and skipped
    | Admitted(row: WorkItem)

  /** One iteration of the `for pattern in patterns` loop of `queue_predictions`. */
  function Admit(queue: seq<WorkItem>, cache: seq<CacheRow>, now: int, userId: string, p: Pattern,
                 freshId: nat, inserts: InsertOutcome): Admission
  {
    match ConfidenceOf(p)
    case None => ConfidenceRaises
    case Some(c) =>
      if c < QUEUE_CONFIDENCE then BelowThreshold
      else
        match TriggerOf(p, now)
        case None => BadTriggerTime
        case Some(trigger) =>
          if PendingDuplicate(queue, userId, ActionOf(p), now) then AlreadyQueued
          else if CachedDuplicate(cache, userId, p, now) then AlreadyCached
          else if !inserts(freshId) then InsertFailed
          else Admitted(NewJob(freshId, userId, p, c, trigger, now))
  }

  /** Only a pattern at least 70% sure, with a usable trigger time, and with
      neither kind of duplicate, is admitted; the row it gets is queued with
      truncated priority, scheduled at the trigger time and valid for an hour
      after it, and records the predicted action as its need. */
  lemma AdmissionRule(queue: seq<WorkItem>, cache: seq<CacheRow>, now: int, userId: string, p: Pattern,
                      freshId: nat, inserts: InsertOutcome)
    ensures var a := Admit(queue, cache, now, userId, p, freshId, inserts);
      && (a.ConfidenceRaises? <==> ConfidenceOf(p).None?)
      && (a.BelowThreshold? <==> ConfidenceOf(p).Some? && ConfidenceOf(p).value < QUEUE_CONFIDENCE)
      && (a.Admitted? <==>
            && ConfidenceOf(p).Some? && ConfidenceOf(p).value >= QUEUE_CONFIDENCE
            && TriggerOf(p, now).Some?
            && !PendingDuplicate(queue, userId, ActionOf(p), now)
            && !CachedDuplicate(cache, userId, p, now)
            && inserts(freshId))
      && (a.Admitted? ==>
            && a.row.id == freshId && a.row.userId == userId && a.row.jobType == "prediction"
            && a.row.status == Queued && a.row.attempts == 0 && a.row.context == p
            && a.row.predictedNeed == ActionOf(p)
            && a.row.priority == Priority(ConfidenceOf(p).value)
            && a.row.scheduledFor == TriggerOf(p, now).value
            && a.row.validUntil == a.row.scheduledFor + JOB_VALIDITY
            && a.row.scheduledFor < a.row.validUntil)
  {
  }

  /** A pattern below the queueing threshold (a missing confidence counts as 0)
      never produces a row. */
  lemma BelowThresholdNeverQueued(queue: seq<WorkItem>, cache: seq<CacheRow>, now: int, userId: string,
                                  p: Pattern, freshId: nat, inserts: InsertOutcome)
    requires p.confidence.NoScore? || (p.confidence.Score? && p.confidence.v < QUEUE_CONFIDENCE)
    ensures Admit(queue, cache, now, userId, p, freshId, inserts) == BelowThreshold
  {
  }

  /** Without a trigger time the job is scheduled 30 minutes ahead and expires 90
      minutes ahead; an unparseable trigger time is not defaulted, the candidate
      is skipped instead. */
  lemma TriggerTimeDefaults(queue: seq<WorkItem>, cache: seq<CacheRow>, now: int, userId: string,
                            p: Pattern, freshId: nat, inserts: InsertOutcome)
    requires ConfidenceOf(p).Some? && ConfidenceOf(p).value >= QUEUE_CONFIDENCE
    ensures var a := Admit(queue, cache, now, userId, p, freshId, inserts);
      && (p.triggerTime.NoTime? && a.Admitted? ==>
            a.row.scheduledFor == now + 30 * MINUTE && a.row.validUntil == now + 90 * MINUTE)
      && (p.triggerTime.Unparseable? ==> a == BadTriggerTime)
  {
  }

  /** The first duplicate check is idempotence: once a pattern with a predicted
      action is admitted, admitting it again finds the pending row for as long as
      its scheduled time lies ahead, whatever else happened to the queue. */
  lemma ReadmissionIsDeduplicated(queue: seq<WorkItem>, cache: seq<CacheRow>, now: int, userId: string,
                                  p: Pattern, freshId: nat, inserts: InsertOutcome,
                                  later: seq<WorkItem>, cache': seq<CacheRow>, now': int, freshId': nat)
    requires Admit(queue, cache, now, userId, p, freshId, inserts).Admitted?
    requires ActionOf(p).Some?
    requires Admit(queue, cache, now, userId, p, freshId, inserts).row in later
    requires now' < Admit(queue, cache, now, userId, p, freshId, inserts).row.scheduledFor
    ensures Admit(later, cache', now', userId, p, freshId', inserts) == AlreadyQueued
  {
    var row := Admit(queue, cache, now, userId, p, freshId, inserts).row;
    var i :| 0 <= i < |later| && later[i] == row;
    assert PendingDuplicate(later, userId, ActionOf(p), now');
  }

  /** A pattern without a predicted action is never caught by the first duplicate
      check, so admitting it twice queues it twice. */
  lemma MissingActionNeverDeduplicated(queue: seq<WorkItem>, userId: string, p: Pattern, now: int)
    requires !p.predictedAction.Present?
    ensures !PendingDuplicate(queue, userId, ActionOf(p), now)
  {
  }

  /** The second duplicate check is skipped for an empty or missing predicted
      query: the decision does not depend on page_cache at all. */
  lemma EmptyQueryIgnoresCache(queue: seq<WorkItem>, cache1: seq<CacheRow>, cache2: seq<CacheRow>, now: int,
                               userId: string, p: Pattern, freshId: nat, inserts: InsertOutcome)
    requires !Truthy(p.predictedQuery)
    ensures Admit(queue, cache1, now, userId, p, freshId, inserts) == Admit(queue, cache2, now, userId, p, freshId, inserts)
  {
  }

  /** A live cache row under the query's fingerprint blocks the pattern even when
      the cached page was generated for a query that differs in case or in
      surrounding white space. */
  lemma LiveCacheBlocks(queue: seq<WorkItem>, cache: seq<CacheRow>, now: int, userId: string, p: Pattern,
                        freshId: nat, inserts: InsertOutcome, cachedQuery: string)
    requires ConfidenceOf(p).Some? && ConfidenceOf(p).value >= QUEUE_CONFIDENCE
    requires TriggerOf(p, now).Some?
    requires !PendingDuplicate(queue, userId, ActionOf(p), now)
    requires Truthy(p.predictedQuery)
    requires Normalize(cachedQuery) == Normalize(p.predictedQuery.v)
    requires LiveInCache(cache, userId, CacheKey(userId, cachedQuery), now)
    ensures Admit(queue, cache, now, userId, p, freshId, inserts) == AlreadyCached
  {
  }

  /** The state `queue_predictions` leaves behind: the queue, the id counter, the
      number of rows inserted, and whether the loop ended by raising. */
  datatype Queueing = Queueing(queue: seq<WorkItem>, nextId: nat, queued: nat, raised: bool)

  /** The loop of `queue_predictions` over `patterns`, from a queue, an id counter
      and `queued` rows so far. Each insert attempt draws a fresh id. Errors inside
      the `try` skip one candidate; a non-numeric confidence is compared outside
      the `try` and ends the loop. */
  function AdmitAll(queue: seq<WorkItem>, nextId: nat, queued: nat, cache: seq<CacheRow>, now: int,
                    userId: string, patterns: seq<Pattern>, inserts: InsertOutcome): Queueing
    decreases |patterns|
  {
    if patterns == [] then Queueing(queue, nextId, queued, false)
    else
      match Admit(queue, cache, now, userId, patterns[0], nextId, inserts)
      case ConfidenceRaises => Queueing(queue, nextId, queued, true)
      case Admitted(row) => AdmitAll(queue + [row], nextId + 1, queued + 1, cache, now, userId, patterns[1..], inserts)
      case InsertFailed => AdmitAll(queue, nextId + 1, queued, cache, now, userId, patterns[1..], inserts)
      case _ => AdmitAll(queue, nextId, queued, cache, now, userId, patterns[1..], inserts)
  }

  /** The loop's step: a call on a non-empty list stops at a confidence that
      raises; otherwise it appends the row of an admitted first pattern, uses up an
      id on an attempted insert, and carries on with the rest. */
  lemma AdmitAllStep(queue: seq<WorkItem>, nextId: nat, queued: nat, cache: seq<CacheRow>, now: int,
                     userId: string, patterns: seq<Pattern>, i: nat, inserts: InsertOutcome, a: Admission)
    requires i < |patterns|
    requires a == Admit(queue, cache, now, userId, patterns[i], nextId, inserts)
    ensures a.ConfidenceRaises? ==>
      AdmitAll(queue, nextId, queued, cache, now, userId, patterns[i..], inserts)
      == Queueing(queue, nextId, queued, true)
    ensures !a.ConfidenceRaises? ==>
      AdmitAll(queue, nextId, queued, cache, now, userId, patterns[i..], inserts)
      == AdmitAll(if a.Admitted? then queue + [a.row] else queue,
                  if a.Admitted? || a.InsertFailed? then nextId + 1 else nextId,
                  if a.Admitted? then queued + 1 else queued,
                  cache, now, userId, patterns[i + 1..], inserts)
  {
    assert patterns[i..][0] == patterns[i] && patterns[i..][1..] == patterns[i + 1..];
  }

  /** The rows a call adds, in order, each describing one admitted pattern. */
  predicate AdmittedRow(row: WorkItem, userId: string, patterns: seq<Pattern>, nextId: nat, nextId': nat) {
    && row.context in patterns
    && row.userId == userId && row.jobType == "prediction" && row.status == Queued && row.attempts == 0
    && ConfidenceOf(row.context).Some? && ConfidenceOf(row.context).value >= QUEUE_CONFIDENCE
    && row.priority == Priority(ConfidenceOf(row.context).value)
    && row.predictedNeed == ActionOf(row.context)
    && row.validUntil == row.scheduledFor + JOB_VALIDITY
    && nextId <= row.id < nextId'
  }

  /** An admitted pattern's row is an admitted row carrying the fresh id. */
  lemma AdmittedRowOf(queue: seq<WorkItem>, cache: seq<CacheRow>, now: int, userId: string, p: Pattern,
                      freshId: nat, inserts: InsertOutcome, patterns: seq<Pattern>)
    requires Admit(queue, cache, now, userId, p, freshId, inserts).Admitted? && p in patterns
    ensures var row := Admit(queue, cache, now, userId, p, freshId, inserts).row;
      row.id == freshId && AdmittedRow(row, userId, patterns, freshId, freshId + 1)
  {
    AdmissionRule(queue, cache, now, userId, p, freshId, inserts);
  }

  /** `queue_predictions` only appends: the old rows stay as they were, the count
      it returns is the number of rows it appended, and that number is at most
      the number of candidates. */
  lemma {:induction false} AdmitAllAppends(queue: seq<WorkItem>, nextId: nat, queued: nat, cache: seq<CacheRow>,
                                           now: int, userId: string, patterns: seq<Pattern>, inserts: InsertOutcome)
    ensures var r := AdmitAll(queue, nextId, queued, cache, now, userId, patterns, inserts);
      && nextId <= r.nextId
      && |queue| <= |r.queue| && r.queue[..|queue|] == queue
      && r.queued - queued == |r.queue| - |queue| <= |patterns|
    decreases |patterns|
  {
    if patterns != [] {
      var rest := patterns[1..];
      var a := Admit(queue, cache, now, userId, patterns[0], nextId, inserts);
      AdmitAllStep(queue, nextId, queued, cache, now, userId, patterns, 0, inserts, a);
      assert patterns[0..] == patterns;
      if a.Admitted? {
        AdmitAllAppends(queue + [a.row], nextId + 1, queued + 1, cache, now, userId, rest, inserts);
        var r := AdmitAll(queue + [a.row], nextId + 1, queued + 1, cache, now, userId, rest, inserts);
        assert r.queue[..|queue|] == (queue + [a.row])[..|queue|] by {
          assert r.queue[..|queue|] == r.queue[..|queue| + 1][..|queue|];
        }
      } else if a.InsertFailed? {
        AdmitAllAppends(queue, nextId + 1, queued, cache, now, userId, rest, inserts);
      } else if !a.ConfidenceRaises? {
        AdmitAllAppends(queue, nextId, queued, cache, now, userId, rest, inserts);
      }
    }
  }

  /** Every row `queue_predictions` appends is an admitted candidate with a fresh
      id. */
  lemma {:induction false} AdmitAllRows(queue: seq<WorkItem>, nextId: nat, queued: nat, cache: seq<CacheRow>,
                                        now: int, userId: string, patterns: seq<Pattern>, inserts: InsertOutcome)
    ensures var r := AdmitAll(queue, nextId, queued, cache, now, userId, patterns, inserts);
      forall i :: |queue| <= i < |r.queue| ==> AdmittedRow(r.queue[i], userId, patterns, nextId, r.nextId)
    decreases |patterns|
  {
    if patterns != [] {
      var p := patterns[0];
      var rest := patterns[1..];
      var a := Admit(queue, cache, now, userId, p, nextId, inserts);
      AdmitAllStep(queue, nextId, queued, cache, now, userId, patterns, 0, inserts, a);
      assert patterns[0..] == patterns;
      if a.Admitted? {
        var row := a.row;
        AdmittedRowOf(queue, cache, now, userId, p, nextId, inserts, patterns);
        AdmitAllAppends(queue + [row], nextId + 1, queued + 1, cache, now, userId, rest, inserts);
        AdmitAllRows(queue + [row], nextId + 1, queued + 1, cache, now, userId, rest, inserts);
        var r := AdmitAll(queue + [row], nextId + 1, queued + 1, cache, now, userId, rest, inserts);
        assert r.queue[|queue|] == (queue + [row])[|queue|];
        forall i | |queue| <= i < |r.queue|
          ensures AdmittedRow(r.queue[i], userId, patterns, nextId, r.nextId)
        {
          if i > |queue| {
            assert AdmittedRow(r.queue[i], userId, rest, nextId + 1, r.nextId);
            assert r.queue[i].context in patterns;
          }
        }
      } else if !a.ConfidenceRaises? {
        var n := if a.InsertFailed? then nextId + 1 else nextId;
        AdmitAllRows(queue, n, queued, cache, now, userId, rest, inserts);
        var r := AdmitAll(queue, n, queued, cache, now, userId, rest, inserts);
        forall i | |queue| <= i < |r.queue|
          ensures AdmittedRow(r.queue[i], userId, patterns, nextId, r.nextId)
        {
          assert AdmittedRow(r.queue[i], userId, rest, n, r.nextId);
          assert r.queue[i].context in patterns;
        }
      }
    }
  }

  /** The ids of the rows `queue_predictions` appends increase in insertion
      order. */
  lemma {:induction false} AdmitAllIdsIncrease(queue: seq<WorkItem>, nextId: nat, queued: nat, cache: seq<CacheRow>,
                                               now: int, userId: string, patterns: seq<Pattern>, inserts: InsertOutcome)
    ensures var r := AdmitAll(queue, nextId, queued, cache, now, userId, patterns, inserts);
      forall i, k :: |queue| <= i < k < |r.queue| ==> r.queue[i].id < r.queue[k].id
    decreases |patterns|
  {
    if patterns != [] {
      var rest := patterns[1..];
      var a := Admit(queue, cache, now, userId, patterns[0], nextId, inserts);
      AdmitAllStep(queue, nextId, queued, cache, now, userId, patterns, 0, inserts, a);
      assert patterns[0..] == patterns;
      if a.Admitted? {
        var row := a.row;
        AdmittedRowOf(queue, cache, now, userId, patterns[0], nextId, inserts, patterns);
        AdmitAllAppends(queue + [row], nextId + 1, queued + 1, cache, now, userId, rest, inserts);
        AdmitAllRows(queue + [row], nextId + 1, queued + 1, cache, now, userId, rest, inserts);
        AdmitAllIdsIncrease(queue + [row], nextId + 1, queued + 1, cache, now, userId, rest, inserts);
        var r := AdmitAll(queue + [row], nextId + 1, queued + 1, cache, now, userId, rest, inserts);
        assert r.queue[|queue|] == (queue + [row])[|queue|];
        forall i, k | |queue| <= i < k < |r.queue|
          ensures r.queue[i].id < r.queue[k].id
        {
          assert AdmittedRow(r.queue[k], userId, rest, nextId + 1, r.nextId);
        }
      } else if a.InsertFailed? {
        AdmitAllIdsIncrease(queue, nextId + 1, queued, cache, now, userId, rest, inserts);
      } else if !a.ConfidenceRaises? {
        AdmitAllIdsIncrease(queue, nextId, queued, cache, now, userId, rest, inserts);
      }
    }
  }

  /** Appending a row with the next fresh id keeps the queue well formed. */
  lemma AppendFresh(queue: seq<WorkItem>, nextId: nat, row: WorkItem)
    requires QueueWellFormed(queue, nextId) && row.id == nextId
    ensures QueueWellFormed(queue + [row], nextId + 1)
  {
  }

  /** The candidates the 0.6 filter keeps never make `queue_predictions` raise:
      every one of them has a numeric confidence. */
  lemma {:induction false} FilteredNeverRaises(queue: seq<WorkItem>, nextId: nat, queued: nat, cache: seq<CacheRow>,
                                               now: int, userId: string, patterns: seq<Pattern>, inserts: InsertOutcome)
    requires forall p :: p in patterns ==> ConfidenceOf(p).Some?
    ensures !AdmitAll(queue, nextId, queued, cache, now, userId, patterns, inserts).raised
    decreases |patterns|
  {
    if patterns != [] {
      var rest := patterns[1..];
      assert forall x :: x in rest ==> x in patterns;
      assert ConfidenceOf(patterns[0]).Some?;
      match Admit(queue, cache, now, userId, patterns[0], nextId, inserts)
      case ConfidenceRaises =>
        assert false;
      case Admitted(row) =>
        FilteredNeverRaises(queue + [row], nextId + 1, queued + 1, cache, now, userId, rest, inserts);
      case InsertFailed =>
        FilteredNeverRaises(queue, nextId + 1, queued, cache, now, userId, rest, inserts);
      case BelowThreshold | BadTriggerTime | AlreadyQueued | AlreadyCached =>
        FilteredNeverRaises(queue, nextId, queued, cache, now, userId, rest, inserts);
    }
  }

  /** A candidate skipped inside the `try` (below threshold, bad trigger time or
      duplicate) leaves no trace: the rest of the candidates are processed as if
      it had not been there. */
  lemma SkippedCandidateIsTransparent(queue: seq<WorkItem>, nextId: nat, queued: nat, cache: seq<CacheRow>,
                                      now: int, userId: string, p: Pattern, rest: seq<Pattern>, inserts: InsertOutcome)
    requires Admit(queue, cache, now, userId, p, nextId, inserts) in {BelowThreshold, BadTriggerTime, AlreadyQueued, AlreadyCached}
    ensures AdmitAll(queue, nextId, queued, cache, now, userId, [p] + rest, inserts)
         == AdmitAll(queue, nextId, queued, cache, now, userId, rest, inserts)
  {
    assert ([p] + rest)[0] == p && ([p] + rest)[1..] == rest;
  }

  /** One pass of the `for pattern in patterns` body: the checks in the source's
      order, then the INSERT under a fresh id. */
  method QueueOne(db: Database, userId: string, p: Pattern, now: int, inserts: InsertOutcome)
    returns (outcome: Admission)
    requires db.Valid()
    modifies db
    ensures db.Valid()
    ensures db.cache == old(db.cache) && db.events == old(db.events)
    ensures outcome == Admit(old(db.queue), old(db.cache), now, userId, p, old(db.nextId), inserts)
    ensures db.queue == if outcome.Admitted? then old(db.queue) + [outcome.row] else old(db.queue)
    ensures db.nextId == if outcome.Admitted? || outcome.InsertFailed? then old(db.nextId) + 1 else old(db.nextId)
  {
    var confidence := ConfidenceOf(p);
    if confidence.None? {
      return ConfidenceRaises;
    }
    if confidence.value < QUEUE_CONFIDENCE {
      return BelowThreshold;
    }
    var trigger := TriggerOf(p, now);
    if trigger.None? {
      return BadTriggerTime;
    }
    if PendingDuplicate(db.queue, userId, ActionOf(p), now) {
      return AlreadyQueued;
    }
    if CachedDuplicate(db.cache, userId, p, now) {
      return AlreadyCached;
    }
    var id := db.nextId;
    db.nextId := db.nextId + 1;
    if inserts(id) {
      var row := NewJob(id, userId, p, confidence.value, trigger.value, now);
      AppendFresh(db.queue, id, row);
      db.queue := db.queue + [row];
      outcome := Admitted(row);
    } else {
      WellFormedUnderLargerId(db.queue, db.events, id, db.nextId);
      outcome := InsertFailed;
    }
  }

  /** `queue_predictions(connection, user_id, patterns)`: returns queued_count, and
      whether the loop ended by raising (when it raises, the rows inserted before
      stay committed). */
  method QueuePredictions(db: Database, userId: string, patterns: seq<Pattern>, now: int, inserts: InsertOutcome)
    returns (queued: nat, raised: bool)
    requires db.Valid()
    modifies db
    ensures db.Valid()
    ensures db.cache == old(db.cache) && db.events == old(db.events)
    ensures Queueing(db.queue, db.nextId, queued, raised)
         == AdmitAll(old(db.queue), old(db.nextId), 0, old(db.cache), now, userId, patterns, inserts)
  {
    ghost var result := AdmitAll(db.queue, db.nextId, 0, db.cache, now, userId, patterns, inserts);
    queued, raised := 0, false;
    var i := 0;
    while i < |patterns|
      invariant 0 <= i <= |patterns|
      invariant db.Valid()
      invariant db.cache == old(db.cache) && db.events == old(db.events)
      invariant AdmitAll(db.queue, db.nextId, queued, db.cache, now, userId, patterns[i..], inserts) == result
    {
      queued, raised := QueueAt(db, userId, patterns, i, queued, now, inserts);
      if raised {
        return;
      }
      i := i + 1;
    }
    assert patterns[i..] == [];
  }

  /** The loop body of `queue_predictions` at candidate `i`, with `queued` rows so
      far: the rest of the loop is left with the next candidates, or it ends by
      raising. */
  method QueueAt(db: Database, userId: string, patterns: seq<Pattern>, i: nat, queued: nat, now: int,
                 inserts: InsertOutcome)
    returns (queued': nat, raised: bool)
    requires db.Valid() && i < |patterns|
    modifies db
    ensures db.Valid()
    ensures db.cache == old(db.cache) && db.events == old(db.events)
    ensures raised ==>
      Queueing(db.queue, db.nextId, queued', true)
      == AdmitAll(old(db.queue), old(db.nextId), queued, db.cache, now, userId, patterns[i..], inserts)
    ensures !raised ==>
      AdmitAll(db.queue, db.nextId, queued', db.cache, now, userId, patterns[i + 1..], inserts)
      == AdmitAll(old(db.queue), old(db.nextId), queued, db.cache, now, userId, patterns[i..], inserts)
  {
    ghost var q0, n0 := db.queue, db.nextId;
    var outcome := QueueOne(db, userId, patterns[i], now, inserts);
    AdmitAllStep(q0, n0, queued, db.cache, now, userId, patterns, i, inserts, outcome);
    raised := outcome.ConfidenceRaises?;
    queued' := if outcome.Admitted? then queued + 1 else queued;
  }

  // ---------------------------------------------------------------------------
  // build_activity_summary

  /** The four distributions `build_activity_summary` renders into its text. */
  datatype ActivitySummary =
    | NoActivityFound
    | Summary(totalActivities: nat,
              actionCounts: map<Option<string>, nat>,
              timeOfDayCounts: map<string, nat>,
              dayOfWeekCounts: map<string, nat>,
              recentQueries: seq<string>)

  /** What `build_activity_summary` returns for the fetched activity rows. */
  function SummaryOf(acts: seq<ActivityRecord>): ActivitySummary {
    if acts == [] then NoActivityFound
    else Summary(|acts|, Tally(ActionKeys(acts)), Tally(TimesOfDay(acts)), Tally(DaysOfWeek(acts)),
                 RecentQueries(acts))
  }

  /** Every activity is counted under exactly one action type (a missing type as
      'unknown'), so the counts add up to the number of activities; times of day
      and days of week are counted when set; the recent queries are the first
      ten non-empty ones in input order. */
  lemma SummaryCounts(acts: seq<ActivityRecord>)
    requires acts != []
    ensures var s := SummaryOf(acts);
      && SumCounts(s.actionCounts) == |acts|
      && (forall a :: a in acts && a.actionType.Absent? ==> Count(s.actionCounts, Some("unknown")) > 0)
      && (forall k :: Count(s.actionCounts, k) == multiset(ActionKeys(acts))[k])
      && (forall t :: Count(s.timeOfDayCounts, t) == multiset(TimesOfDay(acts))[t])
      && (forall d :: Count(s.dayOfWeekCounts, d) == multiset(DaysOfWeek(acts))[d])
      && |s.recentQueries| == (if |Queries(acts)| < MAX_RECENT_QUERIES then |Queries(acts)| else MAX_RECENT_QUERIES)
      && s.recentQueries <= Queries(acts)
  {
    TallySum(ActionKeys(acts));
    TallyCounts(ActionKeys(acts));
    TallyCounts(TimesOfDay(acts));
    TallyCounts(DaysOfWeek(acts));
    forall a | a in acts && a.actionType.Absent?
      ensures Count(Tally(ActionKeys(acts)), Some("unknown")) > 0
    {
      var i :| 0 <= i < |acts| && acts[i] == a;
      assert ActionKeys(acts)[i] == Some("unknown");
    }
  }

  /** The four accumulators of `build_activity_summary`'s loop. */
  datatype Distributions = Distributions(
    actionCounts: map<Option<string>, nat>,
    timeOfDayCounts: map<string, nat>,
    dayOfWeekCounts: map<string, nat>,
    recentQueries: seq<string>)

  /** One activity record's effect on the accumulators. */
  function CountActivity(d: Distributions, a: ActivityRecord): Distributions {
    var action := ActionKey(a);
    Distributions(
      d.actionCounts[action := Count(d.actionCounts, action) + 1],
      if Truthy(a.timeOfDay)
      then d.timeOfDayCounts[a.timeOfDay.v := Count(d.timeOfDayCounts, a.timeOfDay.v) + 1]
      else d.timeOfDayCounts,
      if Truthy(a.dayOfWeek)
      then d.dayOfWeekCounts[a.dayOfWeek.v := Count(d.dayOfWeekCounts, a.dayOfWeek.v) + 1]
      else d.dayOfWeekCounts,
      if Truthy(a.query) && |d.recentQueries| < MAX_RECENT_QUERIES
      then d.recentQueries + [a.query.v]
      else d.recentQueries)
  }

  /** The accumulators after the loop has seen `acts`. */
  function CountAll(acts: seq<ActivityRecord>): Distributions {
    if acts == [] then Distributions(map[], map[], map[], [])
    else CountActivity(CountAll(acts[..|acts| - 1]), acts[|acts| - 1])
  }

  /** The loop computes the tallies of action types, times of day and days of week,
      and its bounded append keeps exactly the first ten non-empty queries. */
  lemma {:induction false} CountAllDistributions(acts: seq<ActivityRecord>)
    ensures CountAll(acts).actionCounts == Tally(ActionKeys(acts))
    ensures CountAll(acts).timeOfDayCounts == Tally(TimesOfDay(acts))
    ensures CountAll(acts).dayOfWeekCounts == Tally(DaysOfWeek(acts))
    ensures CountAll(acts).recentQueries == Take(Queries(acts), MAX_RECENT_QUERIES)
    decreases |acts|
  {
    if acts == [] {
      assert ActionKeys(acts) == [];
      assert TimeOfDayFields(acts) == [] && DayOfWeekFields(acts) == [] && QueryFields(acts) == [];
    } else {
      var pre, a := acts[..|acts| - 1], acts[|acts| - 1];
      var d := CountAll(pre);
      assert CountAll(acts) == CountActivity(d, a);
      assert acts == pre + [a];
      CountAllDistributions(pre);
      CountActionStep(pre, a, d);
      CountTimeOfDayStep(pre, a, d);
      CountDayOfWeekStep(pre, a, d);
      CountQueryStep(pre, a, d);
    }
  }

  lemma CountActionStep(pre: seq<ActivityRecord>, a: ActivityRecord, d: Distributions)
    requires d.actionCounts == Tally(ActionKeys(pre))
    ensures CountActivity(d, a).actionCounts == Tally(ActionKeys(pre + [a]))
  {
    ActionKeysTallySnoc(pre, a);
  }

  lemma CountTimeOfDayStep(pre: seq<ActivityRecord>, a: ActivityRecord, d: Distributions)
    requires d.timeOfDayCounts == Tally(TimesOfDay(pre))
    ensures CountActivity(d, a).timeOfDayCounts == Tally(TimesOfDay(pre + [a]))
  {
    TimesOfDayTallySnoc(pre, a);
    if Truthy(a.timeOfDay) {
      assert CountActivity(d, a).timeOfDayCounts == d.timeOfDayCounts[a.timeOfDay.v := Count(d.timeOfDayCounts, a.timeOfDay.v) + 1];
    } else {
      assert CountActivity(d, a).timeOfDayCounts == d.timeOfDayCounts;
    }
  }

  lemma CountDayOfWeekStep(pre: seq<ActivityRecord>, a: ActivityRecord, d: Distributions)
    requires d.dayOfWeekCounts == Tally(DaysOfWeek(pre))
    ensures CountActivity(d, a).dayOfWeekCounts == Tally(DaysOfWeek(pre + [a]))
  {
    DaysOfWeekTallySnoc(pre, a);
    if Truthy(a.dayOfWeek) {
      assert CountActivity(d, a).dayOfWeekCounts == d.dayOfWeekCounts[a.dayOfWeek.v := Count(d.dayOfWeekCounts, a.dayOfWeek.v) + 1];
    } else {
      assert CountActivity(d, a).dayOfWeekCounts == d.dayOfWeekCounts;
    }
  }

  /** Appending a query only while fewer than ten are held keeps the first ten. */
  lemma CountQueryStep(pre: seq<ActivityRecord>, a: ActivityRecord, d: Distributions)
    requires d.recentQueries == Take(Queries(pre), MAX_RECENT_QUERIES)
    ensures CountActivity(d, a).recentQueries == Take(Queries(pre + [a]), MAX_RECENT_QUERIES)
  {
    QueriesSnoc(pre, a);
    if Truthy(a.query) {
      TakeSnoc(Queries(pre), a.query.v, MAX_RECENT_QUERIES);
    }
  }

  /** The loop of `build_activity_summary`: it counts action types, times of day
      and days of week, and appends a query only while fewer than ten are held. */
  method BuildActivitySummary(acts: seq<ActivityRecord>) returns (summary: ActivitySummary)
    ensures summary == SummaryOf(acts)
  {
    if acts == [] {
      return NoActivityFound;
    }
    var actionCounts: map<Option<string>, nat> := map[];
    var timeOfDayCounts: map<string, nat> := map[];
    var dayOfWeekCounts: map<string, nat> := map[];
    var recentQueries: seq<string> := [];
    assert acts[..0] == [];
    var i := 0;
    while i < |acts|
      invariant 0 <= i <= |acts|
      invariant Distributions(actionCounts, timeOfDayCounts, dayOfWeekCounts, recentQueries) == CountAll(acts[..i])
    {
      var a := acts[i];
      ghost var before := Distributions(actionCounts, timeOfDayCounts, dayOfWeekCounts, recentQueries);
      assert acts[..i + 1][..i] == acts[..i];
      assert CountAll(acts[..i + 1]) == CountActivity(before, a);
      var action := ActionKey(a);
      actionCounts := actionCounts[action := Count(actionCounts, action) + 1];
      if Truthy(a.timeOfDay) {
        timeOfDayCounts := timeOfDayCounts[a.timeOfDay.v := Count(timeOfDayCounts, a.timeOfDay.v) + 1];
      }
      if Truthy(a.dayOfWeek) {
        dayOfWeekCounts := dayOfWeekCounts[a.dayOfWeek.v := Count(dayOfWeekCounts, a.dayOfWeek.v) + 1];
      }
      if Truthy(a.query) && |recentQueries| < MAX_RECENT_QUERIES {
        recentQueries := recentQueries + [a.query.v];
      }
      assert Distributions(actionCounts, timeOfDayCounts, dayOfWeekCounts, recentQueries) == CountActivity(before, a);
      i := i + 1;
    }
    assert acts[..i] == acts;
    CountAllDistributions(acts);
    summary := Summary(|acts|, actionCounts, timeOfDayCounts, dayOfWeekCounts, recentQueries);
  }
}
