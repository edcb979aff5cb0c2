/** The relational store the three workers share, reduced to the tables the core
    reads and writes: generation_queue, page_cache and ambient_events. Rows are
    values; the tables are sequences in insertion order, held by one `Database`
    object that the workers' operations receive, as the Python functions receive
    their connection. Identifiers that the source draws from `uuid4()` are fresh
    numbers taken from `nextId`. */
module Store {
  import opened Common

  /** The states of a generation_queue row. */
  datatype Status = Queued | Processing | Completed | Failed

  /** A behavioural pattern as the pattern-detection model reports it. The scheduler
      stores it verbatim as a job's context_data and the generator reads it back. */
  datatype Pattern = Pattern(
    patternType: Field<string>,
    confidence: Score,
    predictedAction: Field<string>,
    predictedQuery: Field<string>,
    triggerTime: TimeText,
    reasoning: Field<string>)

  /** What a completed job records as its result_cache_key: the id of a freshly
      inserted page_cache row, or the fingerprint of the row it overwrote. */
  datatype CacheRef = RowId(id: nat) | KeyRef(key: string)

  /** A generation_queue row. */
  datatype WorkItem = WorkItem(
    id: nat,
    userId: string,
    jobType: string,
    priority: int,
    predictedNeed: Option<string>,
    context: Pattern,
    scheduledFor: int,
    validUntil: int,
    status: Status,
    attempts: nat,
    resultCacheKey: Option<CacheRef>,
    startedAt: Option<int>,
    completedAt: Option<int>,
    errorMessage: Option<string>,
    createdAt: int)

  /** One generated UI component, kept as the JSON text the generator stores. */
  type Component = string

  /** A page_cache row. */
  datatype CacheRow = CacheRow(
    id: nat,
    userId: string,
    cacheKey: string,
    cacheType: string,
    query: string,
    components: seq<Component>,
    relevance: Score,
    validUntil: int,
    createdAt: int)

  /** An activity_log row as the workers fetch it. */
  datatype ActivityRecord = ActivityRecord(
    actionType: Field<string>,
    query: Field<string>,
    timeOfDay: Field<string>,
    dayOfWeek: Field<string>,
    timestamp: Option<int>)

  /** An ambient_events row. */
  datatype EventRow = EventRow(
    id: nat,
    userId: string,
    eventType: Option<string>,
    priority: Option<string>,
    title: Option<string>,
    subtitle: Option<string>,
    body: Option<string>,
    data: string,
    icon: Option<string>,
    color: Option<string>,
    startTime: Option<int>,
    endTime: Option<int>,
    validUntil: int,
    status: string,
    confidence: Option<real>,
    source: string,
    createdAt: int)

  /** Whether an INSERT succeeds: the store may reject any write (a constraint, a
      bad value, a lost connection), and the worker then rolls back. The attempt
      is named by the fresh id drawn for it. */
  type InsertOutcome = nat -> bool

  /** generation_queue ids are unique and were all handed out before `nextId`. */
  predicate QueueWellFormed(queue: seq<WorkItem>, nextId: nat) {
    && (forall i :: 0 <= i < |queue| ==> queue[i].id < nextId)
    && (forall i, k :: 0 <= i < k < |queue| ==> queue[i].id != queue[k].id)
  }

  /** page_cache holds at most one row per (user_id, cache_key), the uniqueness
      that makes the generator's insert raise IntegrityError on a second write. */
  predicate CacheWellFormed(cache: seq<CacheRow>, nextId: nat) {
    && (forall i :: 0 <= i < |cache| ==> cache[i].id < nextId)
    && (forall i, k :: 0 <= i < k < |cache| ==>
          cache[i].id != cache[k].id
          && (cache[i].userId != cache[k].userId || cache[i].cacheKey != cache[k].cacheKey))
  }

  predicate EventsWellFormed(events: seq<EventRow>, nextId: nat) {
    forall i :: 0 <= i < |events| ==> events[i].id < nextId
  }

  /** The page_cache lookup of the scheduler's second duplicate check: a row for
      this user and key whose validity has not yet run out. Expired rows stay in
      the table but are invisible here. */
  predicate LiveInCache(cache: seq<CacheRow>, userId: string, key: string, now: int) {
    exists i :: 0 <= i < |cache| && cache[i].userId == userId && cache[i].cacheKey == key
                && cache[i].validUntil > now
  }

  /** Handing out more ids keeps every table well formed. */
  lemma WellFormedUnderLargerId(queue: seq<WorkItem>, events: seq<EventRow>, nextId: nat, nextId': nat)
    requires QueueWellFormed(queue, nextId) && EventsWellFormed(events, nextId)
    requires nextId <= nextId'
    ensures QueueWellFormed(queue, nextId') && EventsWellFormed(events, nextId')
  {
  }

  class Database {
    var queue: seq<WorkItem>
    var cache: seq<CacheRow>
    var events: seq<EventRow>
    var nextId: nat

    ghost predicate Valid()
      reads this
    {
      && QueueWellFormed(queue, nextId)
      && CacheWellFormed(cache, nextId)
      && EventsWellFormed(events, nextId)
    }

    constructor ()
      ensures Valid()
      ensures queue == [] && cache == [] && events == []
    {
      queue, cache, events, nextId := [], [], [], 0;
    }
  }
}
