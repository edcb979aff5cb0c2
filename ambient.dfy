/** The ambient event detector: once a minute it walks the active users, builds
    each one's context (the time of day, recent queries, time-of-day counts, the
    user's live ambient events), asks a language model for time-sensitive events,
    and stores each detected event as a 'pending' ambient_events row with its
    defaults filled in. The language model and the activity fetch are
    parameters; the store is the shared `Database`. */
module Ambient {
  import opened Common
  import opened Store
  import opened Activity

  /** An event that has an end time stays valid a quarter of an hour past it. */
  const END_GRACE: int := 15 * MINUTE
  /** An event without a usable end time is valid for an hour. */
  const DEFAULT_VALIDITY: int := HOUR
  const DEFAULT_CONFIDENCE: real := 0.7
  const MAX_ACTIVE_EVENTS: nat := 10

  // ---------------------------------------------------------------------------
  // get_time_of_day

  datatype TimeOfDay = Morning | Afternoon | Evening | Night

  /** `dt.hour` of the instant `now` (seconds in the worker's local time). */
  function HourOf(now: int): (h: int)
    ensures 0 <= h < 24
  {
    (now % DAY) / HOUR
  }

  /** Every hour of the day falls in exactly one bucket: [5, 12) is morning,
      [12, 17) afternoon, [17, 21) evening, and the rest of the day night. */
  function TimeOfDayAt(now: int): (r: TimeOfDay)
    ensures r == Morning <==> 5 <= HourOf(now) < 12
    ensures r == Afternoon <==> 12 <= HourOf(now) < 17
    ensures r == Evening <==> 17 <= HourOf(now) < 21
    ensures r == Night <==> HourOf(now) < 5 || 21 <= HourOf(now)
  {
    var hour := HourOf(now);
    if 5 <= hour < 12 then Morning
    else if 12 <= hour < 17 then Afternoon
    else if 17 <= hour < 21 then Evening
    else Night
  }

  /** The bucket that follows `b` in the course of a day. */
  function Following(b: TimeOfDay): TimeOfDay {
    match b
    case Morning => Afternoon
    case Afternoon => Evening
    case Evening => Night
    case Night => Morning
  }

  /** Where `now` falls within its day: a day later it falls at the same second,
      an hour later one hour further on, wrapping past midnight. */
  lemma SecondOfDayAdvances(now: int)
    ensures (now + DAY) % DAY == now % DAY
    ensures now % DAY + HOUR < DAY ==> (now + HOUR) % DAY == now % DAY + HOUR
    ensures now % DAY + HOUR >= DAY ==> (now + HOUR) % DAY == now % DAY + HOUR - DAY
  {
    var q, r := now / DAY, now % DAY;
    assert now == q * DAY + r;
    assert now + DAY == (q + 1) * DAY + r;
    if r + HOUR < DAY {
      assert now + HOUR == q * DAY + (r + HOUR);
    } else {
      assert now + HOUR == (q + 1) * DAY + (r + HOUR - DAY);
    }
  }

  /** One hour further into the day is the next hour. */
  lemma NextHour(r: int)
    requires 0 <= r
    ensures (r + HOUR) / HOUR == r / HOUR + 1
  {
    var q, m := r / HOUR, r % HOUR;
    assert r == q * HOUR + m;
    assert r + HOUR == (q + 1) * HOUR + m;
  }

  /** A day later the hour is the same; an hour later it is the next one, and
      after 23 comes 0. */
  lemma HourAdvances(now: int)
    ensures HourOf(now + DAY) == HourOf(now)
    ensures HourOf(now + HOUR) == (HourOf(now) + 1) % 24
  {
    SecondOfDayAdvances(now);
    var r := now % DAY;
    if r + HOUR < DAY {
      NextHour(r);
    } else {
      assert (r + HOUR - DAY) / HOUR == 0;
      assert r / HOUR == 23;
    }
  }

  /** The buckets repeat from day to day, and an hour later the bucket is the same
      one or the next: the day passes through morning, afternoon, evening and
      night in that order and skips none. */
  lemma TimeOfDayCycle(now: int)
    ensures TimeOfDayAt(now + DAY) == TimeOfDayAt(now)
    ensures TimeOfDayAt(now + HOUR) == TimeOfDayAt(now) || TimeOfDayAt(now + HOUR) == Following(TimeOfDayAt(now))
  {
    HourAdvances(now);
  }

  // ---------------------------------------------------------------------------
  // store_ambient_event

  /** One event object of the model's answer, as `store_ambient_event` reads it:
      the `data` object is kept as the JSON text `json.dumps` makes of it, and
      the two times as the outcome of parsing them. */
  datatype EventData = EventData(
    eventType: Field<string>,
    priority: Field<string>,
    title: Field<string>,
    subtitle: Field<string>,
    body: Field<string>,
    data: Field<string>,
    icon: Field<string>,
    color: Field<string>,
    confidence: Field<real>,
    startTime: TimeText,
    endTime: TimeText)

  /** A time that is missing, empty or that the parser rejects is stored as NULL;
      a rejected one does not abort the store. */
  function StoredTime(t: TimeText): (r: Option<int>)
    ensures r.Some? <==> t.Parsed?
    ensures t.Parsed? ==> r.value == t.t
  {
    if t.Parsed? then Some(t.t) else None
  }

  /** `json.dumps(event_data.get('data', {}))` */
  function DataText(d: Field<string>): (r: string)
    ensures d.Absent? ==> r == "{}"
    ensures d.Present? ==> r == d.v
  {
    match d
    case Absent => "{}"
    case Null => "null"
    case Present(text) => text
  }

  /** The ambient_events row `store_ambient_event` inserts for `d` under the fresh
      id `id`. */
  function EventRowOf(id: nat, userId: string, d: EventData, now: int): (r: EventRow)
    ensures r.id == id && r.userId == userId && r.createdAt == now
    ensures r.status == "pending" && r.source == "claude"
    ensures d.eventType.Absent? ==> r.eventType == Some("notification")
    ensures d.priority.Absent? ==> r.priority == Some("medium")
    ensures d.title.Absent? ==> r.title == Some("")
    ensures d.data.Absent? ==> r.data == "{}"
    ensures d.confidence.Absent? ==> r.confidence == Some(DEFAULT_CONFIDENCE)
    ensures d.eventType.Present? ==> r.eventType == Some(d.eventType.v)
    ensures d.title.Present? ==> r.title == Some(d.title.v)
    ensures r.startTime.Some? <==> d.startTime.Parsed?
    ensures r.endTime.Some? <==> d.endTime.Parsed?
    ensures d.endTime.Parsed? ==> r.validUntil == d.endTime.t + END_GRACE
    ensures !d.endTime.Parsed? ==> r.validUntil == now + DEFAULT_VALIDITY
  {
    var end := StoredTime(d.endTime);
    EventRow(
      id, userId,
      d.eventType.GetOr("notification"),
      d.priority.GetOr("medium"),
      d.title.GetOr(""),
      d.subtitle.Get(),
      d.body.Get(),
      DataText(d.data),
      d.icon.Get(),
      d.color.Get(),
      StoredTime(d.startTime),
      end,
      if end.Some? then end.value + END_GRACE else now + DEFAULT_VALIDITY,
      "pending",
      d.confidence.GetOr(DEFAULT_CONFIDENCE),
      "claude",
      now)
  }

  /** The part of the store the detector writes. */
  datatype EventTables = EventTables(events: seq<EventRow>, nextId: nat)

  /** `store_ambient_event`: the id is drawn before the insert is attempted; a
      successful insert appends the row and returns its id, a failed one is
      rolled back and returns None. */
  function StoreEvent(t: EventTables, userId: string, d: EventData, now: int, inserts: InsertOutcome)
    : (EventTables, Option<nat>)
  {
    var id := t.nextId;
    if inserts(id) then (EventTables(t.events + [EventRowOf(id, userId, d, now)], id + 1), Some(id))
    else (EventTables(t.events, id + 1), None)
  }

  /** A store either appends exactly one row carrying the returned, previously
      unused id, or leaves the table as it was and returns None. */
  lemma StoreEventOutcome(t: EventTables, userId: string, d: EventData, now: int, inserts: InsertOutcome)
    requires EventsWellFormed(t.events, t.nextId)
    ensures var (t', id) := StoreEvent(t, userId, d, now, inserts);
      && t'.nextId == t.nextId + 1
      && EventsWellFormed(t'.events, t'.nextId)
      && (id.None? ==> t'.events == t.events)
      && (id.Some? ==>
            && t'.events == t.events + [EventRowOf(id.value, userId, d, now)]
            && (forall i :: 0 <= i < |t.events| ==> t.events[i].id != id.value))
  {
  }

  /** The rows `store_ambient_event` writes are 'pending', so they never appear
      among the 'active' events a later context reads. */
  lemma StoredEventIsNotActive(t: EventTables, userId: string, d: EventData, now: int, inserts: InsertOutcome,
                               u: string, later: int)
    ensures ActiveEvents(StoreEvent(t, userId, d, now, inserts).0.events, u, later) == ActiveEvents(t.events, u, later)
  {
    var row := EventRowOf(t.nextId, userId, d, now);
    if inserts(t.nextId) {
      assert (t.events + [row])[..|t.events|] == t.events;
      assert !IsActive(row, u, later);
    }
  }

  /** The loop `for event_data in detected_events` of one user with `stored` events
      stored so far: the tables after it and the number of stores that
      returned an id. */
  function StoreEvents(t: EventTables, stored: nat, userId: string, datas: seq<EventData>, now: int,
                       inserts: InsertOutcome): (EventTables, nat)
    decreases |datas|
  {
    if datas == [] then (t, stored)
    else
      var (t', id) := StoreEvent(t, userId, datas[0], now, inserts);
      StoreEvents(t', if id.Some? then stored + 1 else stored, userId, datas[1..], now, inserts)
  }

  lemma StoreEventsStep(t: EventTables, stored: nat, userId: string, datas: seq<EventData>, i: nat, now: int,
                        inserts: InsertOutcome)
    requires i < |datas|
    ensures var (t', id) := StoreEvent(t, userId, datas[i], now, inserts);
      StoreEvents(t, stored, userId, datas[i..], now, inserts)
        == StoreEvents(t', if id.Some? then stored + 1 else stored, userId, datas[i + 1..], now, inserts)
  {
    assert datas[i..][0] == datas[i] && datas[i..][1..] == datas[i + 1..];
  }

  /** Storing a user's events only appends rows, one per store that returned an
      id, so the count is at most the number of detected events; one id is
      drawn per event. */
  lemma {:induction false} StoreEventsAppend(t: EventTables, stored: nat, userId: string, datas: seq<EventData>,
                                             now: int, inserts: InsertOutcome)
    requires EventsWellFormed(t.events, t.nextId)
    ensures var (t', n) := StoreEvents(t, stored, userId, datas, now, inserts);
      && t.events <= t'.events
      && n - stored == |t'.events| - |t.events|
      && stored <= n <= stored + |datas|
      && t'.nextId == t.nextId + |datas|
      && EventsWellFormed(t'.events, t'.nextId)
    decreases |datas|
  {
    if datas != [] {
      var (t1, id) := StoreEvent(t, userId, datas[0], now, inserts);
      StoreEventOutcome(t, userId, datas[0], now, inserts);
      StoreEventsAppend(t1, if id.Some? then stored + 1 else stored, userId, datas[1..], now, inserts);
    }
  }

  /** The same loop as the source writes it: after a store that returned an id, the
      log line reads `event_data['title']`, which raises KeyError for an event
      without a title. The row is already committed and counted; the exception
      leaves the loop, so the user's remaining events are never stored. The last
      component says whether it was raised. */
  function StoreEventsAsWritten(t: EventTables, stored: nat, userId: string, datas: seq<EventData>, now: int,
                                inserts: InsertOutcome): (EventTables, nat, bool)
    decreases |datas|
  {
    if datas == [] then (t, stored, false)
    else
      var (t', id) := StoreEvent(t, userId, datas[0], now, inserts);
      if id.Some? && datas[0].title.Absent? then (t', stored + 1, true)
      else StoreEventsAsWritten(t', if id.Some? then stored + 1 else stored, userId, datas[1..], now, inserts)
  }

  /** The log line is the only difference: when every detected event has a title,
      the loop as written stores and counts exactly what the corrected loop
      does, and does not raise. */
  lemma {:induction false} AsWrittenAgreesWhenTitled(t: EventTables, stored: nat, userId: string,
                                                     datas: seq<EventData>, now: int, inserts: InsertOutcome)
    requires forall d :: d in datas ==> !d.title.Absent?
    ensures var (t', n) := StoreEvents(t, stored, userId, datas, now, inserts);
      StoreEventsAsWritten(t, stored, userId, datas, now, inserts) == (t', n, false)
    decreases |datas|
  {
    if datas != [] {
      var (t1, id) := StoreEvent(t, userId, datas[0], now, inserts);
      assert datas[0] in datas;
      assert forall d :: d in datas[1..] ==> d in datas;
      AsWrittenAgreesWhenTitled(t1, if id.Some? then stored + 1 else stored, userId, datas[1..], now, inserts);
    }
  }

  /** Two detected events, the first without a title, both inserts succeeding: as
      written, one row is stored and the user's processing raises (the user is
      then counted as an error, not as processed); the loop that only logs
      stores both. */
  lemma MissingTitleAbortsUser(t: EventTables, userId: string, d1: EventData, d2: EventData, now: int,
                               inserts: InsertOutcome)
    requires d1.title.Absent? && d2.title.Present?
    requires inserts(t.nextId) && inserts(t.nextId + 1)
    ensures StoreEventsAsWritten(t, 0, userId, [d1, d2], now, inserts).1 == 1
    ensures StoreEventsAsWritten(t, 0, userId, [d1, d2], now, inserts).2
    ensures StoreEvents(t, 0, userId, [d1, d2], now, inserts).1 == 2
  {
    var t1 := StoreEvent(t, userId, d1, now, inserts).0;
    assert [d1, d2][1..] == [d2];
    assert [d2][1..] == [];
    assert StoreEvents(t1, 1, userId, [d2], now, inserts) == StoreEvents(StoreEvent(t1, userId, d2, now, inserts).0, 2, userId, [], now, inserts);
  }

  lemma StoreEventsAsWrittenStep(t: EventTables, stored: nat, userId: string, datas: seq<EventData>, i: nat,
                                 now: int, inserts: InsertOutcome)
    requires i < |datas|
    ensures var (t', id) := StoreEvent(t, userId, datas[i], now, inserts);
      StoreEventsAsWritten(t, stored, userId, datas[i..], now, inserts)
        == if id.Some? && datas[i].title.Absent? then (t', stored + 1, true)
           else StoreEventsAsWritten(t', if id.Some? then stored + 1 else stored, userId, datas[i + 1..], now, inserts)
  {
    assert datas[i..][0] == datas[i] && datas[i..][1..] == datas[i + 1..];
  }

  /** The loop as written also only appends, one row per store that returned an
      id, and those rows stay when it raises; it raises only on an event without
      a title, and when it does not raise every detected event was attempted. */
  lemma {:induction false} StoreEventsAsWrittenAppend(t: EventTables, stored: nat, userId: string,
                                                      datas: seq<EventData>, now: int, inserts: InsertOutcome)
    requires EventsWellFormed(t.events, t.nextId)
    ensures var (t', n, raised) := StoreEventsAsWritten(t, stored, userId, datas, now, inserts);
      && t.events <= t'.events
      && n - stored == |t'.events| - |t.events|
      && stored <= n <= stored + |datas|
      && t.nextId <= t'.nextId <= t.nextId + |datas|
      && (!raised ==> t'.nextId == t.nextId + |datas|)
      && (raised ==> exists d :: d in datas && d.title.Absent?)
      && EventsWellFormed(t'.events, t'.nextId)
    decreases |datas|
  {
    if datas != [] {
      var (t1, id) := StoreEvent(t, userId, datas[0], now, inserts);
      StoreEventOutcome(t, userId, datas[0], now, inserts);
      if !(id.Some? && datas[0].title.Absent?) {
        StoreEventsAsWrittenAppend(t1, if id.Some? then stored + 1 else stored, userId, datas[1..], now, inserts);
        assert forall d :: d in datas[1..] ==> d in datas;
      } else {
        assert datas[0] in datas;
      }
    }
  }

  /** `store_ambient_event(connection, user_id, event_data)` */
  method StoreAmbientEvent(db: Database, userId: string, d: EventData, now: int, inserts: InsertOutcome)
    returns (id: Option<nat>)
    requires db.Valid()
    modifies db
    ensures db.Valid()
    ensures db.queue == old(db.queue) && db.cache == old(db.cache)
    ensures (EventTables(db.events, db.nextId), id)
         == StoreEvent(EventTables(old(db.events), old(db.nextId)), userId, d, now, inserts)
  {
    var eventId := db.nextId;
    WellFormedUnderLargerId(db.queue, db.events, eventId, eventId + 1);
    db.nextId := eventId + 1;
    if inserts(eventId) {
      db.events := db.events + [EventRowOf(eventId, userId, d, now)];
      id := Some(eventId);
    } else {
      id := None;
    }
  }

  // ---------------------------------------------------------------------------
  // get_user_context

  /** An entry of `recent_queries`: the query and the time of its activity. */
  datatype QueryEntry = QueryEntry(query: string, timestamp: Option<int>)

  /** One entry per fetched activity that has a non-empty query, in fetch order. */
  function QueryEntries(acts: seq<ActivityRecord>): seq<QueryEntry> {
    if acts == [] then []
    else
      var last := acts[|acts| - 1];
      QueryEntries(acts[..|acts| - 1]) + if Truthy(last.query) then [QueryEntry(last.query.v, last.timestamp)] else []
  }

  lemma QueryEntriesSnoc(pre: seq<ActivityRecord>, a: ActivityRecord)
    ensures Truthy(a.query) ==> QueryEntries(pre + [a]) == QueryEntries(pre) + [QueryEntry(a.query.v, a.timestamp)]
    ensures !Truthy(a.query) ==> QueryEntries(pre + [a]) == QueryEntries(pre)
  {
    assert (pre + [a])[..|pre|] == pre;
  }

  /** The entries carry exactly the non-empty queries, in order. */
  lemma {:induction false} QueryEntriesFollowQueries(acts: seq<ActivityRecord>)
    ensures |QueryEntries(acts)| == |Queries(acts)|
    ensures forall i :: 0 <= i < |QueryEntries(acts)| ==> QueryEntries(acts)[i].query == Queries(acts)[i]
    decreases |acts|
  {
    if acts == [] {
      assert QueryFields(acts) == [];
    } else {
      var pre, a := acts[..|acts| - 1], acts[|acts| - 1];
      assert acts == pre + [a];
      QueryEntriesFollowQueries(pre);
      QueriesSnoc(pre, a);
      QueryEntriesSnoc(pre, a);
      var es, qs := QueryEntries(pre), Queries(pre);
      if Truthy(a.query) {
        assert QueryEntries(acts) == es + [QueryEntry(a.query.v, a.timestamp)];
        assert Queries(acts) == qs + [a.query.v];
        forall i | 0 <= i < |QueryEntries(acts)|
          ensures QueryEntries(acts)[i].query == Queries(acts)[i]
        {
          if i < |es| {
            assert QueryEntries(acts)[i] == es[i] && Queries(acts)[i] == qs[i];
          }
        }
      } else {
        assert QueryEntries(acts) == es && Queries(acts) == qs;
      }
    }
  }

  /** Each entry carries the timestamp of an activity that has the entry's query. */
  lemma {:induction false} QueryEntriesHaveTimestamps(acts: seq<ActivityRecord>)
    ensures forall i :: 0 <= i < |QueryEntries(acts)| ==>
      exists k :: 0 <= k < |acts| && acts[k].query == Present(QueryEntries(acts)[i].query)
                  && acts[k].timestamp == QueryEntries(acts)[i].timestamp
    decreases |acts|
  {
    if acts != [] {
      var pre, a := acts[..|acts| - 1], acts[|acts| - 1];
      assert acts == pre + [a];
      QueryEntriesHaveTimestamps(pre);
      QueryEntriesSnoc(pre, a);
      var es := QueryEntries(acts);
      assert es[..|QueryEntries(pre)|] == QueryEntries(pre);
      forall i | 0 <= i < |es|
        ensures exists k :: 0 <= k < |acts| && acts[k].query == Present(es[i].query) && acts[k].timestamp == es[i].timestamp
      {
        if i < |QueryEntries(pre)| {
          assert es[i] == QueryEntries(pre)[i];
          var k :| 0 <= k < |pre| && pre[k].query == Present(es[i].query) && pre[k].timestamp == es[i].timestamp;
          assert acts[k] == pre[k];
        } else {
          assert Truthy(a.query) && es[i] == QueryEntry(a.query.v, a.timestamp);
          assert acts[|acts| - 1] == a;
        }
      }
    } else {
      assert QueryEntries(acts) == [];
    }
  }

  /** `status = 'active' AND valid_until > NOW()` for the user. */
  predicate IsActive(e: EventRow, userId: string, now: int) {
    e.userId == userId && e.status == "active" && e.validUntil > now
  }

  /** The user's active events, newest first (rows are appended in creation
      order, so reverse table order is `ORDER BY created_at DESC`). */
  function ActiveNewestFirst(events: seq<EventRow>, userId: string, now: int): (r: seq<EventRow>)
    ensures forall e :: e in r <==> e in events && IsActive(e, userId, now)
  {
    if events == [] then []
    else
      var last := events[|events| - 1];
      var older := events[..|events| - 1];
      assert events == older + [last];
      (if IsActive(last, userId, now) then [last] else []) + ActiveNewestFirst(older, userId, now)
  }

  /** Creation times never increase along `r`. */
  predicate NewestFirst(r: seq<EventRow>)
  {
    forall k, l :: 0 <= k < l < |r| ==> r[k].createdAt >= r[l].createdAt
  }

  /** `ORDER BY created_at DESC`: when the table's creation times follow its row
      order, the user's active events come out newest first. */
  lemma {:induction false} ActiveNewestFirstSorted(events: seq<EventRow>, userId: string, now: int)
    requires forall i, j :: 0 <= i < j < |events| ==> events[i].createdAt <= events[j].createdAt
    ensures NewestFirst(ActiveNewestFirst(events, userId, now))
    decreases |events|
  {
    if events != [] {
      var last := events[|events| - 1];
      var older := events[..|events| - 1];
      var rest := ActiveNewestFirst(older, userId, now);
      ActiveNewestFirstSorted(older, userId, now);
      var head := if IsActive(last, userId, now) then [last] else [];
      var r := ActiveNewestFirst(events, userId, now);
      assert r == head + rest;
      forall k, l | 0 <= k < l < |r| ensures r[k].createdAt >= r[l].createdAt {
        if k < |head| {
          assert r[l] == rest[l - |head|] && r[l] in older;
          var j :| 0 <= j < |older| && older[j] == r[l];
          assert older[j] == events[j] && r[k] == events[|events| - 1];
        } else {
          assert r[k] == rest[k - |head|] && r[l] == rest[l - |head|];
        }
      }
    }
  }

  /** The live-activities query of `get_user_context`, with its LIMIT 10: the
      first ten of the user's active events, newest first (all of them when
      there are fewer). */
  function ActiveEvents(events: seq<EventRow>, userId: string, now: int): (r: seq<EventRow>)
    ensures var all := ActiveNewestFirst(events, userId, now);
      && r <= all
      && |r| == if |all| < MAX_ACTIVE_EVENTS then |all| else MAX_ACTIVE_EVENTS
    ensures forall e :: e in r ==> e in events && IsActive(e, userId, now)
  {
    Take(ActiveNewestFirst(events, userId, now), MAX_ACTIVE_EVENTS)
  }

  /** What `get_user_context` hands to the model (the ISO text of the current
      time and its weekday name are not modelled; `now` stands for both). */
  datatype AmbientContext = AmbientContext(
    now: int,
    timeOfDay: TimeOfDay,
    recentQueries: seq<QueryEntry>,
    timePatterns: map<string, nat>,
    activeEvents: seq<EventRow>,
    totalRecentActivities: nat)

  /** The context of `userId` at `now`, given the activity rows fetched for the
      user and the ambient_events table. */
  function ContextOf(events: seq<EventRow>, userId: string, acts: seq<ActivityRecord>, now: int): AmbientContext {
    AmbientContext(now, TimeOfDayAt(now), Take(QueryEntries(acts), MAX_RECENT_QUERIES),
                   Tally(TimesOfDay(acts)), ActiveEvents(events, userId, now), |acts|)
  }

  /** The loop of `get_user_context`: an entry for every activity with a query,
      and a count for every time of day that is set. */
  method CollectContext(acts: seq<ActivityRecord>) returns (entries: seq<QueryEntry>, timePatterns: map<string, nat>)
    ensures entries == QueryEntries(acts)
    ensures timePatterns == Tally(TimesOfDay(acts))
  {
    entries, timePatterns := [], map[];
    assert acts[..0] == [];
    assert TimeOfDayFields(acts[..0]) == [];
    assert TimesOfDay(acts[..0]) == [];
    var i := 0;
    while i < |acts|
      invariant 0 <= i <= |acts|
      invariant entries == QueryEntries(acts[..i])
      invariant timePatterns == Tally(TimesOfDay(acts[..i]))
    {
      assert acts[..i + 1] == acts[..i] + [acts[i]];
      entries, timePatterns := CollectOne(acts[..i], acts[i], entries, timePatterns);
      i := i + 1;
    }
    assert acts[..i] == acts;
  }

  /** One pass of that loop's body, on the record `a` after the records `pre`. */
  method CollectOne(ghost pre: seq<ActivityRecord>, a: ActivityRecord, entries: seq<QueryEntry>,
                    timePatterns: map<string, nat>)
    returns (entries': seq<QueryEntry>, timePatterns': map<string, nat>)
    requires entries == QueryEntries(pre) && timePatterns == Tally(TimesOfDay(pre))
    ensures entries' == QueryEntries(pre + [a]) && timePatterns' == Tally(TimesOfDay(pre + [a]))
  {
    QueryEntriesSnoc(pre, a);
    TimesOfDayTallySnoc(pre, a);
    entries', timePatterns' := entries, timePatterns;
    if Truthy(a.query) {
      entries' := entries + [QueryEntry(a.query.v, a.timestamp)];
    }
    if Truthy(a.timeOfDay) {
      timePatterns' := timePatterns[a.timeOfDay.v := Count(timePatterns, a.timeOfDay.v) + 1];
    }
  }

  /** `get_user_context(connection, user_id)` once the activity rows are fetched. */
  method GetUserContext(db: Database, userId: string, acts: seq<ActivityRecord>, now: int)
    returns (ctx: AmbientContext)
    ensures ctx == ContextOf(db.events, userId, acts, now)
  {
    var entries, timePatterns := CollectContext(acts);
    var active := ActiveEvents(db.events, userId, now);
    ctx := AmbientContext(now, TimeOfDayAt(now), Take(entries, MAX_RECENT_QUERIES), timePatterns, active, |acts|);
  }

  /** The context keeps the first ten activities that have a query, in order,
      counts each time of day as often as it occurs, and shows at most ten of the
      user's live events. */
  lemma ContextSummarises(events: seq<EventRow>, userId: string, acts: seq<ActivityRecord>, now: int)
    ensures var ctx := ContextOf(events, userId, acts, now);
      && |ctx.recentQueries| == (if |Queries(acts)| < MAX_RECENT_QUERIES then |Queries(acts)| else MAX_RECENT_QUERIES)
      && ctx.recentQueries <= QueryEntries(acts)
      && |QueryEntries(acts)| == |Queries(acts)|
      && (forall i :: 0 <= i < |ctx.recentQueries| ==> ctx.recentQueries[i].query == Queries(acts)[i])
      && (forall t :: Count(ctx.timePatterns, t) == multiset(TimesOfDay(acts))[t])
      && (forall e :: e in ctx.activeEvents ==> e.userId == userId && e.status == "active" && e.validUntil > now)
      && ctx.activeEvents <= ActiveNewestFirst(events, userId, now)
      && (|ActiveNewestFirst(events, userId, now)| >= MAX_ACTIVE_EVENTS ==> |ctx.activeEvents| == MAX_ACTIVE_EVENTS)
      && (|ActiveNewestFirst(events, userId, now)| < MAX_ACTIVE_EVENTS ==>
            ctx.activeEvents == ActiveNewestFirst(events, userId, now))
      && ctx.totalRecentActivities == |acts|
  {
    QueryEntriesFollowQueries(acts);
    TallyCounts(TimesOfDay(acts));
  }

  // ---------------------------------------------------------------------------
  // lambda_handler

  /** The activity_log fetch for a user: the rows, or None when the query raised. */
  type ActivityFetch = string -> Option<seq<ActivityRecord>>
  /** The language model: the events it detects for a user in a context (a failed
      call or an unparseable answer is an empty list). */
  type Detect = (string, AmbientContext) -> seq<EventData>

  datatype Counters = Counters(usersProcessed: nat, eventsGenerated: nat, errors: nat)

  /** How a user's `try` ended, with the number of events counted for the user
      before that: the counter and the rows survive an exception. */
  datatype UserOutcome = UserFailed(stored: nat) | UserProcessed(stored: nat)

  function Record(c: Counters, o: UserOutcome): Counters {
    match o
    case UserFailed(n) => Counters(c.usersProcessed, c.eventsGenerated + n, c.errors + 1)
    case UserProcessed(n) => Counters(c.usersProcessed + 1, c.eventsGenerated + n, c.errors)
  }

  /** One iteration of the user loop as written: build the context, detect, store
      each event. A failed activity fetch raises before anything is stored; the
      title read after a successful store raises with the rows already kept. */
  function ProcessUser(t: EventTables, userId: string, now: int, fetch: ActivityFetch, detect: Detect,
                       inserts: InsertOutcome): (EventTables, UserOutcome)
  {
    match fetch(userId)
    case None => (t, UserFailed(0))
    case Some(acts) =>
      var (t', n, raised) := StoreEventsAsWritten(t, 0, userId, detect(userId, ContextOf(t.events, userId, acts, now)),
                                                  now, inserts);
      (t', if raised then UserFailed(n) else UserProcessed(n))
  }

  /** A fetched user ends with exactly the rows added for them counted, and is
      counted as processed whenever every detected event has a title; a user
      counted as an error had an event without one. */
  lemma FetchedUserOutcome(t: EventTables, userId: string, now: int, fetch: ActivityFetch, detect: Detect,
                           inserts: InsertOutcome)
    requires EventsWellFormed(t.events, t.nextId)
    requires fetch(userId).Some?
    ensures var (t', o) := ProcessUser(t, userId, now, fetch, detect, inserts);
      var detected := detect(userId, ContextOf(t.events, userId, fetch(userId).value, now));
      && t.events <= t'.events
      && o.stored == |t'.events| - |t.events|
      && ((forall d :: d in detected ==> !d.title.Absent?) ==> o.UserProcessed?)
      && (o.UserFailed? ==> exists d :: d in detected && d.title.Absent?)
  {
    var detected := detect(userId, ContextOf(t.events, userId, fetch(userId).value, now));
    StoreEventsAsWrittenAppend(t, 0, userId, detected, now, inserts);
    if forall d :: d in detected ==> !d.title.Absent? {
      AsWrittenAgreesWhenTitled(t, 0, userId, detected, now, inserts);
    }
  }

  /** The per-user step once the log line can no longer raise (the title read
      with a default, as `store_ambient_event` already does): it runs the loop
      that only logs. */
  function ProcessUserCorrected(t: EventTables, userId: string, now: int, fetch: ActivityFetch, detect: Detect,
                                inserts: InsertOutcome): (EventTables, UserOutcome)
  {
    match fetch(userId)
    case None => (t, UserFailed(0))
    case Some(acts) =>
      var (t', n) := StoreEvents(t, 0, userId, detect(userId, ContextOf(t.events, userId, acts, now)), now, inserts);
      (t', UserProcessed(n))
  }

  /** In the corrected step a user whose activity was fetched is always counted
      as processed, with exactly the rows added for them; every detected event
      is attempted. */
  lemma FetchedUserIsProcessed(t: EventTables, userId: string, now: int, fetch: ActivityFetch, detect: Detect,
                               inserts: InsertOutcome)
    requires EventsWellFormed(t.events, t.nextId)
    requires fetch(userId).Some?
    ensures var (t', o) := ProcessUserCorrected(t, userId, now, fetch, detect, inserts);
      && t.events <= t'.events
      && o == UserProcessed(|t'.events| - |t.events|)
      && t'.nextId == t.nextId + |detect(userId, ContextOf(t.events, userId, fetch(userId).value, now))|
  {
    StoreEventsAppend(t, 0, userId, detect(userId, ContextOf(t.events, userId, fetch(userId).value, now)), now, inserts);
  }

  /** The two steps agree unless a detected event lacks a title. */
  lemma CorrectedAgreesWhenTitled(t: EventTables, userId: string, now: int, fetch: ActivityFetch, detect: Detect,
                                  inserts: InsertOutcome)
    requires fetch(userId).Some? ==>
      forall d :: d in detect(userId, ContextOf(t.events, userId, fetch(userId).value, now)) ==> !d.title.Absent?
    ensures ProcessUser(t, userId, now, fetch, detect, inserts)
         == ProcessUserCorrected(t, userId, now, fetch, detect, inserts)
  {
    if fetch(userId).Some? {
      AsWrittenAgreesWhenTitled(t, 0, userId, detect(userId, ContextOf(t.events, userId, fetch(userId).value, now)),
                                now, inserts);
    }
  }

  /** The user loop over `users` from tables `t` with counters `c` so far. */
  function RunUsers(t: EventTables, c: Counters, users: seq<string>, now: int, fetch: ActivityFetch, detect: Detect,
                    inserts: InsertOutcome): (EventTables, Counters)
    decreases |users|
  {
    if users == [] then (t, c)
    else
      var (t', o) := ProcessUser(t, users[0], now, fetch, detect, inserts);
      RunUsers(t', Record(c, o), users[1..], now, fetch, detect, inserts)
  }

  lemma RunUsersStep(t: EventTables, c: Counters, users: seq<string>, i: nat, now: int, fetch: ActivityFetch,
                     detect: Detect, inserts: InsertOutcome)
    requires i < |users|
    ensures var (t', o) := ProcessUser(t, users[i], now, fetch, detect, inserts);
      RunUsers(t, c, users[i..], now, fetch, detect, inserts)
        == RunUsers(t', Record(c, o), users[i + 1..], now, fetch, detect, inserts)
  {
    assert users[i..][0] == users[i] && users[i..][1..] == users[i + 1..];
  }

  /** Whatever the outcome, one user's step only appends rows, and the outcome
      counts exactly the rows it appended. */
  lemma UserStepKeepsRows(t: EventTables, u: string, now: int, fetch: ActivityFetch, detect: Detect,
                          inserts: InsertOutcome)
    requires EventsWellFormed(t.events, t.nextId)
    ensures var (tu, o) := ProcessUser(t, u, now, fetch, detect, inserts);
      t.events <= tu.events && o.stored == |tu.events| - |t.events|
  {
    if fetch(u).Some? {
      FetchedUserOutcome(t, u, now, fetch, detect, inserts);
    }
  }

  /** The user loop over a list that starts with `u`. */
  lemma RunUsersHead(t: EventTables, c: Counters, u: string, post: seq<string>, now: int, fetch: ActivityFetch,
                     detect: Detect, inserts: InsertOutcome)
    ensures var (tu, o) := ProcessUser(t, u, now, fetch, detect, inserts);
      RunUsers(t, c, [u] + post, now, fetch, detect, inserts) == RunUsers(tu, Record(c, o), post, now, fetch, detect, inserts)
  {
    var users := [u] + post;
    assert users[0] == u && users[0..] == users && users[1..] == post;
    RunUsersStep(t, c, users, 0, now, fetch, detect, inserts);
  }

  /** Every user ends up counted once, as processed or as an error, and
      events_generated is the number of rows the run added to ambient_events,
      which it only appends to. */
  lemma {:induction false} RunCounts(t: EventTables, c: Counters, users: seq<string>, now: int, fetch: ActivityFetch,
                                     detect: Detect, inserts: InsertOutcome)
    requires EventsWellFormed(t.events, t.nextId)
    ensures var (t', c') := RunUsers(t, c, users, now, fetch, detect, inserts);
      && c'.usersProcessed + c'.errors == c.usersProcessed + c.errors + |users|
      && t.events <= t'.events
      && c'.eventsGenerated - c.eventsGenerated == |t'.events| - |t.events|
      && t.nextId <= t'.nextId
      && EventsWellFormed(t'.events, t'.nextId)
    decreases |users|
  {
    if users != [] {
      var (t1, o) := ProcessUser(t, users[0], now, fetch, detect, inserts);
      match fetch(users[0]) {
        case None =>
        case Some(acts) =>
          StoreEventsAsWrittenAppend(t, 0, users[0], detect(users[0], ContextOf(t.events, users[0], acts, now)),
                                     now, inserts);
      }
      RunCounts(t1, Record(c, o), users[1..], now, fetch, detect, inserts);
    }
  }

  /** Running over `a + b` is running over `a`, then over `b` from where `a` ended. */
  lemma {:induction false} RunUsersAppend(t: EventTables, c: Counters, a: seq<string>, b: seq<string>, now: int,
                                          fetch: ActivityFetch, detect: Detect, inserts: InsertOutcome)
    ensures var (ta, ca) := RunUsers(t, c, a, now, fetch, detect, inserts);
      RunUsers(t, c, a + b, now, fetch, detect, inserts) == RunUsers(ta, ca, b, now, fetch, detect, inserts)
    decreases |a|
  {
    if a == [] {
      assert a + b == b;
    } else {
      var (t1, o) := ProcessUser(t, a[0], now, fetch, detect, inserts);
      assert (a + b)[0] == a[0] && (a + b)[1..] == a[1..] + b;
      RunUsersAppend(t1, Record(c, o), a[1..], b, now, fetch, detect, inserts);
    }
  }

  /** The counters do not steer the loop: one more error before it is one more
      error after it. */
  lemma {:induction false} RunUsersErrorShift(t: EventTables, c: Counters, users: seq<string>, now: int,
                                              fetch: ActivityFetch, detect: Detect, inserts: InsertOutcome)
    ensures var (t', c') := RunUsers(t, c, users, now, fetch, detect, inserts);
      RunUsers(t, c.(errors := c.errors + 1), users, now, fetch, detect, inserts) == (t', c'.(errors := c'.errors + 1))
    decreases |users|
  {
    if users != [] {
      var (t1, o) := ProcessUser(t, users[0], now, fetch, detect, inserts);
      assert Record(c.(errors := c.errors + 1), o) == Record(c, o).(errors := Record(c, o).errors + 1);
      RunUsersErrorShift(t1, Record(c, o), users[1..], now, fetch, detect, inserts);
    }
  }

  /** Per-user isolation: a user whose activity fetch raises changes nothing but
      the error count; the run is otherwise the run without that user. */
  lemma FailingUserIsIsolated(t: EventTables, c: Counters, pre: seq<string>, u: string, post: seq<string>, now: int,
                              fetch: ActivityFetch, detect: Detect, inserts: InsertOutcome)
    requires fetch(u).None?
    ensures var (t', c') := RunUsers(t, c, pre + post, now, fetch, detect, inserts);
      RunUsers(t, c, pre + [u] + post, now, fetch, detect, inserts) == (t', c'.(errors := c'.errors + 1))
  {
    var (ta, ca) := RunUsers(t, c, pre, now, fetch, detect, inserts);
    var rest := [u] + post;
    assert pre + [u] + post == pre + rest;
    RunUsersAppend(t, c, pre, rest, now, fetch, detect, inserts);
    RunUsersAppend(t, c, pre, post, now, fetch, detect, inserts);
    assert rest[0] == u && rest[1..] == post;
    assert ProcessUser(ta, u, now, fetch, detect, inserts) == (ta, UserFailed(0));
    assert RunUsers(ta, ca, rest, now, fetch, detect, inserts)
        == RunUsers(ta, ca.(errors := ca.errors + 1), post, now, fetch, detect, inserts);
    RunUsersErrorShift(ta, ca, post, now, fetch, detect, inserts);
  }

  /** The `except` clause: a user whose `try` raises counts one error, keeps the
      rows stored for them before the raise together with their part of
      events_generated, and the loop carries on with the next user. */
  lemma RaisingUserIsCounted(t: EventTables, c: Counters, u: string, post: seq<string>, now: int,
                             fetch: ActivityFetch, detect: Detect, inserts: InsertOutcome)
    requires EventsWellFormed(t.events, t.nextId)
    ensures var (tu, o) := ProcessUser(t, u, now, fetch, detect, inserts);
      o.UserFailed? ==>
        && t.events <= tu.events
        && o.stored == |tu.events| - |t.events|
        && Record(c, o) == Counters(c.usersProcessed, c.eventsGenerated + o.stored, c.errors + 1)
        && RunUsers(t, c, [u] + post, now, fetch, detect, inserts)
           == RunUsers(tu, Record(c, o), post, now, fetch, detect, inserts)
  {
    UserStepKeepsRows(t, u, now, fetch, detect, inserts);
    RunUsersHead(t, c, u, post, now, fetch, detect, inserts);
  }

  /** What the handler reports: the early answer when there is no active user, or
      the three counters. */
  datatype HandlerResult =
    | NoActiveUsers
    | Finished(usersProcessed: nat, eventsGenerated: nat, errors: nat)

  /** The events the loop stores for one user, as written: the number of stores
      that returned an id, and whether the title read raised. */
  method StoreDetectedEvents(db: Database, userId: string, datas: seq<EventData>, now: int, inserts: InsertOutcome)
    returns (stored: nat, raised: bool)
    requires db.Valid()
    modifies db
    ensures db.Valid()
    ensures db.queue == old(db.queue) && db.cache == old(db.cache)
    ensures (EventTables(db.events, db.nextId), stored, raised)
         == StoreEventsAsWritten(EventTables(old(db.events), old(db.nextId)), 0, userId, datas, now, inserts)
  {
    ghost var run := StoreEventsAsWritten(EventTables(db.events, db.nextId), 0, userId, datas, now, inserts);
    stored, raised := 0, false;
    var i := 0;
    while i < |datas|
      invariant 0 <= i <= |datas|
      invariant db.Valid()
      invariant db.queue == old(db.queue) && db.cache == old(db.cache)
      invariant StoreEventsAsWritten(EventTables(db.events, db.nextId), stored, userId, datas[i..], now, inserts) == run
    {
      StoreEventsAsWrittenStep(EventTables(db.events, db.nextId), stored, userId, datas, i, now, inserts);
      var id := StoreAmbientEvent(db, userId, datas[i], now, inserts);
      if id.Some? {
        stored := stored + 1;
        if datas[i].title.Absent? {
          // the log line's `event_data['title']` raises KeyError
          raised := true;
          return;
        }
      }
      i := i + 1;
    }
    assert datas[i..] == [];
  }

  /** The body of the user loop's `try`. */
  method ProcessOneUser(db: Database, userId: string, now: int, fetch: ActivityFetch, detect: Detect,
                        inserts: InsertOutcome) returns (outcome: UserOutcome)
    requires db.Valid()
    modifies db
    ensures db.Valid()
    ensures db.queue == old(db.queue) && db.cache == old(db.cache)
    ensures (EventTables(db.events, db.nextId), outcome)
         == ProcessUser(EventTables(old(db.events), old(db.nextId)), userId, now, fetch, detect, inserts)
  {
    var acts := fetch(userId);
    if acts.None? {
      return UserFailed(0);
    }
    var context := GetUserContext(db, userId, acts.value, now);
    var detected := detect(userId, context);
    var stored, raised := StoreDetectedEvents(db, userId, detected, now, inserts);
    outcome := if raised then UserFailed(stored) else UserProcessed(stored);
  }

  /** The user loop of `lambda_handler`. */
  method ProcessUsers(db: Database, users: seq<string>, now: int, fetch: ActivityFetch, detect: Detect,
                      inserts: InsertOutcome) returns (usersProcessed: nat, eventsGenerated: nat, errors: nat)
    requires db.Valid()
    modifies db
    ensures db.Valid()
    ensures db.queue == old(db.queue) && db.cache == old(db.cache)
    ensures (EventTables(db.events, db.nextId), Counters(usersProcessed, eventsGenerated, errors))
         == RunUsers(EventTables(old(db.events), old(db.nextId)), Counters(0, 0, 0), users, now, fetch, detect, inserts)
  {
    ghost var run := RunUsers(EventTables(db.events, db.nextId), Counters(0, 0, 0), users, now, fetch, detect, inserts);
    usersProcessed, eventsGenerated, errors := 0, 0, 0;
    var i := 0;
    while i < |users|
      invariant 0 <= i <= |users|
      invariant db.Valid()
      invariant db.queue == old(db.queue) && db.cache == old(db.cache)
      invariant RunUsers(EventTables(db.events, db.nextId), Counters(usersProcessed, eventsGenerated, errors),
                         users[i..], now, fetch, detect, inserts) == run
    {
      ghost var before := EventTables(db.events, db.nextId);
      ghost var counted := Counters(usersProcessed, eventsGenerated, errors);
      ghost var step := ProcessUser(before, users[i], now, fetch, detect, inserts);
      RunUsersStep(before, counted, users, i, now, fetch, detect, inserts);
      var outcome := ProcessOneUser(db, users[i], now, fetch, detect, inserts);
      assert EventTables(db.events, db.nextId) == step.0 && outcome == step.1;
      var next := Record(Counters(usersProcessed, eventsGenerated, errors), outcome);
      usersProcessed, eventsGenerated, errors := next.usersProcessed, next.eventsGenerated, next.errors;
      i := i + 1;
    }
    assert users[i..] == [];
  }

  /** `lambda_handler` of the detector over the active users `users`. */
  method Handle(db: Database, users: seq<string>, now: int, fetch: ActivityFetch, detect: Detect,
                inserts: InsertOutcome) returns (result: HandlerResult)
    requires db.Valid()
    modifies db
    ensures db.Valid()
    ensures db.queue == old(db.queue) && db.cache == old(db.cache)
    ensures var (t, c) := RunUsers(EventTables(old(db.events), old(db.nextId)), Counters(0, 0, 0), users,
                                   now, fetch, detect, inserts);
      && EventTables(db.events, db.nextId) == t
      && result == if users == [] then NoActiveUsers
                   else Finished(c.usersProcessed, c.eventsGenerated, c.errors)
  {
    if users == [] {
      return NoActiveUsers;
    }
    var usersProcessed, eventsGenerated, errors := ProcessUsers(db, users, now, fetch, detect, inserts);
    result := Finished(usersProcessed, eventsGenerated, errors);
  }
}
