/** What the three workers read out of a user's activity_log rows before they ask
    a language model anything: the queries the user typed (the first ten that are
    non-empty, in fetch order) and how often each time of day, day of week and
    action type occurs. */
module Activity {
  import opened Common
  import opened Store

  const MAX_RECENT_QUERIES: nat := 10

  /** The non-empty texts among `fields`, in order (a loop that appends
      `record.get(key)` when it is truthy). */
  function TruthyTexts(fields: seq<Field<string>>): (r: seq<string>)
    ensures |r| <= |fields|
    ensures forall s :: s in r <==> s != "" && Present(s) in fields
  {
    if fields == [] then []
    else
      var init := fields[..|fields| - 1];
      var last := fields[|fields| - 1];
      assert fields == init + [last];
      TruthyTexts(init) + if Truthy(last) then [last.v] else []
  }

  /** Filtering commutes with concatenation, so TruthyTexts keeps the input order. */
  lemma {:induction false} TruthyTextsAppend(a: seq<Field<string>>, b: seq<Field<string>>)
    ensures TruthyTexts(a + b) == TruthyTexts(a) + TruthyTexts(b)
    decreases |b|
  {
    if b == [] {
      assert a + b == a;
    } else {
      var b' := b[..|b| - 1];
      assert (a + b)[..|a + b| - 1] == a + b';
      assert (a + b)[|a + b| - 1] == b[|b| - 1];
      TruthyTextsAppend(a, b');
    }
  }

  function QueryFields(acts: seq<ActivityRecord>): (r: seq<Field<string>>)
    ensures |r| == |acts| && forall i :: 0 <= i < |acts| ==> r[i] == acts[i].query
  {
    seq(|acts|, i requires 0 <= i < |acts| => acts[i].query)
  }

  function TimeOfDayFields(acts: seq<ActivityRecord>): (r: seq<Field<string>>)
    ensures |r| == |acts| && forall i :: 0 <= i < |acts| ==> r[i] == acts[i].timeOfDay
  {
    seq(|acts|, i requires 0 <= i < |acts| => acts[i].timeOfDay)
  }

  function DayOfWeekFields(acts: seq<ActivityRecord>): (r: seq<Field<string>>)
    ensures |r| == |acts| && forall i :: 0 <= i < |acts| ==> r[i] == acts[i].dayOfWeek
  {
    seq(|acts|, i requires 0 <= i < |acts| => acts[i].dayOfWeek)
  }

  /** `record.get('action_type', 'unknown')`: a missing action type is counted as
      'unknown'; a null one is counted under None. */
  function ActionKey(a: ActivityRecord): Option<string> {
    a.actionType.GetOr("unknown")
  }

  function ActionKeys(acts: seq<ActivityRecord>): (r: seq<Option<string>>)
    ensures |r| == |acts| && forall i :: 0 <= i < |acts| ==> r[i] == ActionKey(acts[i])
  {
    seq(|acts|, i requires 0 <= i < |acts| => ActionKey(acts[i]))
  }

  /** Every non-empty query, in fetch order. */
  function Queries(acts: seq<ActivityRecord>): seq<string> {
    TruthyTexts(QueryFields(acts))
  }

  /** The activities that carry a non-empty query, in fetch order. */
  function WithQuery(acts: seq<ActivityRecord>): (r: seq<ActivityRecord>)
    ensures |r| <= |acts|
    ensures forall a :: a in r <==> a in acts && Truthy(a.query)
  {
    if acts == [] then []
    else
      var init := acts[..|acts| - 1];
      var last := acts[|acts| - 1];
      assert acts == init + [last];
      WithQuery(init) + if Truthy(last.query) then [last] else []
  }

  /** The times of day that are set, one per activity that has one. */
  function TimesOfDay(acts: seq<ActivityRecord>): seq<string> {
    TruthyTexts(TimeOfDayFields(acts))
  }

  function DaysOfWeek(acts: seq<ActivityRecord>): seq<string> {
    TruthyTexts(DayOfWeekFields(acts))
  }

  /** The first ten non-empty queries, in fetch order. */
  function RecentQueries(acts: seq<ActivityRecord>): (r: seq<string>)
    ensures |r| == if |Queries(acts)| < MAX_RECENT_QUERIES then |Queries(acts)| else MAX_RECENT_QUERIES
    ensures r <= Queries(acts)
  {
    Take(Queries(acts), MAX_RECENT_QUERIES)
  }

  /** Extending the fetched activity extends each projection by the new record's
      part, which is what lets a loop over the records maintain them. */
  lemma ProjectionsSnoc(acts: seq<ActivityRecord>, a: ActivityRecord)
    ensures Queries(acts + [a]) == Queries(acts) + (if Truthy(a.query) then [a.query.v] else [])
    ensures TimesOfDay(acts + [a]) == TimesOfDay(acts) + (if Truthy(a.timeOfDay) then [a.timeOfDay.v] else [])
    ensures DaysOfWeek(acts + [a]) == DaysOfWeek(acts) + (if Truthy(a.dayOfWeek) then [a.dayOfWeek.v] else [])
    ensures ActionKeys(acts + [a]) == ActionKeys(acts) + [ActionKey(a)]
    ensures WithQuery(acts + [a]) == WithQuery(acts) + (if Truthy(a.query) then [a] else [])
  {
    assert QueryFields(acts + [a]) == QueryFields(acts) + [a.query];
    assert TimeOfDayFields(acts + [a]) == TimeOfDayFields(acts) + [a.timeOfDay];
    assert DayOfWeekFields(acts + [a]) == DayOfWeekFields(acts) + [a.dayOfWeek];
    assert (acts + [a])[..|acts|] == acts;
    assert (QueryFields(acts) + [a.query])[..|acts|] == QueryFields(acts);
    assert (TimeOfDayFields(acts) + [a.timeOfDay])[..|acts|] == TimeOfDayFields(acts);
    assert (DayOfWeekFields(acts) + [a.dayOfWeek])[..|acts|] == DayOfWeekFields(acts);
  }

  /** The step of a loop that appends each non-empty query. */
  lemma QueriesSnoc(acts: seq<ActivityRecord>, a: ActivityRecord)
    ensures Truthy(a.query) ==> Queries(acts + [a]) == Queries(acts) + [a.query.v]
    ensures !Truthy(a.query) ==> Queries(acts + [a]) == Queries(acts)
  {
    ProjectionsSnoc(acts, a);
    if !Truthy(a.query) {
      assert Queries(acts + [a]) == Queries(acts);
    }
  }

  /** The step of a loop that counts each time of day that is set. */
  lemma TimesOfDayTallySnoc(acts: seq<ActivityRecord>, a: ActivityRecord)
    ensures Truthy(a.timeOfDay) ==>
      Tally(TimesOfDay(acts + [a])) == Tally(TimesOfDay(acts))[a.timeOfDay.v := Count(Tally(TimesOfDay(acts)), a.timeOfDay.v) + 1]
    ensures !Truthy(a.timeOfDay) ==> Tally(TimesOfDay(acts + [a])) == Tally(TimesOfDay(acts))
  {
    ProjectionsSnoc(acts, a);
    if Truthy(a.timeOfDay) {
      TallySnoc(TimesOfDay(acts), a.timeOfDay.v);
    } else {
      assert TimesOfDay(acts + [a]) == TimesOfDay(acts);
    }
  }

  /** The step of a loop that counts each day of the week that is set. */
  lemma DaysOfWeekTallySnoc(acts: seq<ActivityRecord>, a: ActivityRecord)
    ensures Truthy(a.dayOfWeek) ==>
      Tally(DaysOfWeek(acts + [a])) == Tally(DaysOfWeek(acts))[a.dayOfWeek.v := Count(Tally(DaysOfWeek(acts)), a.dayOfWeek.v) + 1]
    ensures !Truthy(a.dayOfWeek) ==> Tally(DaysOfWeek(acts + [a])) == Tally(DaysOfWeek(acts))
  {
    ProjectionsSnoc(acts, a);
    if Truthy(a.dayOfWeek) {
      TallySnoc(DaysOfWeek(acts), a.dayOfWeek.v);
    } else {
      assert DaysOfWeek(acts + [a]) == DaysOfWeek(acts);
    }
  }

  /** The step of a loop that counts every action type. */
  lemma ActionKeysTallySnoc(acts: seq<ActivityRecord>, a: ActivityRecord)
    ensures Tally(ActionKeys(acts + [a])) == Tally(ActionKeys(acts))[ActionKey(a) := Count(Tally(ActionKeys(acts)), ActionKey(a)) + 1]
  {
    ProjectionsSnoc(acts, a);
    TallySnoc(ActionKeys(acts), ActionKey(a));
  }
}
