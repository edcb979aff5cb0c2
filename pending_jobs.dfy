/** `get_pending_jobs` in claude_generator: the jobs a run claims, namely the
    queued, due, unexpired jobs with attempts left, highest priority first and
    earliest scheduled first among equal priorities, at most ten of them.
    MySQL leaves the order of rows that tie on both sort keys unspecified; the
    model fixes one (insertion sort over the table order) and promises nothing
    about it. */
module PendingJobs {
  import opened Common
  import opened Store

  const MAX_JOBS_PER_RUN: nat := 10
  const MAX_ATTEMPTS: nat := 3

  /** The WHERE clause of the selection. */
  predicate Eligible(j: WorkItem, now: int) {
    && j.status == Queued
    && j.scheduledFor <= now
    && now < j.validUntil
    && j.attempts < MAX_ATTEMPTS
  }

  /** `ORDER BY priority DESC, scheduled_for ASC`: `a` may be listed before `b`. */
  predicate InOrder(a: WorkItem, b: WorkItem) {
    a.priority > b.priority || (a.priority == b.priority && a.scheduledFor <= b.scheduledFor)
  }

  predicate Sorted(s: seq<WorkItem>) {
    forall i, k :: 0 <= i < k < |s| ==> InOrder(s[i], s[k])
  }

  predicate UniqueIds(s: seq<WorkItem>) {
    forall i, k :: 0 <= i < k < |s| ==> s[i].id != s[k].id
  }

  /** The rows the WHERE clause admits, in table order. */
  function EligibleRows(rows: seq<WorkItem>, now: int): (r: seq<WorkItem>)
    ensures forall j :: j in r <==> j in rows && Eligible(j, now)
  {
    if rows == [] then []
    else
      var rest := EligibleRows(rows[1..], now);
      if Eligible(rows[0], now) then [rows[0]] + rest else rest
  }

  lemma SortedCons(h: WorkItem, t: seq<WorkItem>)
    requires Sorted(t)
    requires forall k :: 0 <= k < |t| ==> InOrder(h, t[k])
    ensures Sorted([h] + t)
  {
    forall i, k | 0 <= i < k < |[h] + t| ensures InOrder(([h] + t)[i], ([h] + t)[k]) {
      if i > 0 {
        assert ([h] + t)[i] == t[i - 1] && ([h] + t)[k] == t[k - 1];
      }
    }
  }

  /** Inserts `x` into the sorted `s` before the first row it may precede. */
  function Insert(x: WorkItem, s: seq<WorkItem>): (r: seq<WorkItem>)
    requires Sorted(s)
    ensures Sorted(r)
    ensures multiset(r) == multiset(s) + multiset{x}
  {
    if s == [] || InOrder(x, s[0]) then
      SortedCons(x, s);
      [x] + s
    else
      var rest := Insert(x, s[1..]);
      assert s == [s[0]] + s[1..];
      assert forall k :: 0 <= k < |rest| ==> InOrder(s[0], rest[k]) by {
        forall k | 0 <= k < |rest| ensures InOrder(s[0], rest[k]) {
          var e := rest[k];
          assert e in multiset(rest);
          if e != x {
            assert e in multiset(s[1..]);
            var m :| 0 <= m < |s[1..]| && s[1..][m] == e;
            assert s[m + 1] == e;
          }
        }
      }
      SortedCons(s[0], rest);
      [s[0]] + rest
  }

  function SortRows(s: seq<WorkItem>): (r: seq<WorkItem>)
    ensures Sorted(r)
    ensures multiset(r) == multiset(s)
  {
    if s == [] then []
    else
      assert s == [s[0]] + s[1..];
      Insert(s[0], SortRows(s[1..]))
  }

  /** The selection with a given LIMIT. */
  function SelectJobs(rows: seq<WorkItem>, now: int, limit: nat): (r: seq<WorkItem>)
    ensures |r| <= limit
    ensures forall j :: j in r ==> j in rows && Eligible(j, now)
    ensures Sorted(r)
  {
    var sorted := SortRows(EligibleRows(rows, now));
    assert forall j :: j in sorted ==> j in EligibleRows(rows, now) by {
      forall j | j in sorted ensures j in EligibleRows(rows, now) {
        assert j in multiset(sorted);
      }
    }
    Take(sorted, limit)
  }

  lemma {:induction false} EligibleRowsUnique(rows: seq<WorkItem>, now: int)
    requires UniqueIds(rows)
    ensures UniqueIds(EligibleRows(rows, now))
    decreases |rows|
  {
    if rows != [] {
      var rest := EligibleRows(rows[1..], now);
      EligibleRowsUnique(rows[1..], now);
      forall e | e in rest ensures e.id != rows[0].id {
        var m :| 0 <= m < |rows[1..]| && rows[1..][m] == e;
        assert rows[m + 1] == e;
      }
    }
  }

  lemma {:induction false} InsertUnique(x: WorkItem, s: seq<WorkItem>)
    requires Sorted(s) && UniqueIds(s)
    requires forall e :: e in s ==> e.id != x.id
    ensures UniqueIds(Insert(x, s))
    decreases |s|
  {
    if !(s == [] || InOrder(x, s[0])) {
      var rest := Insert(x, s[1..]);
      InsertUnique(x, s[1..]);
      forall e | e in rest ensures e.id != s[0].id {
        assert e in multiset(rest);
        if e != x {
          var m :| 0 <= m < |s[1..]| && s[1..][m] == e;
          assert s[m + 1] == e;
        }
      }
    }
  }

  lemma {:induction false} SortRowsUnique(s: seq<WorkItem>)
    requires UniqueIds(s)
    ensures UniqueIds(SortRows(s))
    decreases |s|
  {
    if s != [] {
      var rest := SortRows(s[1..]);
      SortRowsUnique(s[1..]);
      forall e | e in rest ensures e.id != s[0].id {
        assert e in multiset(rest);
        var m :| 0 <= m < |s[1..]| && s[1..][m] == e;
        assert s[m + 1] == e;
      }
      InsertUnique(s[0], rest);
    }
  }

  /** A table whose ids are unique yields a selection without repeated jobs. */
  lemma SelectJobsUnique(rows: seq<WorkItem>, now: int, limit: nat)
    requires UniqueIds(rows)
    ensures UniqueIds(SelectJobs(rows, now, limit))
  {
    EligibleRowsUnique(rows, now);
    SortRowsUnique(EligibleRows(rows, now));
  }

  /** `get_pending_jobs(connection)` at time `now`. */
  function SelectPending(rows: seq<WorkItem>, now: int): seq<WorkItem> {
    SelectJobs(rows, now, MAX_JOBS_PER_RUN)
  }

  /** The selection is a top-k: an eligible row is left out only when the limit
      is reached, and then no row it left out sorts strictly before one it took. */
  lemma SelectionIsTopK(rows: seq<WorkItem>, now: int, limit: nat, j: WorkItem)
    requires j in rows && Eligible(j, now)
    requires j !in SelectJobs(rows, now, limit)
    ensures |SelectJobs(rows, now, limit)| == limit
    ensures forall s :: s in SelectJobs(rows, now, limit) ==> InOrder(s, j)
  {
    var eligible := EligibleRows(rows, now);
    var sorted := SortRows(eligible);
    assert j in eligible;
    assert j in multiset(sorted) by { assert j in multiset(eligible); }
    var p :| 0 <= p < |sorted| && sorted[p] == j;
    var r := Take(sorted, limit);
    assert p >= |r|;
    assert |r| == limit;
    forall s | s in r ensures InOrder(s, j) {
      var q :| 0 <= q < |r| && r[q] == s;
      assert sorted[q] == s;
    }
  }

  /** A job that is not queued, not yet due, expired, or out of attempts is never
      selected; in particular a failed job is never selected again. */
  lemma IneligibleNeverSelected(rows: seq<WorkItem>, now: int, j: WorkItem)
    requires !Eligible(j, now)
    ensures j !in SelectPending(rows, now)
  {
  }

  /** The first step of the claim-order example: the WHERE clause keeps three
      eligible rows, in table order. */
  lemma AllEligibleExample(a: WorkItem, b: WorkItem, c: WorkItem, t0: int)
    requires Eligible(a, t0) && Eligible(b, t0) && Eligible(c, t0)
    ensures EligibleRows([a, b, c], t0) == [a, b, c]
  {
    assert [a, b, c][1..] == [b, c];
    assert [b, c][1..] == [c];
    assert EligibleRows([c], t0) == [c];
    assert EligibleRows([b, c], t0) == [b, c];
  }

  /** The second step: `ORDER BY priority DESC, scheduled_for ASC` puts the
      earlier of the two priority-90 rows first and the priority-50 row last. */
  lemma SortExample(a: WorkItem, b: WorkItem, c: WorkItem, t0: int)
    requires a.priority == 90 && b.priority == 50 && c.priority == 90
    requires a.scheduledFor == t0 && b.scheduledFor == t0 && c.scheduledFor == t0 - 1
    ensures SortRows([a, b, c]) == [c, a, b]
  {
    assert [a, b, c][1..] == [b, c];
    assert [b, c][1..] == [c];
    assert [c][1..] == [];
    assert SortRows([c]) == [c];
    assert Insert(b, [c]) == [c] + Insert(b, []) == [c, b];
    assert SortRows([b, c]) == [c, b];
    assert [c, b][1..] == [b];
    assert Insert(a, [c, b]) == [c] + Insert(a, [b]) == [c, a, b];
  }

  /** The example of the claim order: priorities [90, 50, 90] with scheduled times
      [t0, t0, t0 - 1], claimed two at a time, give the two priority-90 jobs,
      the earlier-scheduled one first. */
  lemma ClaimOrderExample(a: WorkItem, b: WorkItem, c: WorkItem, t0: int)
    requires Eligible(a, t0) && Eligible(b, t0) && Eligible(c, t0)
    requires a.priority == 90 && b.priority == 50 && c.priority == 90
    requires a.scheduledFor == t0 && b.scheduledFor == t0 && c.scheduledFor == t0 - 1
    ensures SelectJobs([a, b, c], t0, 2) == [c, a]
  {
    AllEligibleExample(a, b, c, t0);
    SortExample(a, b, c, t0);
  }
}
