/** Values shared by the three workers: optional values, fields of JSON objects and
    SQL rows as Python's `dict.get` sees them, time constants, and the counting
    helpers the workers use when they summarise activity. */
module Common {

  datatype Option<+T> = None | Some(value: T)

  /** A field of a decoded JSON object or of a fetched row: the key may be missing,
      present with a null value, or present with a value. */
  datatype Field<+T> = Absent | Null | Present(v: T) {

    /** `d.get(key, default)`: the default replaces only a MISSING key; a null
        value comes back as None. */
    function GetOr(default: T): Option<T> {
      match this
      case Absent => Some(default)
      case Null => None
      case Present(v) => Some(v)
    }

    /** `d.get(key)`: a missing key and a null value both come back as None. */
    function Get(): Option<T> {
      if this.Present? then Some(v) else None
    }
  }

  /** Python truthiness of a text field: present and non-empty. */
  predicate Truthy(f: Field<string>) {
    f.Present? && f.v != ""
  }

  /** An ISO-8601 time text after `datetime.fromisoformat`: no (or an empty) text,
      a text the parser rejects, or an instant in seconds. */
  datatype TimeText = NoTime | Unparseable | Parsed(t: int)

  /** A confidence value read from model output: missing, something that is not a
      number (comparing it with a float raises), or a number. */
  datatype Score = NoScore | NotANumber | Score(v: real)

  /** Instants are whole seconds. */
  const MINUTE: int := 60
  const HOUR: int := 60 * MINUTE
  const DAY: int := 24 * HOUR

  /** `s[:n]` */
  function Take<T>(s: seq<T>, n: nat): (r: seq<T>)
    ensures |r| == if |s| < n then |s| else n
    ensures r <= s
  {
    if |s| <= n then s else s[..n]
  }

  /** Appending to a list only while it is shorter than `n` keeps exactly its
      first `n` elements: `s[:n]` of the whole list. */
  lemma TakeSnoc<T>(s: seq<T>, x: T, n: nat)
    ensures Take(s + [x], n) == if |s| < n then Take(s, n) + [x] else Take(s, n)
  {
    if n <= |s| {
      assert (s + [x])[..n] == s[..n];
    }
  }

  /** `counts.get(k, 0)` */
  function Count<K>(m: map<K, nat>, k: K): nat {
    if k in m then m[k] else 0
  }

  /** The dictionary of counts that `counts[k] = counts.get(k, 0) + 1` builds over
      `keys` in order. */
  function Tally<K>(keys: seq<K>): map<K, nat> {
    if keys == [] then map[]
    else
      var m := Tally(keys[..|keys| - 1]);
      m[keys[|keys| - 1] := Count(m, keys[|keys| - 1]) + 1]
  }

  /** The tally counts every key exactly as often as it occurs, and holds no other
      key. */
  lemma {:induction false} TallyCounts<K(!new)>(keys: seq<K>)
    ensures forall k :: Count(Tally(keys), k) == multiset(keys)[k]
    ensures forall k :: k in Tally(keys) <==> k in keys
    decreases |keys|
  {
    if keys != [] {
      var init := keys[..|keys| - 1];
      assert keys == init + [keys[|keys| - 1]];
      TallyCounts(init);
    }
  }

  /** Counting one more key updates only that key's count. */
  lemma TallySnoc<K>(keys: seq<K>, x: K)
    ensures Tally(keys + [x]) == Tally(keys)[x := Count(Tally(keys), x) + 1]
  {
    assert (keys + [x])[..|keys|] == keys;
  }

  /** The sum of the counts in a tally. */
  ghost function SumCounts<K>(m: map<K, nat>): nat
    decreases |m.Keys|
  {
    if |m.Keys| == 0 then 0
    else
      var k :| k in m;
      assert (m - {k}).Keys == m.Keys - {k};
      m[k] + SumCounts(m - {k})
  }

  /** The sum does not depend on the key taken out first. */
  lemma {:induction false} SumCountsRemove<K>(m: map<K, nat>, y: K)
    requires y in m
    ensures SumCounts(m) == m[y] + SumCounts(m - {y})
    decreases |m.Keys|, 1
  {
    assert y in m.Keys;
    assert |m.Keys| != 0;
    var k :| k in m && SumCounts(m) == m[k] + SumCounts(m - {k});
    if k != y {
      SumCountsSwap(m, k, y);
    }
  }

  lemma {:induction false} SumCountsSwap<K>(m: map<K, nat>, k: K, y: K)
    requires k in m && y in m && k != y
    ensures m[k] + SumCounts(m - {k}) == m[y] + SumCounts(m - {y})
    decreases |m.Keys|, 0
  {
    var mk := m - {k};
    var my := m - {y};
    assert mk.Keys == m.Keys - {k};
    assert my.Keys == m.Keys - {y};
    SumCountsRemove(mk, y);
    SumCountsRemove(my, k);
    assert mk - {y} == my - {k};
  }

  /** Changing one count changes the sum by the difference. */
  lemma SumCountsUpdate<K>(m: map<K, nat>, x: K, v: nat)
    ensures SumCounts(m[x := v]) == SumCounts(m) - Count(m, x) + v
  {
    SumCountsRemove(m[x := v], x);
    assert m[x := v] - {x} == m - {x};
    if x in m {
      SumCountsRemove(m, x);
    } else {
      assert m - {x} == m;
    }
  }

  /** The counts of a tally add up to the number of keys counted. */
  lemma {:induction false} TallySum<K>(keys: seq<K>)
    ensures SumCounts(Tally(keys)) == |keys|
    decreases |keys|
  {
    if keys != [] {
      var init := keys[..|keys| - 1];
      var m := Tally(init);
      TallySum(init);
      SumCountsUpdate(m, keys[|keys| - 1], Count(m, keys[|keys| - 1]) + 1);
    }
  }

  /** Truncation toward zero of a real, as Python's `int()` does to a float. */
  function Trunc(x: real): (n: int)
    ensures x >= 0.0 ==> n as real <= x < n as real + 1.0
    ensures x < 0.0 ==> n as real - 1.0 < x <= n as real
  {
    if x >= 0.0 then x.Floor else -((-x).Floor)
  }
}
