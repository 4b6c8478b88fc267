/**
 * State shared by the two event consumers: untyped event payloads, per-key
 * counters that only grow, and bounded lists of the most recent events,
 * newest first.
 */
module EventState {

  /** A value of a deserialised event: text, a whole number, null, or anything else. */
  datatype Value = Text(s: string) | Number(n: int) | Null | Other

  type Event = map<string, Value>

  // ---------------------------------------------------------------------------
  // Counters (computeIfAbsent(k, new AtomicLong(0)).incrementAndGet())

  /** The counter map after one more occurrence of `k`: a missing counter starts at 0. */
  function Increment(m: map<string, int>, k: string): (r: map<string, int>)
    ensures r.Keys == m.Keys + {k}
    ensures r[k] == (if k in m then m[k] else 0) + 1
    ensures forall j :: j in m && j != k ==> r[j] == m[j]
  {
    m[k := (if k in m then m[k] else 0) + 1]
  }

  /** Some key of a non-empty key set. */
  ghost function Pick(keys: set<string>): (k: string)
    requires keys != {}
    ensures k in keys
  {
    var k :| k in keys; k
  }

  /** The sum of all counters. */
  ghost function Total(m: map<string, int>): int
    decreases |m|
  {
    if |m| == 0 then 0
    else
      var k := Pick(m.Keys);
      m[k] + Total(m - {k})
  }

  /** Any counter can be taken out of the sum first. */
  lemma {:induction false} TotalRemove(m: map<string, int>, k: string)
    requires k in m
    ensures Total(m) == m[k] + Total(m - {k})
    decreases |m|
  {
    var j := Pick(m.Keys);
    if j != k {
      TotalRemove(m - {j}, k);
      TotalRemove(m - {k}, j);
      assert m - {j} - {k} == m - {k} - {j};
    }
  }

  /** Setting one counter changes the sum by the difference, or by the new value for a new key. */
  lemma TotalUpdate(m: map<string, int>, k: string, v: int)
    ensures Total(m[k := v]) == Total(m) - (if k in m then m[k] else 0) + v
  {
    var r := m[k := v];
    TotalRemove(r, k);
    assert r - {k} == m - {k};
    if k in m {
      TotalRemove(m, k);
    } else {
      assert m - {k} == m;
    }
  }

  /** One more occurrence of any key adds exactly one to the sum. */
  lemma TotalIncrement(m: map<string, int>, k: string)
    ensures Total(Increment(m, k)) == Total(m) + 1
  {
    TotalUpdate(m, k, (if k in m then m[k] else 0) + 1);
  }

  /** The counters after counting each key of `ks` in turn, starting from none. */
  function Counts(ks: seq<string>): map<string, int>
  {
    if ks == [] then map[] else Increment(Counts(ks[..|ks| - 1]), ks[|ks| - 1])
  }

  /** Counting one more key is one Increment. */
  lemma CountsSnoc(ks: seq<string>, k: string)
    ensures Counts(ks + [k]) == Increment(Counts(ks), k)
  {
    assert (ks + [k])[..|ks|] == ks;
  }

  /** Each counter holds the number of occurrences of its key, and only keys that occurred have a counter. */
  lemma {:induction false} CountsOccurrences(ks: seq<string>)
    ensures forall k :: k in Counts(ks) <==> k in multiset(ks)
    ensures forall k :: k in Counts(ks) ==> Counts(ks)[k] == multiset(ks)[k]
  {
    if ks != [] {
      var init := ks[..|ks| - 1];
      CountsOccurrences(init);
      assert ks == init + [ks[|ks| - 1]];
    }
  }

  /** The counters add up to the number of keys counted. */
  lemma {:induction false} TotalCounts(ks: seq<string>)
    ensures Total(Counts(ks)) == |ks|
  {
    if ks != [] {
      TotalCounts(ks[..|ks| - 1]);
      TotalIncrement(Counts(ks[..|ks| - 1]), ks[|ks| - 1]);
    }
  }

  // ---------------------------------------------------------------------------
  // Recent events (add(0, e), then remove(size() - 1) past the capacity)

  /** The list after inserting `x` at the front and, past `cap` entries, removing the last one. */
  function PushFront<T>(xs: seq<T>, x: T, cap: nat): (r: seq<T>)
    ensures |r| == if |xs| + 1 > cap then |xs| else |xs| + 1
    ensures r != [] ==> r[0] == x
    ensures forall i :: 1 <= i < |r| ==> r[i] == xs[i - 1]
  {
    var ys := [x] + xs;
    if |ys| > cap then ys[..|ys| - 1] else ys
  }

  /** The last `cap` events of a history, newest first. */
  function Latest<T>(h: seq<T>, cap: nat): (r: seq<T>)
    ensures |r| == if |h| < cap then |h| else cap
    ensures forall i :: 0 <= i < |r| ==> r[i] == h[|h| - 1 - i]
  {
    seq(if |h| < cap then |h| else cap, i requires 0 <= i < |h| => h[|h| - 1 - i])
  }

  /**
   * Inserting each arriving event at the front and trimming past `cap` keeps
   * exactly the last `cap` events of the whole history, newest first.
   */
  lemma PushFrontLatest<T>(h: seq<T>, x: T, cap: nat)
    ensures PushFront(Latest(h, cap), x, cap) == Latest(h + [x], cap)
  {
    var r := PushFront(Latest(h, cap), x, cap);
    var l := Latest(h + [x], cap);
    assert |r| == |l|;
    forall i | 0 <= i < |r|
      ensures r[i] == l[i]
    {
      if i > 0 {
        assert (h + [x])[|h| - i] == h[|h| - 1 - (i - 1)];
      }
    }
  }

  /** A new array holding the events in the same order: the caller may change it without touching the list. */
  method CopyOf(events: seq<Event>) returns (copy: array<Event>)
    ensures fresh(copy) && copy[..] == events
  {
    copy := new Event[|events|];
    for i := 0 to |events|
      invariant copy[..i] == events[..i]
    {
      copy[i] := events[i];
    }
  }
}
