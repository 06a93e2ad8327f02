/**
 * A JavaScript plain object used as a dictionary, modelled as the list of its
 * own entries in iteration order (what `Object.entries` returns).  Writing a
 * key that is already present keeps its position and replaces its value;
 * writing a new key appends it.  This is what the spread idiom
 * `{ ...acc, [key]: value }` does, and `{ ...acc, ...more }` writes the entries
 * of `more` one after the other.
 */
module OrderedMaps {
  import opened Wrappers

  type Entries<V> = seq<(string, V)>

  function Keys<V>(m: Entries<V>): (ks: seq<string>)
    ensures |ks| == |m|
    ensures forall i :: 0 <= i < |m| ==> ks[i] == m[i].0
  {
    seq(|m|, i requires 0 <= i < |m| => m[i].0)
  }

  /** The keys of a non-empty list: those of all but its last entry, then the last entry's. */
  lemma KeysSnoc<V>(m: Entries<V>)
    requires |m| > 0
    ensures Keys(m) == Keys(m[..|m| - 1]) + [m[|m| - 1].0]
  {
    var a, b := Keys(m), Keys(m[..|m| - 1]) + [m[|m| - 1].0];
    forall i | 0 <= i < |a|
      ensures a[i] == b[i]
    {
      if i < |m| - 1 {
        assert b[i] == Keys(m[..|m| - 1])[i];
      }
    }
  }

  /** What every object satisfies: no key twice. */
  predicate UniqueKeys<V>(m: Entries<V>) {
    forall i, j :: 0 <= i < j < |m| ==> m[i].0 != m[j].0
  }

  /** `m[k]`, the value of the first entry with key `k`. */
  function Lookup<V>(m: Entries<V>, k: string): (r: Option<V>)
    ensures r.Some? <==> k in Keys(m)
    ensures r.Some? ==> (k, r.value) in m
  {
    if |m| == 0 then None
    else if m[0].0 == k then Some(m[0].1)
    else
      assert Keys(m) == [m[0].0] + Keys(m[1..]);
      Lookup(m[1..], k)
  }

  /** Position of the first entry with key `k`. */
  function IndexOf<V>(m: Entries<V>, k: string): (i: nat)
    requires k in Keys(m)
    ensures i < |m| && m[i].0 == k
    ensures forall j :: 0 <= j < i ==> m[j].0 != k
  {
    if m[0].0 == k then 0
    else
      var i :| 0 <= i < |m| && Keys(m)[i] == k;
      assert Keys(m[1..])[i - 1] == k;
      1 + IndexOf(m[1..], k)
  }

  /** `{ ...m, [k]: v }` */
  function Put<V>(m: Entries<V>, k: string, v: V): (r: Entries<V>)
    ensures Keys(r) == if k in Keys(m) then Keys(m) else Keys(m) + [k]
    ensures UniqueKeys(m) ==> UniqueKeys(r)
  {
    if k in Keys(m) then
      var r := m[IndexOf(m, k) := (k, v)];
      assert Keys(r) == Keys(m);
      r
    else
      var r := m + [(k, v)];
      assert Keys(r) == Keys(m) + [k];
      r
  }

  /** `{ ...m, ...more }` */
  function Merge<V>(m: Entries<V>, more: Entries<V>): (r: Entries<V>)
    ensures UniqueKeys(m) ==> UniqueKeys(r)
    decreases |more|
  {
    if |more| == 0 then m
    else
      var last := more[|more| - 1];
      Put(Merge(m, more[..|more| - 1]), last.0, last.1)
  }

  /** The written key now maps to the written value and every other key keeps its value. */
  lemma {:induction false} PutLookup<V>(m: Entries<V>, k: string, v: V, other: string)
    ensures Lookup(Put(m, k, v), k) == Some(v)
    ensures other != k ==> Lookup(Put(m, k, v), other) == Lookup(m, other)
  {
    if k in Keys(m) {
      var i := IndexOf(m, k);
      LookupReplace(m, i, v);
    } else {
      LookupAppend(m, k, v, k);
      LookupAppend(m, k, v, other);
    }
  }

  lemma {:induction false} LookupReplace<V>(m: Entries<V>, i: nat, v: V)
    requires i < |m|
    requires forall j :: 0 <= j < i ==> m[j].0 != m[i].0
    ensures Lookup(m[i := (m[i].0, v)], m[i].0) == Some(v)
    ensures forall other :: other != m[i].0 ==> Lookup(m[i := (m[i].0, v)], other) == Lookup(m, other)
  {
    var r := m[i := (m[i].0, v)];
    if i > 0 {
      LookupReplace(m[1..], i - 1, v);
      assert r[1..] == m[1..][i - 1 := (m[i].0, v)];
    }
  }

  lemma {:induction false} LookupAppend<V>(m: Entries<V>, k: string, v: V, other: string)
    requires k !in Keys(m)
    ensures Lookup(m + [(k, v)], other) == if other == k then Some(v) else Lookup(m, other)
  {
    if |m| > 0 {
      assert Keys(m) == [m[0].0] + Keys(m[1..]);
      assert (m + [(k, v)])[1..] == m[1..] + [(k, v)];
      LookupAppend(m[1..], k, v, other);
    }
  }

  /** The keys after a write are the keys before and the written one. */
  lemma PutKeys<V>(m: Entries<V>, k: string, v: V, other: string)
    ensures other in Keys(Put(m, k, v)) <==> other in Keys(m) || other == k
  {
  }

  /** An entry of `Put(m, k, v)` is an entry of `m` or the written one. */
  lemma PutEntry<V>(m: Entries<V>, k: string, v: V, e: (string, V))
    requires e in Put(m, k, v)
    ensures e in m || e == (k, v)
  {
  }

  /** Merging adds exactly the keys of `more`. */
  lemma {:induction false} MergeKeys<V>(m: Entries<V>, more: Entries<V>, k: string)
    ensures k in Keys(Merge(m, more)) <==> k in Keys(m) || k in Keys(more)
    decreases |more|
  {
    if |more| > 0 {
      var init := more[..|more| - 1];
      var last := more[|more| - 1];
      MergeKeys(m, init, k);
      var merged := Merge(m, init);
      assert Merge(m, more) == Put(merged, last.0, last.1);
      PutKeys(merged, last.0, last.1, k);
      KeysSnoc(more);
    }
  }

  /** Every entry of a merge comes from one of its two sides. */
  lemma {:induction false} MergeEntry<V>(m: Entries<V>, more: Entries<V>, e: (string, V))
    requires e in Merge(m, more)
    ensures e in m || e in more
    decreases |more|
  {
    if |more| > 0 {
      var init := more[..|more| - 1];
      var last := more[|more| - 1];
      PutEntry(Merge(m, init), last.0, last.1, e);
      if e in Merge(m, init) {
        MergeEntry(m, init, e);
      }
    }
  }

  /** Last write wins: a key of `more` takes its value from `more`, any other key keeps its value in `m`. */
  lemma {:induction false} MergeLookup<V>(m: Entries<V>, more: Entries<V>, k: string)
    requires UniqueKeys(more)
    ensures Lookup(Merge(m, more), k) == if k in Keys(more) then Lookup(more, k) else Lookup(m, k)
    decreases |more|
  {
    if |more| > 0 {
      var init := more[..|more| - 1];
      var last := more[|more| - 1];
      var merged := Merge(m, init);
      assert Merge(m, more) == Put(merged, last.0, last.1);
      PutLookup(merged, last.0, last.1, k);
      LookupLast(more, k);
      if k == last.0 {
        assert more[|more| - 1].0 == k;
        assert Keys(more)[|more| - 1] == k;
      } else {
        assert UniqueKeys(init);
        MergeLookup(m, init, k);
        KeysSnoc(more);
      }
    }
  }

  lemma {:induction false} LookupLast<V>(m: Entries<V>, k: string)
    requires |m| > 0 && UniqueKeys(m)
    ensures Lookup(m, k) == if k == m[|m| - 1].0 then Some(m[|m| - 1].1) else Lookup(m[..|m| - 1], k)
  {
    var init := m[..|m| - 1];
    var last := m[|m| - 1];
    assert m == init + [last];
    assert Keys(init) == Keys(m)[..|m| - 1];
    assert last.0 !in Keys(init);
    LookupAppend(init, last.0, last.1, k);
  }
}
