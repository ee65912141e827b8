/**
  Python dictionaries whose iteration order is observable. A dict is an
  association list in insertion order: assigning to a present key keeps its
  position, assigning to a new key appends it, and `d.update(o)` assigns the
  entries of `o` one by one in `o`'s order.
*/
module Dicts {
  import opened Wrappers

  type Dict<K, V> = seq<(K, V)>

  /** The keys in iteration order. */
  function Keys<K, V>(d: Dict<K, V>): (ks: seq<K>)
    ensures |ks| == |d|
    ensures forall i :: 0 <= i < |d| ==> ks[i] == d[i].0
  {
    if d == [] then [] else [d[0].0] + Keys(d[1..])
  }

  /** Every key occurs once, as in every Python dict. */
  predicate DistinctKeys<K(==), V>(d: Dict<K, V>) {
    forall i, j :: 0 <= i < j < |d| ==> d[i].0 != d[j].0
  }

  /** A dict of dicts whose every level has distinct keys. */
  predicate WellFormed<K(==), L(==), V>(d: Dict<K, Dict<L, V>>) {
    DistinctKeys(d) && forall i :: 0 <= i < |d| ==> DistinctKeys(d[i].1)
  }

  /** `d.get(k)`: the value stored under `k`, or None when `k` is absent. */
  function Get<K(==), V>(d: Dict<K, V>, k: K): (r: Option<V>)
    ensures r.Some? <==> k in Keys(d)
  {
    if d == [] then None
    else if d[0].0 == k then Some(d[0].1)
    else Get(d[1..], k)
  }

  /** `d.get(k, {})` for a dict of dicts. */
  function GetOrEmpty<K(==), L, V>(d: Dict<K, Dict<L, V>>, k: K): Dict<L, V> {
    Get(d, k).GetOr([])
  }

  /** `d[k][m]` when both keys are present, None otherwise. */
  function Get2<K(==), L(==), V>(d: Dict<K, Dict<L, V>>, k: K, m: L): Option<V> {
    match Get(d, k)
    case None => None
    case Some(inner) => Get(inner, m)
  }

  /** `d[k] = v`: overwrites in place when `k` is present, appends otherwise. */
  function Set<K(==), V>(d: Dict<K, V>, k: K, v: V): (r: Dict<K, V>)
    ensures Keys(r) == if k in Keys(d) then Keys(d) else Keys(d) + [k]
  {
    if d == [] then [(k, v)]
    else if d[0].0 == k then [(k, v)] + d[1..]
    else [d[0]] + Set(d[1..], k, v)
  }

  /** After `d[k] = v`, `d[k]` is `v` and every other key reads as before. */
  lemma {:induction false} GetSet<K, V>(d: Dict<K, V>, k: K, v: V, k': K)
    ensures Get(Set(d, k, v), k') == if k' == k then Some(v) else Get(d, k')
  {
    if d != [] && d[0].0 != k {
      GetSet(d[1..], k, v, k');
    }
  }

  /** Every entry of `Set(d, k, v)` is an entry of `d` or the new one. */
  lemma {:induction false} SetEntries<K, V>(d: Dict<K, V>, k: K, v: V, i: nat)
    requires i < |Set(d, k, v)|
    ensures Set(d, k, v)[i] in d || Set(d, k, v)[i] == (k, v)
  {
    if d != [] && d[0].0 != k && i > 0 {
      SetEntries(d[1..], k, v, i - 1);
    }
  }

  /** Assigning keeps every key once. */
  lemma SetDistinct<K, V>(d: Dict<K, V>, k: K, v: V)
    requires DistinctKeys(d)
    ensures DistinctKeys(Set(d, k, v))
  {
    var r := Set(d, k, v);
    var ks, rs := Keys(d), Keys(r);
    forall i, j | 0 <= i < j < |r| ensures r[i].0 != r[j].0 {
      assert r[i].0 == rs[i] && r[j].0 == rs[j];
      if j < |d| {
        assert rs[i] == ks[i] && rs[j] == ks[j];
        assert ks[i] == d[i].0 && ks[j] == d[j].0;
      } else {
        assert rs[j] == k && rs[i] == ks[i] && k !in ks;
      }
    }
  }

  /** Assigning to a well-formed dict of dicts a dict with distinct keys keeps it well formed. */
  lemma SetWellFormed<K, L, V>(d: Dict<K, Dict<L, V>>, k: K, inner: Dict<L, V>)
    requires WellFormed(d) && DistinctKeys(inner)
    ensures WellFormed(Set(d, k, inner))
  {
    SetDistinct(d, k, inner);
    var r := Set(d, k, inner);
    forall i | 0 <= i < |r|
      ensures DistinctKeys(r[i].1)
    {
      SetEntries(d, k, inner, i);
      if r[i] in d {
        var j :| 0 <= j < |d| && d[j] == r[i];
      }
    }
  }

  /** A present inner dict of a well-formed dict has distinct keys. */
  lemma GetWellFormed<K, L, V>(d: Dict<K, Dict<L, V>>, k: K)
    requires WellFormed(d)
    ensures DistinctKeys(GetOrEmpty(d, k))
  {
    if d != [] && d[0].0 != k {
      assert WellFormed(d[1..]) by {
        assert forall i :: 0 <= i < |d[1..]| ==> d[1..][i] == d[i + 1];
      }
      GetWellFormed(d[1..], k);
    }
  }

  /** `d.update(o)`: assigns the entries of `o` in `o`'s order. */
  function Update<K(==), V>(d: Dict<K, V>, o: Dict<K, V>): (r: Dict<K, V>)
    decreases |o|
  {
    if o == [] then d else Update(Set(d, o[0].0, o[0].1), o[1..])
  }

  /** The rest of a dict after its first entry has distinct keys, none of them the first key. */
  lemma DistinctTail<K, V>(d: Dict<K, V>)
    requires |d| > 0 && DistinctKeys(d)
    ensures DistinctKeys(d[1..]) && d[0].0 !in Keys(d[1..])
  {
    var tail := d[1..];
    assert forall i :: 0 <= i < |tail| ==> tail[i] == d[i + 1];
    assert forall i :: 0 <= i < |tail| ==> Keys(tail)[i] == d[i + 1].0;
  }

  /** After `d.update(o)`, a key of `o` reads as in `o`, any other key as in `d`. */
  lemma {:induction false} GetUpdate<K, V>(d: Dict<K, V>, o: Dict<K, V>, k: K)
    requires DistinctKeys(o)
    ensures Get(Update(d, o), k) == if k in Keys(o) then Get(o, k) else Get(d, k)
    decreases |o|
  {
    if o != [] {
      DistinctTail(o);
      GetUpdate(Set(d, o[0].0, o[0].1), o[1..], k);
      GetSet(d, o[0].0, o[0].1, k);
    }
  }

  /** `d.update(o)` keeps every key once. */
  lemma {:induction false} UpdateDistinct<K, V>(d: Dict<K, V>, o: Dict<K, V>)
    requires DistinctKeys(d)
    ensures DistinctKeys(Update(d, o))
    decreases |o|
  {
    if o != [] {
      SetDistinct(d, o[0].0, o[0].1);
      UpdateDistinct(Set(d, o[0].0, o[0].1), o[1..]);
    }
  }

  /** Looking past the last entry of a dict. */
  lemma {:induction false} GetAppend<K, V>(d: Dict<K, V>, k0: K, v: V, k: K)
    ensures Get(d + [(k0, v)], k) == if k in Keys(d) then Get(d, k) else if k == k0 then Some(v) else None
  {
    if d != [] {
      assert (d + [(k0, v)])[1..] == d[1..] + [(k0, v)];
      GetAppend(d[1..], k0, v, k);
    }
  }
}
