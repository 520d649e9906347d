/**
 * Java's LinkedHashMap as a sequence of entries: `put` overwrites the value
 * of a present key in place and appends a new key at the end, so the keys
 * stay distinct and keep their first-insertion order.
 */
module OrderedMaps {
  import opened Wrappers

  /** The position of `k` among the entries from `i` on, or -1. */
  function IndexFrom<K(==), V>(m: seq<(K, V)>, k: K, i: nat): (r: int)
    requires i <= |m|
    ensures r == -1 || (i <= r < |m| && m[r].0 == k)
    ensures r == -1 <==> forall j :: i <= j < |m| ==> m[j].0 != k
    ensures r != -1 ==> forall j :: i <= j < r ==> m[j].0 != k
    decreases |m| - i
  {
    if i == |m| then -1 else if m[i].0 == k then i else IndexFrom(m, k, i + 1)
  }

  function IndexOfKey<K(==), V>(m: seq<(K, V)>, k: K): (r: int)
    ensures r == -1 || (0 <= r < |m| && m[r].0 == k)
    ensures r == -1 <==> forall j :: 0 <= j < |m| ==> m[j].0 != k
  {
    IndexFrom(m, k, 0)
  }

  /** The keys in order. */
  function Keys<K, V>(m: seq<(K, V)>): (ks: seq<K>)
    ensures |ks| == |m| && forall i :: 0 <= i < |m| ==> ks[i] == m[i].0
  {
    seq(|m|, i requires 0 <= i < |m| => m[i].0)
  }

  ghost predicate DistinctKeys<K, V>(m: seq<(K, V)>)
  {
    forall i, j :: 0 <= i < j < |m| ==> m[i].0 != m[j].0
  }

  /** Entries whose keys, listed in order, are distinct. */
  lemma DistinctFromKeys<K, V>(m: seq<(K, V)>)
    requires forall i, j :: 0 <= i < j < |m| ==> Keys(m)[i] != Keys(m)[j]
    ensures DistinctKeys(m)
  {
    forall i, j | 0 <= i < j < |m|
      ensures m[i].0 != m[j].0
    {
      assert Keys(m)[i] != Keys(m)[j];
    }
  }

  /** `map.get(k)`. */
  function Get<K(==), V>(m: seq<(K, V)>, k: K): Option<V>
  {
    var i := IndexOfKey(m, k);
    if i == -1 then None else Some(m[i].1)
  }

  /** `map.put(k, v)`. */
  function Put<K(==), V>(m: seq<(K, V)>, k: K, v: V): seq<(K, V)>
  {
    var i := IndexOfKey(m, k);
    if i == -1 then m + [(k, v)] else m[i := (k, v)]
  }

  /** `map.putAll(es)` for entries given in order: later entries win. */
  function PutAll<K(==), V>(m: seq<(K, V)>, es: seq<(K, V)>): seq<(K, V)>
  {
    if es == [] then m else Put(PutAll(m, es[..|es| - 1]), es[|es| - 1].0, es[|es| - 1].1)
  }

  /** The value of the last entry for `k`, if any. */
  function LastFor<K(==), V>(es: seq<(K, V)>, k: K): Option<V>
  {
    if es == [] then None
    else if es[|es| - 1].0 == k then Some(es[|es| - 1].1)
    else LastFor(es[..|es| - 1], k)
  }

  /**
   * After a put the key is present with the new value, every other key
   * keeps its value, and the keys stay distinct: a new key is appended at
   * the end, a present one keeps its place.
   */
  lemma PutRules<K, V>(m: seq<(K, V)>, k: K, v: V, k': K)
    requires DistinctKeys(m)
    ensures var r := Put(m, k, v);
      && DistinctKeys(r)
      && Keys(r) == (if k in Keys(m) then Keys(m) else Keys(m) + [k])
      && Get(r, k) == Some(v)
      && (k' != k ==> Get(r, k') == Get(m, k'))
  {
    PutKeys(m, k, v);
    var r := Put(m, k, v);
    var i := IndexOfKey(m, k);
    if i == -1 {
      GetPresent(r, |m|);
      if k' != k {
        GetAppend(m, k, v, k');
      }
    } else {
      GetPresent(r, i);
      if k' != k {
        var a, b := IndexOfKey(r, k'), IndexOfKey(m, k');
        if a != -1 { assert m[a].0 == k'; GetPresent(m, a); }
        if b != -1 { assert r[b].0 == k'; GetPresent(r, b); }
      }
    }
  }

  lemma PutKeys<K, V>(m: seq<(K, V)>, k: K, v: V)
    ensures Keys(Put(m, k, v)) == (if k in Keys(m) then Keys(m) else Keys(m) + [k])
  {
    var i := IndexOfKey(m, k);
    if i == -1 {
      assert k !in Keys(m);
    } else {
      assert Keys(m)[i] == k;
    }
  }

  /** In distinct keys, the entry at `i` is the one `Get` finds. */
  lemma GetPresent<K, V>(m: seq<(K, V)>, i: nat)
    requires DistinctKeys(m) && i < |m|
    ensures Get(m, m[i].0) == Some(m[i].1)
  {
  }

  /** Appending a new key leaves the other keys' values alone. */
  lemma GetAppend<K, V>(m: seq<(K, V)>, k: K, v: V, k': K)
    requires k' != k
    ensures Get(m + [(k, v)], k') == Get(m, k')
  {
    var r := m + [(k, v)];
    var a, b := IndexOfKey(r, k'), IndexOfKey(m, k');
    if b != -1 {
      assert r[b].0 == k';
    }
    if a != -1 {
      assert a < |m|;
    }
  }

  /**
   * putAll keeps the keys distinct and the old keys in their places, adds
   * exactly the entries' keys, and a key's value is that of its last entry,
   * or the old one when no entry has it.
   */
  lemma PutAllRules<K, V>(m: seq<(K, V)>, es: seq<(K, V)>, k: K)
    requires DistinctKeys(m)
    ensures var r := PutAll(m, es);
      && DistinctKeys(r)
      && (k in Keys(r) <==> k in Keys(m) || k in Keys(es))
      && Get(r, k) == (if LastFor(es, k).Some? then LastFor(es, k) else Get(m, k))
      && |m| <= |r| <= |m| + |es|
      && Keys(r)[..|m|] == Keys(m)
  {
    PutAllKeys(m, es, k);
    PutAllGet(m, es, k);
  }

  lemma PutAllKeys<K, V>(m: seq<(K, V)>, es: seq<(K, V)>, k: K)
    requires DistinctKeys(m)
    ensures var r := PutAll(m, es);
      && DistinctKeys(r)
      && (k in Keys(r) <==> k in Keys(m) || k in Keys(es))
      && |m| <= |r| <= |m| + |es|
      && Keys(r)[..|m|] == Keys(m)
  {
    PutAllShape(m, es);
    PutAllMember(m, es, k);
  }

  lemma {:induction false} PutAllShape<K, V>(m: seq<(K, V)>, es: seq<(K, V)>)
    requires DistinctKeys(m)
    ensures var r := PutAll(m, es);
      DistinctKeys(r) && |m| <= |r| <= |m| + |es| && Keys(r)[..|m|] == Keys(m)
  {
    if es != [] {
      var init, e := es[..|es| - 1], es[|es| - 1];
      PutAllShape(m, init);
      var p := PutAll(m, init);
      PutRules(p, e.0, e.1, e.0);
      var r := Put(p, e.0, e.1);
      assert Keys(r)[..|m|] == Keys(p)[..|m|];
    }
  }

  lemma {:induction false} PutAllMember<K, V>(m: seq<(K, V)>, es: seq<(K, V)>, k: K)
    ensures k in Keys(PutAll(m, es)) <==> k in Keys(m) || k in Keys(es)
  {
    if es != [] {
      var init, e := es[..|es| - 1], es[|es| - 1];
      PutAllMember(m, init, k);
      PutKeys(PutAll(m, init), e.0, e.1);
      assert Keys(es) == Keys(init) + [e.0];
    }
  }

  lemma {:induction false} PutAllGet<K, V>(m: seq<(K, V)>, es: seq<(K, V)>, k: K)
    requires DistinctKeys(m)
    ensures Get(PutAll(m, es), k) == (if LastFor(es, k).Some? then LastFor(es, k) else Get(m, k))
  {
    if es != [] {
      var init, e := es[..|es| - 1], es[|es| - 1];
      PutAllGet(m, init, k);
      PutAllKeys(m, init, k);
      PutRules(PutAll(m, init), e.0, e.1, k);
    }
  }
}
