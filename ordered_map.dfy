/**
 * A JavaScript `Map`: a finite map that remembers the order in which keys were
 * first inserted. `set` on a present key replaces the value in place; `set` on a
 * new key appends; `delete` removes the entry and keeps the others in order.
 * Iteration (`values()`, `for ... of`) follows that order.
 */
module OrderedMap {
  import opened Wrappers

  type Assoc<K, V> = seq<(K, V)>

  function Keys<K, V>(m: Assoc<K, V>): (ks: seq<K>)
    ensures |ks| == |m|
    ensures forall i :: 0 <= i < |m| ==> ks[i] == m[i].0
  {
    seq(|m|, i requires 0 <= i < |m| => m[i].0)
  }

  function Values<K, V>(m: Assoc<K, V>): (vs: seq<V>)
    ensures |vs| == |m|
    ensures forall i :: 0 <= i < |m| ==> vs[i] == m[i].1
  {
    seq(|m|, i requires 0 <= i < |m| => m[i].1)
  }

  /** The invariant of a `Map`: no key occurs twice. */
  ghost predicate DistinctKeys<K, V>(m: Assoc<K, V>) {
    forall i, j :: 0 <= i < j < |m| ==> m[i].0 != m[j].0
  }

  /** Position of the entry for `k`, or `|m|` when there is none. */
  function IndexOfKey<K(==,!new), V>(m: Assoc<K, V>, k: K): (i: nat)
    ensures i <= |m|
    ensures i < |m| ==> m[i].0 == k
    ensures forall j :: 0 <= j < i ==> m[j].0 != k
  {
    if m == [] then 0 else if m[0].0 == k then 0 else 1 + IndexOfKey(m[1..], k)
  }

  /** `m.get(k)`: the value stored under `k`, or `None` (`undefined`). */
  function Get<K(==,!new), V>(m: Assoc<K, V>, k: K): (r: Option<V>)
    ensures r.Some? <==> k in Keys(m)
    ensures r.Some? ==> (k, r.value) in m
    ensures DistinctKeys(m) ==> forall j :: 0 <= j < |m| && m[j].0 == k ==> r == Some(m[j].1)
  {
    var i := IndexOfKey(m, k);
    if i < |m| then Some(m[i].1) else None
  }

  /** `m.set(k, v)`. */
  function Set<K(==,!new), V>(m: Assoc<K, V>, k: K, v: V): (r: Assoc<K, V>)
    requires DistinctKeys(m)
    ensures DistinctKeys(r)
    ensures Get(r, k) == Some(v)
    ensures forall k' :: k' != k && k' in Keys(m) ==> Get(r, k') == Get(m, k')
    ensures forall k' :: k' != k && k' !in Keys(m) ==> Get(r, k') == None
    ensures k in Keys(m) ==> |r| == |m| && Keys(r) == Keys(m)
    ensures k !in Keys(m) ==> r == m + [(k, v)]
  {
    var i := IndexOfKey(m, k);
    if i < |m| then
      var r := m[i := (k, v)];
      assert Keys(r) == Keys(m);
      r
    else
      var r := m + [(k, v)];
      assert Keys(r) == Keys(m) + [k];
      r
  }

  /** `m.delete(k)`. */
  function Delete<K(==,!new), V>(m: Assoc<K, V>, k: K): (r: Assoc<K, V>)
    requires DistinctKeys(m)
    ensures DistinctKeys(r)
    ensures Get(r, k) == None
    ensures forall k' :: k' != k ==> Get(r, k') == Get(m, k')
    ensures k in Keys(m) ==> |r| == |m| - 1
    ensures k !in Keys(m) ==> r == m
    ensures forall i :: 0 <= i < |r| ==> r[i] in m
  {
    var i := IndexOfKey(m, k);
    if i < |m| then
      RemoveAt(m, i);
      m[..i] + m[i + 1..]
    else
      m
  }

  lemma RemoveAt<K(!new), V>(m: Assoc<K, V>, i: nat)
    requires DistinctKeys(m) && i < |m|
    ensures var r := m[..i] + m[i + 1..];
      && DistinctKeys(r)
      && (forall j :: 0 <= j < |r| ==> r[j] in m)
      && m[i].0 !in Keys(r)
      && (forall k' :: k' != m[i].0 ==> Get(r, k') == Get(m, k'))
  {
    var r := m[..i] + m[i + 1..];
    RemoveAtShifts(m, i);
    forall k' | k' != m[i].0 ensures Get(r, k') == Get(m, k') {
      RemoveAtKeeps(m, i, k');
    }
  }

  /** The entries after `i` move down by one. */
  lemma RemoveAtShifts<K, V>(m: Assoc<K, V>, i: nat)
    requires i < |m|
    ensures var r := m[..i] + m[i + 1..];
      && |r| == |m| - 1
      && forall j :: 0 <= j < |r| ==> r[j] == (if j < i then m[j] else m[j + 1])
  {
  }

  lemma RemoveAtDistinct<K, V>(m: Assoc<K, V>, i: nat)
    requires DistinctKeys(m) && i < |m|
    ensures DistinctKeys(m[..i] + m[i + 1..])
  {
    RemoveAtShifts(m, i);
  }

  /** Removing the entry at `i` keeps the value under every other key. */
  lemma RemoveAtKeeps<K(!new), V>(m: Assoc<K, V>, i: nat, k': K)
    requires DistinctKeys(m) && i < |m| && k' != m[i].0
    ensures Get(m[..i] + m[i + 1..], k') == Get(m, k')
  {
    var r := m[..i] + m[i + 1..];
    RemoveAtShifts(m, i);
    RemoveAtDistinct(m, i);
    if k' in Keys(m) {
      var j :| 0 <= j < |m| && m[j].0 == k';
      var jr := if j < i then j else j - 1;
      assert r[jr] == m[j];
      assert Get(r, k') == Some(r[jr].1);
    } else {
      assert k' !in Keys(r);
    }
  }

  /** Every entry's key is `f` of its value. */
  ghost predicate KeyedBy<K, V>(m: Assoc<K, V>, f: V -> K) {
    forall i :: 0 <= i < |m| ==> m[i].0 == f(m[i].1)
  }

  lemma SetKeyedBy<K(!new), V>(m: Assoc<K, V>, k: K, v: V, f: V -> K)
    requires DistinctKeys(m) && KeyedBy(m, f) && f(v) == k
    ensures KeyedBy(Set(m, k, v), f)
  {
    var r := Set(m, k, v);
    if k in Keys(m) {
      forall i | 0 <= i < |r| ensures r[i].0 == f(r[i].1) {
        assert r[i].0 == Keys(r)[i] == Keys(m)[i] == m[i].0;
        if r[i].0 == k {
          assert Get(r, k) == Some(r[i].1);
        } else {
          assert Get(r, r[i].0) == Some(r[i].1);
          assert Get(m, m[i].0) == Some(m[i].1);
        }
      }
    }
  }

  lemma DeleteKeyedBy<K(!new), V>(m: Assoc<K, V>, k: K, f: V -> K)
    requires DistinctKeys(m) && KeyedBy(m, f)
    ensures KeyedBy(Delete(m, k), f)
  {
  }
}
