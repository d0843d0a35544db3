/**
 * A Python dict as an association list in insertion order: reading a key finds
 * its entry, assigning a key replaces its entry in place or appends a new one.
 */
module Dicts {
  import opened Wrappers

  function Keys<K, V>(d: seq<(K, V)>): (ks: seq<K>)
    ensures |ks| == |d|
    ensures forall i :: 0 <= i < |d| ==> ks[i] == d[i].0
  {
    if d == [] then [] else [d[0].0] + Keys(d[1..])
  }

  /** No key occurs twice: what every dict built by Put satisfies. */
  predicate UniqueKeys<K(==), V>(d: seq<(K, V)>) {
    forall i, j :: 0 <= i < j < |d| ==> d[i].0 != d[j].0
  }

  /** d.get(k): the value of the first entry for `k`. */
  function Lookup<K(==), V>(d: seq<(K, V)>, k: K): (r: Option<V>)
    ensures r.Some? <==> k in Keys(d)
  {
    if d == [] then None
    else if d[0].0 == k then Some(d[0].1)
    else Lookup(d[1..], k)
  }

  /** d[k] = v. */
  function Put<K(==), V>(d: seq<(K, V)>, k: K, v: V): seq<(K, V)>
  {
    if d == [] then [(k, v)]
    else if d[0].0 == k then [(k, v)] + d[1..]
    else [d[0]] + Put(d[1..], k, v)
  }

  /** The entry at index i is the one a lookup of its key finds. */
  lemma {:induction false} LookupAt<K, V>(d: seq<(K, V)>, i: nat)
    requires UniqueKeys(d) && i < |d|
    ensures Lookup(d, d[i].0) == Some(d[i].1)
  {
    if i > 0 {
      LookupAt(d[1..], i - 1);
    }
  }

  /** After d[k] = v, reading k gives v. */
  lemma {:induction false} LookupPutSame<K, V>(d: seq<(K, V)>, k: K, v: V)
    ensures Lookup(Put(d, k, v), k) == Some(v)
  {
    if d != [] && d[0].0 != k {
      LookupPutSame(d[1..], k, v);
    }
  }

  /** d[k] = v leaves every other key's value as it was. */
  lemma {:induction false} LookupPutOther<K, V>(d: seq<(K, V)>, k: K, v: V, k': K)
    requires k' != k
    ensures Lookup(Put(d, k, v), k') == Lookup(d, k')
  {
    if d != [] && d[0].0 != k {
      LookupPutOther(d[1..], k, v, k');
    }
  }

  /** d[k] = v keeps the key order; a new key goes to the end. */
  lemma {:induction false} KeysPut<K, V>(d: seq<(K, V)>, k: K, v: V)
    ensures Keys(Put(d, k, v)) == if k in Keys(d) then Keys(d) else Keys(d) + [k]
  {
    if d != [] && d[0].0 != k {
      KeysPut(d[1..], k, v);
      assert Keys(d) == [d[0].0] + Keys(d[1..]);
    }
  }

  /** Assigning a key that is not yet present appends its entry. */
  lemma {:induction false} PutNew<K, V>(d: seq<(K, V)>, k: K, v: V)
    requires k !in Keys(d)
    ensures Put(d, k, v) == d + [(k, v)]
  {
    if d != [] {
      assert Keys(d) == [d[0].0] + Keys(d[1..]);
      PutNew(d[1..], k, v);
      assert d == [d[0]] + d[1..];
    }
  }

  /** d[k] = v writes the entry at k's old position and copies every other entry. */
  lemma {:induction false} PutAt<K, V>(d: seq<(K, V)>, k: K, v: V, i: nat)
    requires UniqueKeys(d) && i < |d|
    ensures |Put(d, k, v)| == |d| + (if k in Keys(d) then 0 else 1)
    ensures Put(d, k, v)[i] == if d[i].0 == k then (k, v) else d[i]
  {
    KeysPut(d, k, v);
    if d[0].0 != k && i > 0 {
      PutAt(d[1..], k, v, i - 1);
    } else if d[0].0 != k {
      KeysPut(d[1..], k, v);
    }
  }

  /** Put keeps keys unique. */
  lemma {:induction false} PutUnique<K, V>(d: seq<(K, V)>, k: K, v: V)
    requires UniqueKeys(d)
    ensures UniqueKeys(Put(d, k, v))
  {
    if d != [] && d[0].0 != k {
      PutUnique(d[1..], k, v);
      KeysPut(d[1..], k, v);
      var p := Put(d[1..], k, v);
      assert forall j :: 0 <= j < |p| ==> p[j].0 == Keys(p)[j];
      assert d[0].0 !in Keys(d[1..]);
    }
  }
}
