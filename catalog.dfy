/**
 * A keyed catalogue that keeps insertion order, as a Python dict does: storing under a new key
 * appends, storing under a present key replaces the value in place, removing a key closes the gap.
 */
module Catalog {
  import opened Wrappers

  type Entries<T> = seq<(string, T)>

  function Keys<T>(es: Entries<T>): (ks: seq<string>)
    ensures |ks| == |es|
    ensures forall i :: 0 <= i < |es| ==> ks[i] == es[i].0
  {
    if es == [] then [] else [es[0].0] + Keys(es[1..])
  }

  function Values<T>(es: Entries<T>): (vs: seq<T>)
    ensures |vs| == |es|
    ensures forall i :: 0 <= i < |es| ==> vs[i] == es[i].1
  {
    if es == [] then [] else [es[0].1] + Values(es[1..])
  }

  predicate Distinct(ks: seq<string>) {
    forall i, j :: 0 <= i < j < |ks| ==> ks[i] != ks[j]
  }

  /** The value stored under `k`, if any. */
  function Find<T>(es: Entries<T>, k: string): (r: Option<T>)
    ensures r.Some? <==> k in Keys(es)
    ensures r.Some? ==> (k, r.value) in es
  {
    if es == [] then None
    else if es[0].0 == k then Some(es[0].1)
    else Find(es[1..], k)
  }

  /** Stores `v` under `k`: in place when `k` is present, appended otherwise. */
  function Put<T>(es: Entries<T>, k: string, v: T): (r: Entries<T>)
    ensures Find(r, k) == Some(v)
    ensures forall k' :: k' != k ==> Find(r, k') == Find(es, k')
  {
    if es == [] then [(k, v)]
    else if es[0].0 == k then [(k, v)] + es[1..]
    else [es[0]] + Put(es[1..], k, v)
  }

  /** Drops every entry stored under `k`; the other entries keep their order. */
  function Remove<T>(es: Entries<T>, k: string): (r: Entries<T>)
    ensures Find(r, k) == None
    ensures forall k' :: k' != k ==> Find(r, k') == Find(es, k')
    ensures k !in Keys(es) ==> r == es
    ensures forall i :: 0 <= i < |r| ==> r[i] in es && r[i].0 != k
    ensures forall i :: 0 <= i < |es| && es[i].0 != k ==> es[i] in r
  {
    if es == [] then []
    else if es[0].0 == k then Remove(es[1..], k)
    else [es[0]] + Remove(es[1..], k)
  }

  /** Storing under a present key keeps the key order; storing under a new key appends it. */
  lemma {:induction false} PutKeys<T>(es: Entries<T>, k: string, v: T)
    ensures Keys(Put(es, k, v)) == if k in Keys(es) then Keys(es) else Keys(es) + [k]
  {
    if es != [] {
      assert Keys(es) == [es[0].0] + Keys(es[1..]);
      if es[0].0 == k {
        assert Keys(Put(es, k, v)) == [k] + Keys(es[1..]);
      } else {
        PutKeys(es[1..], k, v);
        assert Keys(Put(es, k, v)) == [es[0].0] + Keys(Put(es[1..], k, v));
      }
    }
  }

  /** Every entry after a store is the stored one or was there before. */
  lemma {:induction false} PutEntries<T>(es: Entries<T>, k: string, v: T)
    ensures forall i :: 0 <= i < |Put(es, k, v)| ==> Put(es, k, v)[i] == (k, v) || Put(es, k, v)[i] in es
  {
    if es != [] && es[0].0 != k {
      PutEntries(es[1..], k, v);
      var r := Put(es, k, v);
      assert r == [es[0]] + Put(es[1..], k, v);
      forall i | 0 <= i < |r| ensures r[i] == (k, v) || r[i] in es {
        if i > 0 {
          assert r[i] == Put(es[1..], k, v)[i - 1];
        }
      }
    }
  }

  /** Replacing or appending keeps the keys distinct. */
  lemma PutDistinct<T>(es: Entries<T>, k: string, v: T)
    requires Distinct(Keys(es))
    ensures Distinct(Keys(Put(es, k, v)))
  {
    PutKeys(es, k, v);
  }

  lemma DistinctCons<T>(e: (string, T), rest: Entries<T>)
    ensures Distinct(Keys([e] + rest)) <==> Distinct(Keys(rest)) && e.0 !in Keys(rest)
  {
    var ks := Keys([e] + rest);
    assert ks == [e.0] + Keys(rest) by {
      assert ([e] + rest)[1..] == rest;
    }
  }

  /** With distinct keys, every entry is what a lookup of its own key finds. */
  lemma {:induction false} FindEach<T>(es: Entries<T>)
    ensures Distinct(Keys(es)) ==> forall i | 0 <= i < |es| :: Find(es, es[i].0) == Some(es[i].1)
  {
    if es != [] && Distinct(Keys(es)) {
      DistinctCons(es[0], es[1..]);
      assert [es[0]] + es[1..] == es;
      FindEach(es[1..]);
      forall i | 1 <= i < |es|
        ensures Find(es, es[i].0) == Some(es[i].1)
      {
        assert Keys(es)[i] != Keys(es)[0];
        assert es[1..][i - 1] == es[i];
      }
    }
  }

  /** With distinct keys, removing a present key removes exactly one entry. */
  lemma {:induction false} RemoveCount<T>(es: Entries<T>, k: string)
    requires Distinct(Keys(es))
    ensures Distinct(Keys(Remove(es, k)))
    ensures |Remove(es, k)| == if k in Keys(es) then |es| - 1 else |es|
  {
    if es != [] {
      DistinctCons(es[0], es[1..]);
      assert [es[0]] + es[1..] == es;
      assert Keys(es) == [es[0].0] + Keys(es[1..]);
      RemoveCount(es[1..], k);
      var rest := Remove(es[1..], k);
      if es[0].0 != k {
        assert Find(rest, es[0].0) == None;
        DistinctCons(es[0], rest);
      }
    }
  }
}
