/** Python dicts with string keys: insertion-ordered items, lookup and assignment. */
module Dicts {
  import opened Wrappers

  /** A Python dict with string keys, as its items in insertion order. */
  type Items<V> = seq<(string, V)>

  /** `k in d`. */
  predicate HasKey<V>(items: Items<V>, k: string) {
    exists i :: 0 <= i < |items| && items[i].0 == k
  }

  predicate DistinctKeys<V>(items: Items<V>) {
    forall i, j :: 0 <= i < j < |items| ==> items[i].0 != items[j].0
  }

  /** `d[k]`, or None when `k` is not a key. */
  function Lookup<V>(items: Items<V>, k: string): Option<V> {
    if |items| == 0 then None else if items[0].0 == k then Some(items[0].1) else Lookup(items[1..], k)
  }

  /** `d[k] = v`: an existing key keeps its place and gets the new value; a new key goes last. */
  function Put<V>(items: Items<V>, k: string, v: V): Items<V> {
    if |items| == 0 then [(k, v)]
    else if items[0].0 == k then [(k, v)] + items[1..]
    else [items[0]] + Put(items[1..], k, v)
  }

  /** The items after the first, whose keys are still distinct and do not repeat the first key. */
  lemma DistinctTail<V>(items: Items<V>)
    requires DistinctKeys(items) && |items| > 0
    ensures DistinctKeys(items[1..])
    ensures !HasKey(items[1..], items[0].0)
  {
    forall i, j | 0 <= i < j < |items| - 1 ensures items[1..][i].0 != items[1..][j].0 {
      assert items[1..][i] == items[i + 1] && items[1..][j] == items[j + 1];
    }
    forall j | 0 <= j < |items| - 1 ensures items[1..][j].0 != items[0].0 {
      assert items[1..][j] == items[j + 1];
    }
  }

  /** Assignment overwrites the key's value and leaves the other keys alone. */
  lemma {:induction false} PutLookup<V>(items: Items<V>, k: string, v: V, k': string)
    requires DistinctKeys(items)
    ensures Lookup(Put(items, k, v), k') == if k' == k then Some(v) else Lookup(items, k')
  {
    if |items| > 0 {
      DistinctTail(items);
      if items[0].0 != k {
        PutLookup(items[1..], k, v, k');
      } else if k' != k {
        LookupAbsent(items[1..], k);
      }
    }
  }

  /**
   * Assignment keeps the insertion order: an existing key stays where it is
   * with the new value, a new key is appended.
   */
  lemma {:induction false} PutShape<V>(items: Items<V>, k: string, v: V)
    requires DistinctKeys(items)
    ensures HasKey(items, k) ==> (|Put(items, k, v)| == |items|
      && forall i :: 0 <= i < |items| ==> Put(items, k, v)[i] == if items[i].0 == k then (k, v) else items[i])
    ensures !HasKey(items, k) ==> Put(items, k, v) == items + [(k, v)]
  {
    if |items| > 0 {
      var x, tail := items[0], items[1..];
      DistinctTail(items);
      if x.0 != k {
        PutShape(tail, k, v);
        assert HasKey(items, k) ==> HasKey(tail, k) by {
          if HasKey(items, k) {
            var i :| 0 <= i < |items| && items[i].0 == k;
            assert tail[i - 1] == items[i];
          }
        }
        assert HasKey(tail, k) ==> HasKey(items, k) by {
          if HasKey(tail, k) {
            var i :| 0 <= i < |tail| && tail[i].0 == k;
            assert items[i + 1] == tail[i];
          }
        }
        assert items == [x] + tail;
      } else {
        assert HasKey(items, k) by { assert items[0].0 == k; }
        forall i | 0 < i < |items| ensures items[i].0 != k {
          assert tail[i - 1] == items[i];
        }
      }
    }
  }

  /** Assignment keeps the keys distinct. */
  lemma PutDistinct<V>(items: Items<V>, k: string, v: V)
    requires DistinctKeys(items)
    ensures DistinctKeys(Put(items, k, v))
  {
    PutShape(items, k, v);
    var r := Put(items, k, v);
    forall i, j | 0 <= i < j < |r| ensures r[i].0 != r[j].0 {
      if j == |items| {
        assert r[j].0 == k && r[i] == items[i];
      }
    }
  }

  /** A key that is not present looks up to nothing. */
  lemma {:induction false} LookupAbsent<V>(items: Items<V>, k: string)
    requires !HasKey(items, k)
    ensures Lookup(items, k).None?
  {
    if |items| > 0 {
      forall i | 0 <= i < |items| - 1 ensures items[1..][i].0 != k {
        assert items[1..][i] == items[i + 1];
      }
      LookupAbsent(items[1..], k);
    }
  }

}
