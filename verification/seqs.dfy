/**
 * Sequence helpers: Python's list comprehension filter `[x for x in s if p(x)]`,
 * sums, and the "only when given and non-empty" idiom of optional filters.
 */
module Seqs {
  import opened Wrappers

  /**
   * `xs if xs else None` on an optional list: the scanners hand a filter to
   * their paginator only when it is present and non-empty.
   */
  function NonEmpty<T>(o: Option<seq<T>>): (f: Option<seq<T>>)
    ensures f.Some? <==> o.Some? && |o.value| > 0
    ensures f.Some? ==> f == o
  {
    if o.Some? && |o.value| > 0 then o else None
  }

  /** `[f(x) for x in s]`. */
  function Map<A, B>(s: seq<A>, f: A -> B): (r: seq<B>)
    ensures |r| == |s|
    ensures forall i :: 0 <= i < |s| ==> r[i] == f(s[i])
  {
    if |s| == 0 then [] else [f(s[0])] + Map(s[1..], f)
  }

  /** `[x for x in s if p(x)]`. */
  function Filter<T>(s: seq<T>, p: T -> bool): (r: seq<T>)
    ensures |r| <= |s|
    ensures forall i :: 0 <= i < |r| ==> p(r[i])
    ensures forall i :: 0 <= i < |r| ==> r[i] in s
    ensures forall i :: 0 <= i < |s| && p(s[i]) ==> s[i] in r
  {
    if |s| == 0 then [] else (if p(s[0]) then [s[0]] else []) + Filter(s[1..], p)
  }

  /** Filtering distributes over concatenation, so the input order is kept. */
  lemma {:induction false} FilterAppend<T>(a: seq<T>, b: seq<T>, p: T -> bool)
    ensures Filter(a + b, p) == Filter(a, p) + Filter(b, p)
  {
    if |a| == 0 {
      assert a + b == b;
    } else {
      assert (a + b)[1..] == a[1..] + b;
      FilterAppend(a[1..], b, p);
    }
  }

  /** Filtering twice by the same predicate is filtering once. */
  lemma {:induction false} FilterIdempotent<T>(s: seq<T>, p: T -> bool)
    ensures Filter(Filter(s, p), p) == Filter(s, p)
  {
    if |s| > 0 {
      FilterIdempotent(s[1..], p);
      FilterAppend(if p(s[0]) then [s[0]] else [], Filter(s[1..], p), p);
    }
  }

  /** A sequence whose every element passes is its own filter. */
  lemma {:induction false} FilterAllPass<T>(s: seq<T>, p: T -> bool)
    requires forall i :: 0 <= i < |s| ==> p(s[i])
    ensures Filter(s, p) == s
  {
    if |s| > 0 {
      FilterAllPass(s[1..], p);
    }
  }

  /** Splitting by a predicate and its negation loses and duplicates nothing. */
  lemma {:induction false} FilterPartition<T>(s: seq<T>, p: T -> bool, q: T -> bool)
    requires forall x :: q(x) == !p(x)
    ensures multiset(Filter(s, p)) + multiset(Filter(s, q)) == multiset(s)
    ensures |Filter(s, p)| + |Filter(s, q)| == |s|
  {
    if |s| > 0 {
      FilterPartition(s[1..], p, q);
      assert s == [s[0]] + s[1..];
    }
  }

  /** Number of elements satisfying `p`. */
  function Count<T>(s: seq<T>, p: T -> bool): nat {
    |Filter(s, p)|
  }

  /** Sum of `f` over the sequence. */
  function SumOf<T>(s: seq<T>, f: T -> int): int {
    if |s| == 0 then 0 else f(s[0]) + SumOf(s[1..], f)
  }

  lemma {:induction false} SumOfAppend<T>(a: seq<T>, b: seq<T>, f: T -> int)
    ensures SumOf(a + b, f) == SumOf(a, f) + SumOf(b, f)
  {
    if |a| == 0 {
      assert a + b == b;
    } else {
      assert (a + b)[1..] == a[1..] + b;
      SumOfAppend(a[1..], b, f);
    }
  }

  /** Taking one element out of the sum. */
  lemma SumOfRemove<T>(b: seq<T>, k: nat, f: T -> int)
    requires k < |b|
    ensures SumOf(b, f) == f(b[k]) + SumOf(b[..k] + b[k + 1..], f)
  {
    assert b == b[..k] + ([b[k]] + b[k + 1..]);
    SumOfAppend(b[..k], [b[k]] + b[k + 1..], f);
    SumOfAppend([b[k]], b[k + 1..], f);
    SumOfAppend(b[..k], b[k + 1..], f);
  }

  /** The sum only depends on the multiset of elements, so any reordering keeps it. */
  lemma {:induction false} SumOfPermutation<T>(a: seq<T>, b: seq<T>, f: T -> int)
    requires multiset(a) == multiset(b)
    ensures SumOf(a, f) == SumOf(b, f)
    decreases |a|
  {
    if |a| == 0 {
      assert |b| == |multiset(b)| == 0;
    } else {
      var x := a[0];
      assert x in multiset(b);
      var k :| 0 <= k < |b| && b[k] == x;
      var rest := b[..k] + b[k + 1..];
      assert b == b[..k] + [x] + b[k + 1..];
      assert multiset(b) == multiset(rest) + multiset{x};
      assert a == [x] + a[1..];
      assert multiset(a) == multiset{x} + multiset(a[1..]);
      assert multiset(a[1..]) == multiset(a) - multiset{x} == multiset(b) - multiset{x} == multiset(rest);
      SumOfPermutation(a[1..], rest, f);
      SumOfRemove(b, k, f);
    }
  }

  /** `f` applied to each element in order, stopping at the first failure. */
  function MapResult<A, B, E>(xs: seq<A>, f: A -> Result<B, E>): Result<seq<B>, E> {
    if |xs| == 0 then Ok([])
    else
      var first :- f(xs[0]);
      var rest :- MapResult(xs[1..], f);
      Ok([first] + rest)
  }

  /** The mapping succeeds iff `f` succeeds on every element. */
  lemma {:induction false} MapResultSucceeds<A, B, E>(xs: seq<A>, f: A -> Result<B, E>)
    ensures MapResult(xs, f).Ok? <==> forall i :: 0 <= i < |xs| ==> f(xs[i]).Ok?
  {
    if |xs| > 0 {
      MapResultSucceeds(xs[1..], f);
      assert forall i :: 1 <= i < |xs| ==> xs[1..][i - 1] == xs[i];
    }
  }

  /** A successful mapping has one result per element, in order. */
  lemma {:induction false} MapResultValues<A, B, E>(xs: seq<A>, f: A -> Result<B, E>)
    requires MapResult(xs, f).Ok?
    ensures |MapResult(xs, f).value| == |xs|
    ensures forall i :: 0 <= i < |xs| ==> f(xs[i]).Ok? && MapResult(xs, f).value[i] == f(xs[i]).value
  {
    if |xs| > 0 {
      var tail := xs[1..];
      MapResultValues(tail, f);
      var rs := MapResult(xs, f).value;
      assert rs == [f(xs[0]).value] + MapResult(tail, f).value;
      forall i | 1 <= i < |xs| ensures f(xs[i]).Ok? && rs[i] == f(xs[i]).value {
        assert tail[i - 1] == xs[i];
      }
    }
  }

  /** The first failing element decides the error. */
  lemma {:induction false} MapResultFirstFailure<A, B, E>(xs: seq<A>, f: A -> Result<B, E>, k: nat)
    requires k < |xs|
    requires forall i :: 0 <= i < k ==> f(xs[i]).Ok?
    requires f(xs[k]).Err?
    ensures MapResult(xs, f) == Err(f(xs[k]).error)
  {
    if k > 0 {
      MapResultFirstFailure(xs[1..], f, k - 1);
    }
  }

  /** Python's `s[a:]`: a negative start counts from the end, and both ends are clamped. */
  function PySliceFrom<T>(s: seq<T>, a: int): seq<T> {
    if a >= 0 then (if a <= |s| then s[a..] else [])
    else (if -a <= |s| then s[|s| + a..] else s)
  }

  /** `s[a:]` is the suffix of `s` whose length Python's clamping rules give. */
  lemma PySliceFromShape<T>(s: seq<T>, a: int)
    ensures |PySliceFrom(s, a)| == (if a >= 0 then (if a <= |s| then |s| - a else 0) else (if -a <= |s| then -a else |s|))
    ensures PySliceFrom(s, a) == s[|s| - |PySliceFrom(s, a)|..]
  {
  }
}
