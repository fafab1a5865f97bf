/** The array combinators the tool uses (`filter`, `map`, `flat`, `find`),
    on sequences. */
module Seqs {
  import opened Wrappers

  /** `s.filter(f)`: the elements satisfying `f`, in their original order. */
  function Filter<T(!new)>(s: seq<T>, f: T -> bool): (r: seq<T>)
    ensures |r| <= |s|
    ensures forall x :: x in r <==> x in s && f(x)
  {
    if s == [] then [] else (if f(s[0]) then [s[0]] else []) + Filter(s[1..], f)
  }

  /** Filtering distributes over concatenation, so it keeps relative order. */
  lemma {:induction false} FilterAppend<T(!new)>(a: seq<T>, b: seq<T>, f: T -> bool)
    ensures Filter(a + b, f) == Filter(a, f) + Filter(b, f)
  {
    if a != [] {
      FilterAppend(a[1..], b, f);
      assert (a + b)[1..] == a[1..] + b;
    } else {
      assert a + b == b;
    }
  }

  /** Filtering one more element at the end. */
  lemma FilterSnoc<T(!new)>(s: seq<T>, x: T, f: T -> bool)
    ensures Filter(s + [x], f) == Filter(s, f) + (if f(x) then [x] else [])
  {
    FilterAppend(s, [x], f);
    assert [x][1..] == [];
  }

  /** Every element passes: filtering keeps everything. */
  lemma {:induction false} FilterAll<T(!new)>(s: seq<T>, f: T -> bool)
    requires forall k :: 0 <= k < |s| ==> f(s[k])
    ensures Filter(s, f) == s
  {
    if s != [] {
      FilterAll(s[1..], f);
      assert [s[0]] + s[1..] == s;
    }
  }

  /** A property of every element of `a` and of `b` holds of every element
      of `a + b`. */
  lemma AllAppend<T>(a: seq<T>, b: seq<T>, f: T -> bool)
    requires forall k :: 0 <= k < |a| ==> f(a[k])
    requires forall k :: 0 <= k < |b| ==> f(b[k])
    ensures forall k :: 0 <= k < |a + b| ==> f((a + b)[k])
  {
  }

  /** `s.map(f)`. */
  function Map<T, U>(s: seq<T>, f: T -> U): (r: seq<U>)
    ensures |r| == |s|
    ensures forall k :: 0 <= k < |s| ==> r[k] == f(s[k])
  {
    seq(|s|, k requires 0 <= k < |s| => f(s[k]))
  }

  /** Mapping distributes over concatenation. */
  lemma MapAppend<T, U>(a: seq<T>, b: seq<T>, f: T -> U)
    ensures Map(a + b, f) == Map(a, f) + Map(b, f)
  {
  }

  /** `s.map(f).flat()`: the sequences `f` gives for the elements,
      concatenated in order. */
  function FlatMap<T, U>(s: seq<T>, f: T -> seq<U>): seq<U> {
    if s == [] then [] else f(s[0]) + FlatMap(s[1..], f)
  }

  /** Flattening distributes over concatenation. */
  lemma {:induction false} FlatMapAppend<T, U>(a: seq<T>, b: seq<T>, f: T -> seq<U>)
    ensures FlatMap(a + b, f) == FlatMap(a, f) + FlatMap(b, f)
  {
    if a != [] {
      FlatMapAppend(a[1..], b, f);
      assert (a + b)[1..] == a[1..] + b;
    } else {
      assert a + b == b;
    }
  }

  /** When each element gives at most one, the flattening is no longer
      than the sequence. */
  lemma {:induction false} FlatMapAtMostOne<T, U>(s: seq<T>, f: T -> seq<U>)
    requires forall x :: |f(x)| <= 1
    ensures |FlatMap(s, f)| <= |s|
  {
    if s != [] {
      FlatMapAtMostOne(s[1..], f);
    }
  }

  /** Flattening one more element at the end. */
  lemma FlatMapSnoc<T, U>(s: seq<T>, x: T, f: T -> seq<U>)
    ensures FlatMap(s + [x], f) == FlatMap(s, f) + f(x)
  {
    FlatMapAppend(s, [x], f);
    assert [x][1..] == [];
    assert FlatMap([x], f) == f(x) + [];
  }

  /** An element of the flattening comes from some element's sequence,
      and every element's sequence is in the flattening. */
  lemma {:induction false} FlatMapMembers<T, U>(s: seq<T>, f: T -> seq<U>)
    ensures forall k, y :: 0 <= k < |s| && y in f(s[k]) ==> y in FlatMap(s, f)
    ensures forall y :: y in FlatMap(s, f) ==> exists k :: 0 <= k < |s| && y in f(s[k])
  {
    if s != [] {
      FlatMapMembers(s[1..], f);
      forall k, y | 0 <= k < |s| && y in f(s[k])
        ensures y in FlatMap(s, f)
      {
        if k > 0 {
          assert s[k] == s[1..][k - 1];
        }
      }
      forall y | y in FlatMap(s, f)
        ensures exists k :: 0 <= k < |s| && y in f(s[k])
      {
        if y !in f(s[0]) {
          assert y in FlatMap(s[1..], f);
          var k :| 0 <= k < |s[1..]| && y in f(s[1..][k]);
          assert s[1..][k] == s[k + 1];
        }
      }
    }
  }

  /** `s.findIndex(p)`, with `None` in place of `-1`: the first index whose
      element satisfies `p`. */
  function FindIndex<T>(s: seq<T>, p: T -> bool): (r: Option<nat>)
    ensures r.Some? ==> r.value < |s| && p(s[r.value]) && forall j :: 0 <= j < r.value ==> !p(s[j])
    ensures r.None? ==> forall j :: 0 <= j < |s| ==> !p(s[j])
  {
    FindIndexFrom(s, p, 0)
  }

  /** The search of `FindIndex` from index `k` on. */
  function FindIndexFrom<T>(s: seq<T>, p: T -> bool, k: nat): (r: Option<nat>)
    requires k <= |s|
    ensures r.Some? ==> k <= r.value < |s| && p(s[r.value]) && forall j :: k <= j < r.value ==> !p(s[j])
    ensures r.None? ==> forall j :: k <= j < |s| ==> !p(s[j])
    decreases |s| - k
  {
    if k == |s| then None
    else if p(s[k]) then Some(k)
    else FindIndexFrom(s, p, k + 1)
  }
}
