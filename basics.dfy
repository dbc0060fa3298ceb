/** Values and sequence combinators shared by every part of the model:
    an optional value, `Array.prototype.filter` with its laws, and the
    per-field error record that both forms keep. */
module Basics {

  datatype Option<+T> = None | Some(value: T) {
    /** `x || d` on an optional field: the value when present, `d` otherwise. */
    function GetOr(d: T): T {
      match this
      case Some(v) => v
      case None => d
    }
  }

  /** `s.filter(p)`: the elements of `s` that satisfy `p`, in their original order. */
  function Filter<T>(p: T -> bool, s: seq<T>): (r: seq<T>)
    ensures |r| <= |s|
    ensures forall i :: 0 <= i < |r| ==> r[i] in s && p(r[i])
    ensures forall i :: 0 <= i < |s| && p(s[i]) ==> s[i] in r
  {
    if s == [] then []
    else if p(s[0]) then [s[0]] + Filter(p, s[1..])
    else Filter(p, s[1..])
  }

  /** `if (active) filtered = filtered.filter(p)`: one optional stage of a filter chain. */
  function FilterIf<T>(active: bool, p: T -> bool, s: seq<T>): seq<T> {
    if active then Filter(p, s) else s
  }

  /** `a` can be obtained from `b` by deleting elements: every element of `b`
      is either matched, in order, by the next element of `a`, or skipped. */
  ghost predicate IsSubsequence<T>(a: seq<T>, b: seq<T>)
    decreases |b|
  {
    if b == [] then a == []
    else (a != [] && a[0] == b[0] && IsSubsequence(a[1..], b[1..])) || IsSubsequence(a, b[1..])
  }

  lemma {:induction false} FilterIsSubsequence<T>(p: T -> bool, s: seq<T>)
    ensures IsSubsequence(Filter(p, s), s)
  {
    if s != [] {
      FilterIsSubsequence(p, s[1..]);
    }
  }

  /** Filtering keeps every element that passes exactly as often as it occurs,
      and drops every other element. */
  lemma {:induction false} FilterMultiset<T>(p: T -> bool, s: seq<T>)
    ensures forall x :: multiset(Filter(p, s))[x] == if p(x) then multiset(s)[x] else 0
  {
    if s != [] {
      FilterMultiset(p, s[1..]);
      assert s == [s[0]] + s[1..];
      assert multiset(s) == multiset([s[0]]) + multiset(s[1..]);
    }
  }

  /** Filtering a second time with the same test removes nothing more. */
  lemma {:induction false} FilterIdempotent<T>(p: T -> bool, s: seq<T>)
    ensures Filter(p, Filter(p, s)) == Filter(p, s)
  {
    if s != [] {
      FilterIdempotent(p, s[1..]);
    }
  }

  /** A filter whose test every element passes returns its input. */
  lemma {:induction false} FilterKeepsAll<T>(p: T -> bool, s: seq<T>)
    requires forall i :: 0 <= i < |s| ==> p(s[i])
    ensures Filter(p, s) == s
  {
    if s != [] {
      FilterKeepsAll(p, s[1..]);
    }
  }

  /** Two tests that agree on the elements of `s` filter it alike. */
  lemma {:induction false} FilterSameTest<T>(p: T -> bool, q: T -> bool, s: seq<T>)
    requires forall i :: 0 <= i < |s| ==> p(s[i]) == q(s[i])
    ensures Filter(p, s) == Filter(q, s)
  {
    if s != [] {
      FilterSameTest(p, q, s[1..]);
    }
  }

  /** The test of one optional stage: everything passes an inactive stage. */
  function Stage<T>(active: bool, p: T -> bool): T -> bool {
    x => !active || p(x)
  }

  /** The conjunction of two tests. */
  function Both<T>(p: T -> bool, q: T -> bool): T -> bool {
    x => p(x) && q(x)
  }

  /** Two successive filters are one filter by the conjunction of their tests. */
  lemma {:induction false} FilterThen<T>(p: T -> bool, q: T -> bool, s: seq<T>)
    ensures Filter(q, Filter(p, s)) == Filter(Both(p, q), s)
  {
    if s != [] {
      FilterThen(p, q, s[1..]);
    }
  }

  /** An inactive stage passes everything; an active one is its filter. */
  lemma FilterIfIsFilter<T>(active: bool, p: T -> bool, s: seq<T>)
    ensures FilterIf(active, p, s) == Filter(Stage(active, p), s)
  {
    if active {
      FilterSameTest(p, Stage(active, p), s);
    } else {
      FilterKeepsAll(Stage(active, p), s);
    }
  }

  /** Filtering distributes over concatenation. */
  lemma {:induction false} FilterAppend<T>(p: T -> bool, a: seq<T>, b: seq<T>)
    ensures Filter(p, a + b) == Filter(p, a) + Filter(p, b)
  {
    if a == [] {
      assert a + b == b;
    } else {
      assert (a + b)[1..] == a[1..] + b;
      FilterAppend(p, a[1..], b);
    }
  }

  /** A weaker test keeps at least as many elements. */
  lemma {:induction false} FilterLengthMonotone<T>(p: T -> bool, q: T -> bool, s: seq<T>)
    requires forall i :: 0 <= i < |s| ==> p(s[i]) ==> q(s[i])
    ensures |Filter(p, s)| <= |Filter(q, s)|
  {
    if s != [] {
      FilterLengthMonotone(p, q, s[1..]);
    }
  }

  /** `setErrors(prev => ({ ...prev, [name]: '' }))`, done only when `errors[name]`
      is truthy: that field's message becomes the empty one (`cleared`), every
      other entry is kept, and no key is added or removed. */
  function ClearedError<K, V(==)>(errors: map<K, V>, name: K, cleared: V): (r: map<K, V>)
    ensures r.Keys == errors.Keys
    ensures forall k :: k in errors && k != name ==> r[k] == errors[k]
    ensures name in errors ==> r[name] == cleared
  {
    if name in errors && errors[name] != cleared then errors[name := cleared] else errors
  }
}
