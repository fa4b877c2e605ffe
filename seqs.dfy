/** Order-preserving selection and first-match search over sequences: the
    `Array.prototype.filter` and `Array.prototype.find` calls of the program. */
module Seqs {
  import opened Wrappers

  /** `s.filter(keep)`: the elements of `s` that satisfy `keep`, in their original order. */
  function Filter<T(==)>(s: seq<T>, keep: T -> bool): (r: seq<T>)
    ensures |r| <= |s|
    ensures forall x :: x in r ==> x in s && keep(x)
    ensures forall x | x in s :: multiset(r)[x] == if keep(x) then multiset(s)[x] else 0
  {
    if s == [] then []
    else
      var rest := Filter(s[1..], keep);
      assert s == [s[0]] + s[1..];
      if keep(s[0]) then [s[0]] + rest else rest
  }

  /** Filtering distributes over concatenation: together with the one-element cases this
      says the selected elements keep their relative order. */
  lemma {:induction false} FilterConcat<T>(a: seq<T>, b: seq<T>, keep: T -> bool)
    ensures Filter(a + b, keep) == Filter(a, keep) + Filter(b, keep)
  {
    if a == [] {
      assert a + b == b;
    } else {
      assert (a + b)[1..] == a[1..] + b;
      assert (a + b)[0] == a[0];
      FilterConcat(a[1..], b, keep);
    }
  }

  /** When every element passes, filtering returns the sequence unchanged. */
  lemma {:induction false} FilterKeepsAll<T>(s: seq<T>, keep: T -> bool)
    requires forall i :: 0 <= i < |s| ==> keep(s[i])
    ensures Filter(s, keep) == s
  {
    if s != [] {
      FilterKeepsAll(s[1..], keep);
    }
  }

  /** Two tests that agree on every element select the same subsequence. */
  lemma {:induction false} FilterCongruent<T>(s: seq<T>, keep: T -> bool, keep': T -> bool)
    requires forall i :: 0 <= i < |s| ==> keep(s[i]) == keep'(s[i])
    ensures Filter(s, keep) == Filter(s, keep')
  {
    if s != [] {
      FilterCongruent(s[1..], keep, keep');
    }
  }

  /** `s.findIndex(test)`, with `None` for JavaScript's -1: the FIRST index whose element
      passes the test. */
  function FindIndex<T>(s: seq<T>, test: T -> bool): (r: Option<nat>)
    ensures r.Some? ==> r.value < |s| && test(s[r.value])
    ensures r.Some? ==> forall j :: 0 <= j < r.value ==> !test(s[j])
    ensures r.None? <==> forall j :: 0 <= j < |s| ==> !test(s[j])
  {
    if s == [] then None
    else if test(s[0]) then Some(0)
    else match FindIndex(s[1..], test)
      case None => None
      case Some(k) => Some(k + 1)
  }

  /** `s.find(test)`: the first element that passes the test, if any. */
  function Find<T>(s: seq<T>, test: T -> bool): (r: Option<T>)
    ensures r.Some? <==> exists j :: 0 <= j < |s| && test(s[j])
    ensures r.Some? ==> exists j :: 0 <= j < |s| && s[j] == r.value && test(s[j])
                                   && forall k :: 0 <= k < j ==> !test(s[k])
  {
    match FindIndex(s, test)
    case None => None
    case Some(k) => Some(s[k])
  }
}
