/** Option and Result for the source's None values and raised exceptions, and the
    order-preserving list filter that every list comprehension of the form
    `[b for b in s if p(b)]` denotes. */
module Wrappers {

  datatype Option<+T> = None | Some(value: T)

  datatype Result<+R, +E> = Success(value: R) | Failure(error: E)

  /** `[x for x in s if p(x)]`, defined from the last element so that a loop
      that appends to a list is tied to it step by step. */
  function Filter<T>(s: seq<T>, p: T -> bool): (r: seq<T>)
    ensures |r| <= |s|
    decreases |s|
  {
    if |s| == 0 then []
    else Filter(s[..|s| - 1], p) + (if p(s[|s| - 1]) then [s[|s| - 1]] else [])
  }

  /** The predicate that rejects exactly what `p` accepts. */
  function Complement<T>(p: T -> bool): T -> bool
  {
    x => !p(x)
  }

  /** `s` is `a` and `b` merged without reordering either: every element of `s`
      comes from exactly one of them, and each keeps its relative order. */
  predicate Interleaves<T(==)>(s: seq<T>, a: seq<T>, b: seq<T>)
    decreases |s|
  {
    if |s| == 0 then a == [] && b == []
    else
      (|a| > 0 && a[|a| - 1] == s[|s| - 1] && Interleaves(s[..|s| - 1], a[..|a| - 1], b))
      || (|b| > 0 && b[|b| - 1] == s[|s| - 1] && Interleaves(s[..|s| - 1], a, b[..|b| - 1]))
  }

  /** Filtering a list extended by one element extends the filtered list by
      that element exactly when it passes. */
  lemma FilterStep<T>(s: seq<T>, x: T, p: T -> bool)
    ensures Filter(s + [x], p) == Filter(s, p) + (if p(x) then [x] else [])
  {
    assert (s + [x])[..|s + [x]| - 1] == s;
  }

  lemma {:induction false} FilterMembers<T>(s: seq<T>, p: T -> bool, x: T)
    ensures x in Filter(s, p) <==> x in s && p(x)
    decreases |s|
  {
    if |s| > 0 {
      var init := s[..|s| - 1];
      FilterMembers(init, p, x);
      assert s == init + [s[|s| - 1]];
    }
  }

  /** Filtering by `p` and by its complement splits `s` into two lists that
      together are `s` in its own order. */
  lemma {:induction false} FilterPartitions<T>(s: seq<T>, p: T -> bool)
    ensures Interleaves(s, Filter(s, p), Filter(s, Complement(p)))
    decreases |s|
  {
    if |s| > 0 {
      var init := s[..|s| - 1];
      FilterPartitions(init, p);
      var a, b := Filter(s, p), Filter(s, Complement(p));
      if p(s[|s| - 1]) {
        assert !Complement(p)(s[|s| - 1]);
        assert a[..|a| - 1] == Filter(init, p) && b == Filter(init, Complement(p));
      } else {
        assert Complement(p)(s[|s| - 1]);
        assert a == Filter(init, p) && b[..|b| - 1] == Filter(init, Complement(p));
      }
    }
  }

  /** An interleaving loses and invents nothing. */
  lemma {:induction false} InterleavesMultiset<T>(s: seq<T>, a: seq<T>, b: seq<T>)
    requires Interleaves(s, a, b)
    ensures multiset(a) + multiset(b) == multiset(s)
    decreases |s|
  {
    if |s| > 0 {
      var init := s[..|s| - 1];
      assert s == init + [s[|s| - 1]];
      if |a| > 0 && a[|a| - 1] == s[|s| - 1] && Interleaves(init, a[..|a| - 1], b) {
        InterleavesMultiset(init, a[..|a| - 1], b);
        assert a == a[..|a| - 1] + [a[|a| - 1]];
      } else {
        InterleavesMultiset(init, a, b[..|b| - 1]);
        assert b == b[..|b| - 1] + [b[|b| - 1]];
      }
    }
  }

  /** Two predicates that agree on the elements of `s` filter it alike. */
  lemma {:induction false} FilterAgrees<T>(s: seq<T>, p: T -> bool, q: T -> bool)
    requires forall i :: 0 <= i < |s| ==> p(s[i]) == q(s[i])
    ensures Filter(s, p) == Filter(s, q)
    decreases |s|
  {
    if |s| > 0 {
      FilterAgrees(s[..|s| - 1], p, q);
    }
  }

  /** Filtering with a predicate that accepts everything returns the input. */
  lemma {:induction false} FilterAll<T>(s: seq<T>, p: T -> bool)
    requires forall i :: 0 <= i < |s| ==> p(s[i])
    ensures Filter(s, p) == s
    ensures Filter(s, Complement(p)) == []
    decreases |s|
  {
    if |s| > 0 {
      FilterAll(s[..|s| - 1], p);
      assert s == s[..|s| - 1] + [s[|s| - 1]];
    }
  }
}
