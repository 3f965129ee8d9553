/**
 * The two array passes the scrapers are built from: "keep the elements that
 * pass a test and turn each into a report entry, in order" (forEach + if +
 * push) and "how many elements pass a test" (filter(...).length).
 */
module Seqs {

  /** The elements of `s` that satisfy `keep`, each mapped through `f`, in their original order. */
  function FilterMap<T, U>(s: seq<T>, keep: T -> bool, f: T -> U): (r: seq<U>)
    ensures |r| <= |s|
  {
    if s == [] then []
    else FilterMap(s[..|s| - 1], keep, f) + (if keep(s[|s| - 1]) then [f(s[|s| - 1])] else [])
  }

  /** Every element of `s` mapped through `f`, in order. */
  function Map<T, U>(s: seq<T>, f: T -> U): (r: seq<U>)
    ensures |r| == |s|
    ensures forall i :: 0 <= i < |s| ==> r[i] == f(s[i])
  {
    if s == [] then [] else Map(s[..|s| - 1], f) + [f(s[|s| - 1])]
  }

  /** The number of elements of `s` that satisfy `p`. */
  function CountIf<T>(s: seq<T>, p: T -> bool): (n: nat)
    ensures n <= |s|
  {
    if s == [] then 0
    else CountIf(s[..|s| - 1], p) + (if p(s[|s| - 1]) then 1 else 0)
  }

  /** FilterMap works piecewise: the entries for `a + b` are those for `a` followed by those for `b`. */
  lemma {:induction false} FilterMapAppend<T, U>(a: seq<T>, b: seq<T>, keep: T -> bool, f: T -> U)
    ensures FilterMap(a + b, keep, f) == FilterMap(a, keep, f) + FilterMap(b, keep, f)
  {
    if b == [] {
      assert a + b == a;
    } else {
      var b' := b[..|b| - 1];
      assert (a + b)[..|a + b| - 1] == a + b';
      assert (a + b)[|a + b| - 1] == b[|b| - 1];
      FilterMapAppend(a, b', keep, f);
    }
  }

  /** Extending the prefix by one element adds that element's entry at the end, if it passes the test. */
  lemma FilterMapStep<T, U>(s: seq<T>, i: nat, keep: T -> bool, f: T -> U)
    requires i < |s|
    ensures FilterMap(s[..i + 1], keep, f) == FilterMap(s[..i], keep, f) + (if keep(s[i]) then [f(s[i])] else [])
  {
    assert s[..i + 1][..i] == s[..i];
  }

  /** Every entry of the result comes from an element of `s` that passes the test, found at position `i`. */
  lemma {:induction false} FilterMapSound<T, U>(s: seq<T>, keep: T -> bool, f: T -> U, y: U) returns (i: nat)
    requires y in FilterMap(s, keep, f)
    ensures i < |s| && keep(s[i]) && y == f(s[i])
  {
    var init := s[..|s| - 1];
    if y in FilterMap(init, keep, f) {
      i := FilterMapSound(init, keep, f, y);
      assert s[i] == init[i];
    } else {
      i := |s| - 1;
    }
  }

  /** Nothing is counted exactly when no element passes the test. */
  lemma {:induction false} CountIfZero<T>(s: seq<T>, p: T -> bool)
    ensures CountIf(s, p) == 0 <==> forall x :: x in s ==> !p(x)
  {
    if s != [] {
      var init := s[..|s| - 1];
      assert s == init + [s[|s| - 1]];
      CountIfZero(init, p);
    }
  }

  /** Every element that passes the test shows up, mapped, in the result. */
  lemma {:induction false} FilterMapComplete<T, U>(s: seq<T>, keep: T -> bool, f: T -> U, x: T)
    requires x in s && keep(x)
    ensures f(x) in FilterMap(s, keep, f)
  {
    var init := s[..|s| - 1];
    if x != s[|s| - 1] {
      assert x in init by {
        var i :| 0 <= i < |s| && s[i] == x;
        assert init[i] == x;
      }
      FilterMapComplete(init, keep, f, x);
    }
  }

  /** The result has one entry per element that passes the test. */
  lemma {:induction false} FilterMapLength<T, U>(s: seq<T>, keep: T -> bool, f: T -> U)
    ensures |FilterMap(s, keep, f)| == CountIf(s, keep)
  {
    if s != [] {
      FilterMapLength(s[..|s| - 1], keep, f);
    }
  }

  /** A test that every element passing `p` also passes counts at least as many elements. */
  lemma {:induction false} CountIfMonotone<T>(s: seq<T>, p: T -> bool, q: T -> bool)
    requires forall x :: x in s && p(x) ==> q(x)
    ensures CountIf(s, p) <= CountIf(s, q)
  {
    if s != [] {
      var init := s[..|s| - 1];
      assert forall x :: x in init ==> x in s;
      CountIfMonotone(init, p, q);
    }
  }
}
