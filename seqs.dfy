/** Sequence queries shared by the repositories: an order-preserving predicate
    filter (the store's `Find(predicate)` read in stored order) and its
    "first or default" companion. */
module Seqs {
  import opened Wrappers

  /** `a` can be obtained from `b` by deleting elements: order is kept. */
  predicate IsSubsequence<T(==)>(a: seq<T>, b: seq<T>)
    decreases |b|
  {
    if a == [] then true
    else if b == [] then false
    else if a[0] == b[0] then IsSubsequence(a[1..], b[1..])
    else IsSubsequence(a, b[1..])
  }

  /** The elements of `s` satisfying `f`, in the order they are stored. */
  function Where<T(==)>(s: seq<T>, f: T -> bool): (r: seq<T>)
    ensures |r| <= |s|
    ensures IsSubsequence(r, s)
    ensures forall x :: x in r ==> x in s && f(x)
    ensures forall x :: x in s && f(x) ==> x in r
    ensures forall x :: x in s ==> multiset(r)[x] == if f(x) then multiset(s)[x] else 0
  {
    if s == [] then []
    else
      var rest := Where(s[1..], f);
      assert s == [s[0]] + s[1..];
      if f(s[0]) then [s[0]] + rest else rest
  }

  /** The first element of `s` satisfying `f`, scanning in stored order. */
  function FirstWhere<T(==)>(s: seq<T>, f: T -> bool): (r: Option<T>)
    ensures r.None? <==> forall x :: x in s ==> !f(x)
    ensures r.Some? ==> r.value in s && f(r.value)
    ensures r.Some? ==>
      exists i :: 0 <= i < |s| && s[i] == r.value && forall j :: 0 <= j < i ==> !f(s[j])
  {
    if s == [] then None
    else if f(s[0]) then Some(s[0])
    else
      var r := FirstWhere(s[1..], f);
      assert r.Some? ==> exists i :: 1 <= i < |s| && s[i] == r.value && forall j :: 1 <= j < i ==> !f(s[j]) by {
        if r.Some? {
          var i :| 0 <= i < |s[1..]| && s[1..][i] == r.value && forall j :: 0 <= j < i ==> !f(s[1..][j]);
          assert s[i + 1] == r.value;
          forall j | 1 <= j < i + 1 ensures !f(s[j]) { assert s[j] == s[1..][j - 1]; }
        }
      }
      r
  }

  /** "First or default" is the head of the filtered sequence. */
  lemma {:induction false} FirstWhereIsHeadOfWhere<T>(s: seq<T>, f: T -> bool)
    ensures FirstWhere(s, f) == if Where(s, f) == [] then None else Some(Where(s, f)[0])
  {
    if s != [] && !f(s[0]) {
      FirstWhereIsHeadOfWhere(s[1..], f);
    }
  }

  /** Filtering with a predicate that holds of every element changes nothing. */
  lemma {:induction false} WhereAll<T>(s: seq<T>, f: T -> bool)
    requires forall x :: x in s ==> f(x)
    ensures Where(s, f) == s
  {
    if s != [] {
      WhereAll(s[1..], f);
    }
  }

  /** Filtering depends only on the predicate's values on the elements. */
  lemma {:induction false} WhereCongruent<T>(s: seq<T>, f: T -> bool, g: T -> bool)
    requires forall x :: x in s ==> f(x) == g(x)
    ensures Where(s, f) == Where(s, g)
  {
    if s != [] {
      WhereCongruent(s[1..], f, g);
    }
  }

  /** A stronger predicate keeps no more elements, counted with multiplicity. */
  lemma WhereMonotone<T>(s: seq<T>, f: T -> bool, g: T -> bool)
    requires forall x :: x in s && f(x) ==> g(x)
    ensures multiset(Where(s, f)) <= multiset(Where(s, g))
    ensures |Where(s, f)| <= |Where(s, g)|
  {
    var a, b := Where(s, f), Where(s, g);
    forall x | x in a ensures multiset(a)[x] <= multiset(b)[x] {
      assert g(x);
    }
    assert multiset(a) <= multiset(b);
    MultisetSubsetCardinality(multiset(a), multiset(b));
  }

  lemma MultisetSubsetCardinality<T>(a: multiset<T>, b: multiset<T>)
    requires a <= b
    ensures |a| <= |b|
  {
    assert b == a + (b - a);
  }

  /** The sequence of `g` applied to each element, in order (LINQ `Select`). */
  function Select<T, U>(s: seq<T>, g: T -> U): (r: seq<U>)
    ensures |r| == |s|
    ensures forall i :: 0 <= i < |s| ==> r[i] == g(s[i])
  {
    seq(|s|, i requires 0 <= i < |s| => g(s[i]))
  }
}
