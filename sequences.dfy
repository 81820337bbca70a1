/**
 * `Array.prototype.filter` over a sequence, with the order-preserving
 * sublist relation it is specified against.  The client screens filter
 * request and member lists with it.
 */
module Sequences {

  /** `r` is `s` with some elements dropped and the rest kept in order. */
  predicate Sublist<T(==)>(r: seq<T>, s: seq<T>)
    decreases |s|
  {
    if r == [] then true
    else if s == [] then false
    else (r[|r| - 1] == s[|s| - 1] && Sublist(r[..|r| - 1], s[..|s| - 1])) || Sublist(r, s[..|s| - 1])
  }

  /** Every sequence is a sublist of itself. */
  lemma {:induction false} SublistRefl<T>(s: seq<T>)
    ensures Sublist(s, s)
    decreases |s|
  {
    if s != [] {
      SublistRefl(s[..|s| - 1]);
    }
  }

  /** The elements `f` accepts, in their original order. */
  function Filter<T(==,!new)>(s: seq<T>, f: T -> bool): (r: seq<T>)
    ensures |r| <= |s|
    ensures forall x :: x in r <==> x in s && f(x)
  {
    if s == [] then []
    else
      var init := Filter(s[..|s| - 1], f);
      assert forall x :: x in s <==> x in s[..|s| - 1] || x == s[|s| - 1] by {
        assert s == s[..|s| - 1] + [s[|s| - 1]];
      }
      init + (if f(s[|s| - 1]) then [s[|s| - 1]] else [])
  }

  /** Filtering keeps the order: its result is a sublist of its input. */
  lemma {:induction false} FilterIsSublist<T(!new)>(s: seq<T>, f: T -> bool)
    ensures Sublist(Filter(s, f), s)
    decreases |s|
  {
    if s != [] {
      var init := s[..|s| - 1];
      FilterIsSublist(init, f);
      var r := Filter(s, f);
      if f(s[|s| - 1]) {
        assert r[..|r| - 1] == Filter(init, f);
      } else {
        assert r == Filter(init, f);
        if r != [] {
          SublistSnoc(r, init, s[|s| - 1]);
        }
      }
    }
  }

  /** A sublist of `s` is still one once `s` grows at the end. */
  lemma SublistSnoc<T>(r: seq<T>, s: seq<T>, x: T)
    requires Sublist(r, s) && r != []
    ensures Sublist(r, s + [x])
  {
    assert (s + [x])[..|s|] == s;
  }

  /** Filtering a sequence grown by one element filters that element on its own. */
  lemma FilterSnoc<T(!new)>(s: seq<T>, x: T, f: T -> bool)
    ensures Filter(s + [x], f) == Filter(s, f) + (if f(x) then [x] else [])
  {
    assert (s + [x])[..|s + [x]| - 1] == s;
  }

  /** Filtering a concatenation filters each part. */
  lemma {:induction false} FilterAppend<T(!new)>(a: seq<T>, b: seq<T>, f: T -> bool)
    ensures Filter(a + b, f) == Filter(a, f) + Filter(b, f)
    decreases |b|
  {
    if b == [] {
      assert a + b == a;
    } else {
      var b0, x := b[..|b| - 1], b[|b| - 1];
      var t := if f(x) then [x] else [];
      assert a + b == (a + b0) + [x];
      assert b == b0 + [x];
      calc {
        Filter(a + b, f);
        { FilterSnoc(a + b0, x, f); }
        Filter(a + b0, f) + t;
        { FilterAppend(a, b0, f); }
        (Filter(a, f) + Filter(b0, f)) + t;
        Filter(a, f) + (Filter(b0, f) + t);
        { FilterSnoc(b0, x, f); }
        Filter(a, f) + Filter(b, f);
      }
    }
  }

  /** When `f` accepts every element, nothing is dropped. */
  lemma {:induction false} FilterKeepsAll<T(!new)>(s: seq<T>, f: T -> bool)
    requires forall x :: x in s ==> f(x)
    ensures Filter(s, f) == s
    decreases |s|
  {
    if s != [] {
      var init, x := s[..|s| - 1], s[|s| - 1];
      assert s == init + [x];
      assert forall y :: y in init ==> y in s;
      FilterKeepsAll(init, f);
      FilterSnoc(init, x, f);
    }
  }

  /** Two filters whose tests never both accept split off disjoint sublists of at most `|s|` elements together. */
  lemma {:induction false} FilterDisjointCount<T(!new)>(s: seq<T>, f: T -> bool, g: T -> bool)
    requires forall x :: x in s ==> !(f(x) && g(x))
    ensures |Filter(s, f)| + |Filter(s, g)| <= |s|
    decreases |s|
  {
    if s != [] {
      assert forall x :: x in s[..|s| - 1] ==> x in s;
      FilterDisjointCount(s[..|s| - 1], f, g);
    }
  }
}
