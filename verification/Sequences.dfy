/** Filtering and mapping of sequences, and what they keep; the size of a subset. */
module Sequences {
  function Filter<T>(p: T -> bool, s: seq<T>): (r: seq<T>)
    ensures forall x | x in r :: x in s && p(x)
    ensures forall x | x in s :: p(x) ==> x in r
  {
    if s == [] then []
    else if p(s[0]) then [s[0]] + Filter(p, s[1..])
    else Filter(p, s[1..])
  }

  function Map<S, T>(f: S -> T, s: seq<S>): (r: seq<T>)
    ensures |r| == |s| && forall i :: 0 <= i < |s| ==> r[i] == f(s[i])
  {
    seq(|s|, i requires 0 <= i < |s| => f(s[i]))
  }

  lemma Associative<T>(a: seq<T>, b: seq<T>, c: seq<T>)
    ensures a + b + c == a + (b + c)
  {}

  lemma WithoutNothing<T>(a: seq<T>)
    ensures a + [] == a
  {}

  lemma {:induction false} FilterAppend<T>(p: T -> bool, a: seq<T>, b: seq<T>)
    ensures Filter(p, a + b) == Filter(p, a) + Filter(p, b)
  {
    if a == [] {
      assert a + b == b;
    } else {
      assert (a + b)[1..] == a[1..] + b;
      FilterAppend(p, a[1..], b);
    }
  }

  lemma FilterOne<T>(p: T -> bool, x: T)
    ensures Filter(p, [x]) == if p(x) then [x] else []
  {
    assert [x][1..] == [];
  }

  lemma {:induction false} FilterTwice<T>(p: T -> bool, q: T -> bool, s: seq<T>)
    requires forall x :: x in s && q(x) ==> p(x)
    ensures Filter(q, Filter(p, s)) == Filter(q, s)
  {
    if s != [] {
      FilterTwice(p, q, s[1..]);
      if p(s[0]) {
        assert Filter(p, s) == [s[0]] + Filter(p, s[1..]);
      }
    }
  }

  lemma {:induction false} FilterCount<T>(p: T -> bool, s: seq<T>, x: T)
    ensures multiset(Filter(p, s))[x] == if p(x) then multiset(s)[x] else 0
  {
    if s != [] {
      FilterCount(p, s[1..], x);
      assert s == [s[0]] + s[1..];
    }
  }

  lemma MapMembers<S, T>(f: S -> T, s: seq<S>, y: T)
    ensures y in Map(f, s) <==> exists x :: x in s && f(x) == y
  {
    var r := Map(f, s);
    if y in r {
      var i :| 0 <= i < |r| && r[i] == y;
      assert s[i] in s && f(s[i]) == y;
    }
    if x :| x in s && f(x) == y {
      var i :| 0 <= i < |s| && s[i] == x;
      assert r[i] == y;
    }
  }

  lemma SubsetSize<T>(a: set<T>, b: set<T>)
    requires a <= b
    ensures |a| <= |b|
  {
    if a != {} {
      var x :| x in a;
      SubsetSize(a - {x}, b - {x});
    }
  }
}
