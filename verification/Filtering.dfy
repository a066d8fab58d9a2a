/** The elements of a sequence that satisfy a predicate, in order. */
module Filtering {

  function Filter<T>(s: seq<T>, p: T -> bool): seq<T> {
    if s == [] then [] else Filter(s[..|s| - 1], p) + (if p(s[|s| - 1]) then [s[|s| - 1]] else [])
  }

  lemma {:induction false} FilterConcat<T>(a: seq<T>, b: seq<T>, p: T -> bool)
    ensures Filter(a + b, p) == Filter(a, p) + Filter(b, p)
  {
    if b == [] {
      assert a + b == a;
    } else {
      assert (a + b)[..|a + b| - 1] == a + b[..|b| - 1];
      FilterConcat(a, b[..|b| - 1], p);
    }
  }

  lemma FilterOne<T>(x: T, p: T -> bool)
    ensures Filter([x], p) == if p(x) then [x] else []
  {
    assert [x][..0] == [];
  }

  lemma {:induction false} FilterMembers<T>(s: seq<T>, p: T -> bool, x: T)
    ensures x in Filter(s, p) <==> x in s && p(x)
  {
    if s != [] {
      FilterMembers(s[..|s| - 1], p, x);
      assert s == s[..|s| - 1] + [s[|s| - 1]];
    }
  }

  /** Filtering twice is filtering by both, in either order. */
  lemma {:induction false} FilterCommutes<T>(s: seq<T>, p: T -> bool, q: T -> bool)
    ensures Filter(Filter(s, p), q) == Filter(Filter(s, q), p)
  {
    if s != [] {
      var front, x := s[..|s| - 1], s[|s| - 1];
      FilterCommutes(front, p, q);
      FilterConcat(Filter(front, p), if p(x) then [x] else [], q);
      FilterConcat(Filter(front, q), if q(x) then [x] else [], p);
      FilterOne(x, p);
      FilterOne(x, q);
    }
  }

  lemma {:induction false} FilterAgrees<T>(s: seq<T>, p: T -> bool, q: T -> bool)
    requires forall x | x in s :: p(x) == q(x)
    ensures Filter(s, p) == Filter(s, q)
  {
    if s != [] {
      FilterAgrees(s[..|s| - 1], p, q);
    }
  }

  lemma {:induction false} FilterAll<T>(s: seq<T>, p: T -> bool)
    requires forall x | x in s :: p(x)
    ensures Filter(s, p) == s
  {
    if s != [] {
      FilterAll(s[..|s| - 1], p);
      assert s == s[..|s| - 1] + [s[|s| - 1]];
    }
  }

  lemma {:induction false} FilterNone<T>(s: seq<T>, p: T -> bool)
    requires forall x | x in s :: !p(x)
    ensures Filter(s, p) == []
  {
    if s != [] {
      FilterNone(s[..|s| - 1], p);
    }
  }

  lemma {:induction false} FilterBoth<T>(s: seq<T>, p: T -> bool, q: T -> bool, r: T -> bool)
    requires forall x | x in s :: r(x) <==> p(x) && q(x)
    ensures Filter(Filter(s, p), q) == Filter(s, r)
  {
    if s != [] {
      var front, x := s[..|s| - 1], s[|s| - 1];
      FilterBoth(front, p, q, r);
      FilterConcat(Filter(front, p), if p(x) then [x] else [], q);
      FilterOne(x, q);
    }
  }

  lemma {:induction false} FilterSplit<T>(s: seq<T>, i: nat, p: T -> bool)
    requires i < |s|
    ensures Filter(s, p) == Filter(s[..i], p) + (if p(s[i]) then [s[i]] else []) + Filter(s[i + 1..], p)
  {
    var a, b := s[..i + 1], s[i + 1..];
    assert Filter(s, p) == Filter(a, p) + Filter(b, p) by {
      assert s == a + b;
      FilterConcat(a, b, p);
    }
    assert Filter(a, p) == Filter(s[..i], p) + (if p(s[i]) then [s[i]] else []) by {
      assert a[..|a| - 1] == s[..i];
    }
  }

  /** Only the element at `i` fails. */
  lemma {:induction false} FilterDropsOne<T>(s: seq<T>, i: nat, p: T -> bool)
    requires i < |s| && !p(s[i])
    requires (forall x | x in s[..i] :: p(x)) && (forall x | x in s[i + 1..] :: p(x))
    ensures Filter(s, p) == s[..i] + s[i + 1..]
  {
    var a, b := s[..i + 1], s[i + 1..];
    assert Filter(a, p) == s[..i] by {
      assert a[..|a| - 1] == s[..i];
      FilterAll(s[..i], p);
    }
    assert Filter(b, p) == b by {
      FilterAll(b, p);
    }
    assert Filter(s, p) == Filter(a, p) + Filter(b, p) by {
      assert s == a + b;
      FilterConcat(a, b, p);
    }
  }
}
