/** Weighted sums over sequences: the one piece of arithmetic behind every conservation law of this project. */
module Sums {

  /** The sum of `w` over all positions of `s`. */
  function Sum<T>(s: seq<T>, w: T -> int): int {
    if s == [] then 0 else w(s[0]) + Sum(s[1..], w)
  }

  /** `s` with position `i` taken out. */
  function Without<T>(s: seq<T>, i: nat): (r: seq<T>)
    requires i < |s|
    ensures |r| == |s| - 1
    ensures forall j :: 0 <= j < |r| ==> r[j] == s[if j < i then j else j + 1]
    ensures forall x :: x in r ==> x in s
  {
    s[..i] + s[i + 1..]
  }

  lemma {:induction false} SumAppend<T>(a: seq<T>, b: seq<T>, w: T -> int)
    ensures Sum(a + b, w) == Sum(a, w) + Sum(b, w)
  {
    if a == [] {
      assert a + b == b;
    } else {
      assert (a + b)[1..] == a[1..] + b;
      SumAppend(a[1..], b, w);
    }
  }

  lemma SumPush<T>(a: seq<T>, x: T, w: T -> int)
    ensures Sum(a + [x], w) == Sum(a, w) + w(x)
  {
    SumAppend(a, [x], w);
    assert Sum([x], w) == w(x) + Sum([], w);
  }

  lemma SumFew<T>(x: T, y: T, w: T -> int)
    ensures Sum([x], w) == w(x)
    ensures Sum([x, y], w) == w(x) + w(y)
  {
    SumPush([], x, w);
    SumPush([x], y, w);
    assert [] + [x] == [x] && [x] + [y] == [x, y];
  }

  lemma SumWithout<T>(s: seq<T>, i: nat, w: T -> int)
    requires i < |s|
    ensures Sum(s, w) == Sum(Without(s, i), w) + w(s[i])
  {
    assert s == s[..i] + ([s[i]] + s[i + 1..]);
    SumAppend(s[..i], [s[i]] + s[i + 1..], w);
    SumAppend([s[i]], s[i + 1..], w);
    SumAppend(s[..i], s[i + 1..], w);
    assert Sum([s[i]], w) == w(s[i]) + Sum([], w);
  }

  lemma SumUpdate<T>(s: seq<T>, i: nat, x: T, w: T -> int)
    requires i < |s|
    ensures Sum(s[i := x], w) == Sum(s, w) - w(s[i]) + w(x)
  {
    SumWithout(s, i, w);
    SumWithout(s[i := x], i, w);
    assert Without(s[i := x], i) == Without(s, i);
  }

  /** A sum of non-negative weights is non-negative, and is at least any one of its terms. */
  lemma {:induction false} SumAtLeast<T>(s: seq<T>, w: T -> int)
    requires forall i :: 0 <= i < |s| ==> w(s[i]) >= 0
    ensures Sum(s, w) >= 0
    ensures forall i :: 0 <= i < |s| ==> w(s[i]) <= Sum(s, w)
  {
    if s != [] {
      var t := s[1..];
      assert forall i :: 0 <= i < |t| ==> t[i] == s[i + 1];
      SumAtLeast(t, w);
      forall i | 0 <= i < |s| ensures w(s[i]) <= Sum(s, w) {
        if i > 0 { assert t[i - 1] == s[i]; }
      }
    }
  }

  lemma UpdatedMembers<T>(s: seq<T>, i: nat, x: T)
    requires i < |s|
    ensures forall y :: y in s[i := x] ==> y == x || y in Without(s, i)
  {
    forall y | y in s[i := x] ensures y == x || y in Without(s, i) {
      var j :| 0 <= j < |s| && s[i := x][j] == y;
      if j != i { assert Without(s, i)[if j < i then j else j - 1] == y; }
    }
  }

  /** The pieces `g` assigns to the elements of `s`, joined in order. */
  function Concat<T, U>(s: seq<T>, g: T -> seq<U>): seq<U> {
    if s == [] then [] else g(s[0]) + Concat(s[1..], g)
  }

  /** When only weighty elements have a piece and the weights add up to at most one, there is at most one piece. */
  lemma {:induction false} ConcatSole<T, U>(s: seq<T>, w: T -> int, g: T -> seq<U>)
    requires forall x :: x in s ==> w(x) >= 0 && (w(x) == 0 ==> g(x) == [])
    requires Sum(s, w) <= 1
    ensures Sum(s, w) == 0 ==> Concat(s, g) == []
    ensures Sum(s, w) == 1 ==> exists x :: x in s && w(x) == 1 && Concat(s, g) == g(x)
  {
    if s != [] {
      SumAtLeast(s[1..], w);
      ConcatSole(s[1..], w, g);
      if w(s[0]) == 0 {
        assert g(s[0]) + Concat(s[1..], g) == Concat(s[1..], g);
      } else {
        assert g(s[0]) + [] == g(s[0]);
        assert s[0] in s;
      }
    }
  }

  function Map<T, U>(f: T -> U, s: seq<T>): (r: seq<U>)
    ensures |r| == |s|
    ensures forall i :: 0 <= i < |s| ==> r[i] == f(s[i])
  {
    seq(|s|, i requires 0 <= i < |s| => f(s[i]))
  }

  lemma MapPush<T, U>(f: T -> U, s: seq<T>, x: T)
    ensures Map(f, s + [x]) == Map(f, s) + [f(x)]
  {
  }

  lemma MapTail<T, U>(f: T -> U, s: seq<T>)
    requires s != []
    ensures Map(f, s[1..]) == Map(f, s)[1..]
  {
  }

  lemma MapReplace<T, U>(f: T -> U, s: seq<T>, i: nat, x: T)
    requires i < |s|
    ensures Map(f, s[i := x]) == Map(f, s)[i := f(x)]
    ensures Map(f, Without(s, i)) == Without(Map(f, s), i)
  {
  }
}
