/** Sequences built piece by piece. */
module Sequences {

  function FlatMap<X, Y>(f: X -> seq<Y>, xs: seq<X>): seq<Y>
    decreases xs
  {
    if xs == [] then [] else f(xs[0]) + FlatMap(f, xs[1..])
  }

  lemma {:induction false} FlatMapAppend<X, Y>(f: X -> seq<Y>, a: seq<X>, b: seq<X>)
    ensures FlatMap(f, a + b) == FlatMap(f, a) + FlatMap(f, b)
    decreases a
  {
    if a == [] {
      assert a + b == b;
    } else {
      FlatMapAppend(f, a[1..], b);
      assert (a + b)[1..] == a[1..] + b;
    }
  }

  lemma FlatMapOne<X, Y>(f: X -> seq<Y>, x: X)
    ensures FlatMap(f, [x]) == f(x)
  {
    assert [x][1..] == [];
  }

  lemma FlatMapStep<X, Y>(f: X -> seq<Y>, xs: seq<X>, k: nat)
    requires k < |xs|
    ensures FlatMap(f, xs[..k + 1]) == FlatMap(f, xs[..k]) + f(xs[k])
  {
    assert xs[..k + 1] == xs[..k] + [xs[k]];
    FlatMapAppend(f, xs[..k], [xs[k]]);
    FlatMapOne(f, xs[k]);
  }

  lemma Regroup<X>(a: seq<X>, b: seq<X>, c: seq<X>)
    ensures a + b + c == a + (b + c)
  {
  }

  function Count<X>(p: X -> bool, xs: seq<X>): nat
    decreases xs
  {
    if xs == [] then 0 else (if p(xs[0]) then 1 else 0) + Count(p, xs[1..])
  }

  lemma {:induction false} CountAppend<X>(p: X -> bool, a: seq<X>, b: seq<X>)
    ensures Count(p, a + b) == Count(p, a) + Count(p, b)
    decreases a
  {
    if a == [] {
      assert a + b == b;
    } else {
      CountAppend(p, a[1..], b);
      assert (a + b)[1..] == a[1..] + b;
    }
  }

  lemma CountOne<X>(p: X -> bool, x: X)
    ensures Count(p, [x]) == if p(x) then 1 else 0
  {
    assert [x][1..] == [];
  }

  lemma {:induction false} CountPositive<X>(p: X -> bool, xs: seq<X>)
    ensures Count(p, xs) > 0 <==> exists i :: 0 <= i < |xs| && p(xs[i])
    decreases xs
  {
    if xs != [] {
      CountPositive(p, xs[1..]);
      if Count(p, xs[1..]) > 0 {
        var i :| 0 <= i < |xs[1..]| && p(xs[1..][i]);
        assert p(xs[i + 1]);
      } else {
        assert forall i | 1 <= i < |xs| :: xs[i] == xs[1..][i - 1];
      }
    }
  }

  function Erase<T>(xs: seq<T>, i: nat): (left: seq<T>)
    requires i < |xs|
    ensures |left| == |xs| - 1
  {
    xs[..i] + xs[i + 1..]
  }

  lemma CountErased<X>(p: X -> bool, xs: seq<X>, i: nat)
    requires i < |xs|
    ensures Count(p, xs) == Count(p, Erase(xs, i)) + (if p(xs[i]) then 1 else 0)
  {
    var before, rest := xs[..i], xs[i..];
    assert xs == before + rest;
    CountAppend(p, before, rest);
    assert rest[0] == xs[i] && rest[1..] == xs[i + 1..];
    CountAppend(p, before, xs[i + 1..]);
  }
}
