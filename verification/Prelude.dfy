/** Small vocabulary shared by every other module. */
module Prelude {

  datatype Option<+T> = None | Some(value: T)

  /** The sum of `f` over a sequence. */
  function Total<T>(f: T -> nat, xs: seq<T>): (n: nat)
  {
    if xs == [] then 0 else f(xs[0]) + Total(f, xs[1..])
  }

  lemma {:induction false} TotalConcat<T>(f: T -> nat, xs: seq<T>, ys: seq<T>)
    ensures Total(f, xs + ys) == Total(f, xs) + Total(f, ys)
  {
    if xs == [] {
      assert xs + ys == ys;
    } else {
      assert (xs + ys)[1..] == xs[1..] + ys;
      TotalConcat(f, xs[1..], ys);
    }
  }

  /** Replacing one element by a sequence changes a total by the difference. */
  lemma TotalReplace<T>(f: T -> nat, xs: seq<T>, i: nat, ys: seq<T>)
    requires i < |xs|
    ensures Total(f, xs[..i] + ys + xs[i + 1..]) + f(xs[i]) == Total(f, xs) + Total(f, ys)
  {
    assert xs == xs[..i] + ([xs[i]] + xs[i + 1..]);
    TotalConcat(f, xs[..i], [xs[i]] + xs[i + 1..]);
    TotalConcat(f, [xs[i]], xs[i + 1..]);
    assert xs[..i] + ys + xs[i + 1..] == xs[..i] + (ys + xs[i + 1..]);
    TotalConcat(f, xs[..i], ys + xs[i + 1..]);
    TotalConcat(f, ys, xs[i + 1..]);
    assert [xs[i]][1..] == [];
    assert Total(f, [xs[i]]) == f(xs[i]);
  }

  lemma TotalPush<T>(f: T -> nat, xs: seq<T>, x: T)
    ensures Total(f, xs + [x]) == Total(f, xs) + f(x)
  {
    TotalConcat(f, xs, [x]);
    assert [x][1..] == [];
  }

  lemma {:induction false} TotalMonotone<T>(f: T -> nat, g: T -> nat, xs: seq<T>)
    requires forall x :: x in xs ==> f(x) <= g(x)
    ensures Total(f, xs) <= Total(g, xs)
  {
    if xs != [] { TotalMonotone(f, g, xs[1..]); }
  }

  /** The elements of `xs` that satisfy `p`, in order. */
  function Filter<T(!new)>(p: T -> bool, xs: seq<T>): (ys: seq<T>)
    ensures |ys| <= |xs|
    ensures forall y :: y in ys <==> y in xs && p(y)
  {
    if xs == [] then []
    else if p(xs[0]) then [xs[0]] + Filter(p, xs[1..])
    else Filter(p, xs[1..])
  }

  lemma {:induction false} FilterConcat<T(!new)>(p: T -> bool, xs: seq<T>, ys: seq<T>)
    ensures Filter(p, xs + ys) == Filter(p, xs) + Filter(p, ys)
  {
    if xs == [] {
      assert xs + ys == ys;
    } else {
      assert (xs + ys)[1..] == xs[1..] + ys;
      FilterConcat(p, xs[1..], ys);
    }
  }

  lemma FilterOne<T(!new)>(p: T -> bool, xs: seq<T>)
    ensures Filter(p, []) == []
    ensures forall i :: 0 <= i < |xs| ==> Filter(p, [xs[i]]) == if p(xs[i]) then [xs[i]] else []
  {
  }

  ghost predicate Distinct<T>(xs: seq<T>) {
    forall i, j :: 0 <= i < j < |xs| ==> xs[i] != xs[j]
  }

  lemma DistinctAppend<T>(xs: seq<T>, ys: seq<T>)
    requires Distinct(xs) && Distinct(ys) && forall x, y :: x in xs && y in ys ==> x != y
    ensures Distinct(xs + ys)
  {
    var zs := xs + ys;
    forall i, j | 0 <= i < j < |zs| ensures zs[i] != zs[j] {
      if i < |xs| <= j { assert zs[i] in xs && zs[j] in ys; }
    }
  }

  lemma {:induction false} SubsetSize<T>(a: set<T>, b: set<T>)
    requires a <= b
    ensures |a| <= |b|
  {
    if a != {} {
      var x :| x in a;
      SubsetSize(a - {x}, b - {x});
    }
  }

  /** Distinct elements of a set are no more than the set has. */
  lemma {:induction false} DistinctSize<T>(xs: seq<T>, all: set<T>)
    requires Distinct(xs) && forall x :: x in xs ==> x in all
    ensures |xs| <= |all|
  {
    if xs != [] {
      assert xs[0] in all;
      forall x | x in xs[1..] ensures x in all - {xs[0]} {
        var i :| 0 <= i < |xs| - 1 && xs[1..][i] == x;
        assert xs[i + 1] == x && x in xs;
      }
      DistinctSize(xs[1..], all - {xs[0]});
    }
  }
}
