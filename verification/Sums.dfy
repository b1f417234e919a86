/** Finite sums over sequences, the only arithmetic the ledgers of this project need. */
module Sums {

  ghost function Sum<T>(xs: seq<T>, f: T -> nat): nat
  {
    if xs == [] then 0 else Sum(xs[..|xs| - 1], f) + f(xs[|xs| - 1])
  }

  lemma SumOne<T>(x: T, f: T -> nat)
    ensures Sum([x], f) == f(x)
  {
    assert [x][..0] == [];
  }

  lemma SumSnoc<T>(xs: seq<T>, x: T, f: T -> nat)
    ensures Sum(xs + [x], f) == Sum(xs, f) + f(x)
  {
    assert (xs + [x])[..|xs|] == xs;
  }

  lemma {:induction false} SumConcat<T>(xs: seq<T>, ys: seq<T>, f: T -> nat)
    ensures Sum(xs + ys, f) == Sum(xs, f) + Sum(ys, f)
  {
    if ys == [] {
      assert xs + ys == xs;
    } else {
      var init := ys[..|ys| - 1];
      assert (xs + ys)[..|xs + ys| - 1] == xs + init;
      SumConcat(xs, init, f);
    }
  }

  lemma SumCons<T>(x: T, xs: seq<T>, f: T -> nat)
    ensures Sum([x] + xs, f) == f(x) + Sum(xs, f)
  {
    SumConcat([x], xs, f);
    SumOne(x, f);
  }

  /** Dropping the element at position `i` lowers the sum by its weight. */
  lemma SumWithout<T>(xs: seq<T>, i: nat, f: T -> nat)
    requires i < |xs|
    ensures Sum(xs, f) == Sum(xs[..i] + xs[i + 1..], f) + f(xs[i])
  {
    assert xs == xs[..i] + ([xs[i]] + xs[i + 1..]);
    SumConcat(xs[..i], [xs[i]] + xs[i + 1..], f);
    SumCons(xs[i], xs[i + 1..], f);
    SumConcat(xs[..i], xs[i + 1..], f);
  }

  /** A sum of equal weights is a product. */
  lemma {:induction false} SumConstant<T>(xs: seq<T>, f: T -> nat, c: nat)
    requires forall i :: 0 <= i < |xs| ==> f(xs[i]) == c
    ensures Sum(xs, f) == |xs| * c
  {
    if xs != [] {
      SumConstant(xs[..|xs| - 1], f, c);
      assert |xs| * c == (|xs| - 1) * c + c;
    }
  }

  function Filter<T>(xs: seq<T>, keep: T -> bool): (ys: seq<T>)
    ensures forall i :: 0 <= i < |ys| ==> ys[i] in xs && keep(ys[i])
    ensures forall i :: 0 <= i < |xs| && keep(xs[i]) ==> xs[i] in ys
  {
    if xs == [] then []
    else
      assert xs == [xs[0]] + xs[1..];
      (if keep(xs[0]) then [xs[0]] else []) + Filter(xs[1..], keep)
  }

  lemma {:induction false} FilterSnoc<T>(xs: seq<T>, x: T, keep: T -> bool)
    ensures Filter(xs + [x], keep) == Filter(xs, keep) + (if keep(x) then [x] else [])
  {
    if xs != [] {
      assert (xs + [x])[1..] == xs[1..] + [x];
      FilterSnoc(xs[1..], x, keep);
    } else {
      assert xs + [x] == [x];
    }
  }

  lemma SumTail<T>(xs: seq<T>, x: T, present: bool, f: T -> nat)
    ensures Sum(xs + (if present then [x] else []), f) == Sum(xs, f) + (if present then f(x) else 0)
  {
    SumSnoc(xs, x, f);
    assert xs + [] == xs;
  }

  /** A filter and its complement split every sum in two. */
  lemma {:induction false} SumSplit<T>(xs: seq<T>, keep: T -> bool, drop: T -> bool, f: T -> nat)
    requires forall i :: 0 <= i < |xs| ==> drop(xs[i]) == !keep(xs[i])
    ensures Sum(xs, f) == Sum(Filter(xs, keep), f) + Sum(Filter(xs, drop), f)
  {
    if xs != [] {
      var init, last := xs[..|xs| - 1], xs[|xs| - 1];
      assert xs == init + [last];
      SumSplit(init, keep, drop, f);
      FilterSnoc(init, last, keep);
      FilterSnoc(init, last, drop);
      SumTail(Filter(init, keep), last, keep(last), f);
      SumTail(Filter(init, drop), last, drop(last), f);
    }
  }
}
