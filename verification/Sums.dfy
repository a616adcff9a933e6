/** Sums of real sequences, and what the other modules need to know of them. */
module Sums {

  function Sum(xs: seq<real>): real {
    if xs == [] then 0.0 else xs[0] + Sum(xs[1..])
  }

  lemma {:induction false} SumAppend(xs: seq<real>, ys: seq<real>)
    ensures Sum(xs + ys) == Sum(xs) + Sum(ys)
  {
    if xs == [] {
      assert xs + ys == ys;
    } else {
      assert (xs + ys)[1..] == xs[1..] + ys;
      SumAppend(xs[1..], ys);
    }
  }

  lemma SumCons(x: real, b: seq<real>)
    ensures Sum([x] + b) == x + Sum(b)
  {
    assert ([x] + b)[1..] == b;
  }

  lemma SumInsert(a: seq<real>, x: real, b: seq<real>)
    ensures Sum(a + ([x] + b)) == x + Sum(a + b)
  {
    hide Sum;
    SumAppend(a, [x] + b);
    SumAppend(a, b);
    SumCons(x, b);
  }

  /** The sequence without its element at `i`. */
  function Drop(xs: seq<real>, i: nat): (r: seq<real>)
    requires i < |xs|
    ensures |r| == |xs| - 1
  {
    xs[..i] + xs[i + 1..]
  }

  lemma MultisetInsert(a: seq<real>, x: real, b: seq<real>)
    ensures multiset(a + b) == multiset(a + ([x] + b)) - multiset{x}
  {
    assert multiset(a + ([x] + b)) == multiset(a) + (multiset{x} + multiset(b));
  }

  lemma Split(xs: seq<real>, i: nat)
    requires i < |xs|
    ensures xs == xs[..i] + ([xs[i]] + xs[i + 1..])
  {
  }

  /** Taking one element out lowers the sum, and the multiset, by that element. */
  lemma {:induction false} DropFacts(xs: seq<real>, i: nat)
    requires i < |xs|
    ensures Sum(xs) == xs[i] + Sum(Drop(xs, i))
    ensures multiset(Drop(xs, i)) == multiset(xs) - multiset{xs[i]}
  {
    hide Sum;
    Split(xs, i);
    var a, x, b := xs[..i], xs[i], xs[i + 1..];
    SumInsert(a, x, b);
    MultisetInsert(a, x, b);
  }

  lemma {:induction false} SumNonNegative(xs: seq<real>)
    requires forall i :: 0 <= i < |xs| ==> xs[i] >= 0.0
    ensures Sum(xs) >= 0.0
    ensures forall i :: 0 <= i < |xs| ==> xs[i] <= Sum(xs)
  {
    if xs != [] {
      SumNonNegative(xs[1..]);
      forall i | 0 <= i < |xs|
        ensures xs[i] <= Sum(xs)
      {
        if i > 0 {
          assert xs[i] == xs[1..][i - 1];
        }
      }
    }
  }

  /** Reordering does not change a sum. */
  lemma {:induction false} SumPermutation(xs: seq<real>, ys: seq<real>)
    requires multiset(xs) == multiset(ys)
    ensures Sum(xs) == Sum(ys)
    decreases |xs|
  {
    hide Sum, Drop;
    assert |xs| == |multiset(xs)| == |multiset(ys)| == |ys|;
    if xs == [] {
      assert xs == ys;
    } else {
      assert xs[0] in multiset(ys);
      var i :| 0 <= i < |ys| && ys[i] == xs[0];
      DropFacts(xs, 0);
      DropFacts(ys, i);
      SumPermutation(Drop(xs, 0), Drop(ys, i));
    }
  }
}
