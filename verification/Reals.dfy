/**
 Products and quotients of reals under two names, with the algebra the other modules use. Proofs
 elsewhere hide the two definitions and work from these lemmas, which keeps their arithmetic linear.
 */
module Reals {

  function Times(x: real, y: real): real {
    x * y
  }

  function Over(x: real, y: real): real
    requires y != 0.0
  {
    x / y
  }

  lemma TimesNonNeg(x: real, y: real)
    requires x >= 0.0 && y >= 0.0
    ensures Times(x, y) >= 0.0
  {
  }

  lemma TimesMono(x: real, y: real, k: real)
    requires x <= y && k >= 0.0
    ensures Times(x, k) <= Times(y, k) && Times(k, x) <= Times(k, y)
  {
    assert (y - x) * k >= 0.0;
  }

  lemma TimesAdd(x: real, y: real, k: real)
    ensures Times(x + y, k) == Times(x, k) + Times(y, k)
    ensures Times(x - y, k) == Times(x, k) - Times(y, k)
  {
  }

  lemma TimesComm(x: real, y: real)
    ensures Times(x, y) == Times(y, x)
  {
  }

  lemma TimesAssoc(x: real, y: real, z: real)
    ensures Times(Times(x, y), z) == Times(x, Times(y, z))
  {
  }

  lemma TimesUnit(x: real)
    ensures Times(1.0, x) == x == Times(x, 1.0) && Times(0.0, x) == 0.0 == Times(x, 0.0)
  {
  }

  lemma OverTimes(a: real, b: real)
    requires b != 0.0
    ensures Times(Over(a, b), b) == a
  {
  }

  lemma OverUnique(a: real, b: real, q: real)
    requires b != 0.0 && Times(q, b) == a
    ensures Over(a, b) == q
  {
  }

  lemma OverAdd(a: real, b: real, c: real)
    requires c != 0.0
    ensures Over(a + b, c) == Over(a, c) + Over(b, c)
    ensures Over(a - b, c) == Over(a, c) - Over(b, c)
  {
  }

  lemma OverAtLeast(a: real, b: real, k: real)
    requires b > 0.0
    ensures Over(a, b) >= k <==> a >= Times(k, b)
  {
    var q := a / b;
    assert a == q * b;
    if q >= k {
      assert (q - k) * b >= 0.0;
    } else {
      assert (k - q) * b > 0.0;
    }
  }

  lemma OverAtMost(a: real, b: real, k: real)
    requires b > 0.0
    ensures Over(a, b) <= k <==> a <= Times(k, b)
  {
    var q := a / b;
    assert a == q * b;
    if q <= k {
      assert (k - q) * b >= 0.0;
    } else {
      assert (q - k) * b > 0.0;
    }
  }

  /** A weight in [0,1] shrinks a non-negative number. */
  lemma Weighted(x: real, l: real)
    requires x >= 0.0 && 0.0 <= l <= 1.0
    ensures 0.0 <= Times(x, l) <= x
  {
    hide Times;
    TimesNonNeg(x, l);
    TimesMono(l, 1.0, x);
    TimesUnit(x);
  }

  function Min(x: real, y: real): real {
    if x <= y then x else y
  }

  function Max(x: real, y: real): real {
    if x >= y then x else y
  }

  function Abs(x: real): real {
    if x < 0.0 then -x else x
  }

  lemma AbsTimes(d: real, f: real)
    requires f >= 0.0
    ensures Abs(Times(d, f)) == Times(Abs(d), f)
  {
    if d >= 0.0 {
      TimesNonNeg(d, f);
    } else {
      TimesNonNeg(-d, f);
    }
  }

  function Power(x: real, n: nat): real {
    if n == 0 then 1.0 else Times(x, Power(x, n - 1))
  }

  lemma {:induction false} PowerNonNeg(x: real, n: nat)
    requires x >= 0.0
    ensures Power(x, n) >= 0.0
  {
    if n > 0 {
      PowerNonNeg(x, n - 1);
      TimesNonNeg(x, Power(x, n - 1));
    }
  }
}
