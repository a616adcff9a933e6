/**
 The margin vault of core/margin.py: three atomic scripts over the cash, collateral and limit keys
 of one wallet, and the manager object that routes each call to the live or the paper wallet.
 */
module Margin {
  import opened Sums
  import opened Reals

  /** The three Redis keys of one wallet. */
  datatype Wallet = Wallet(cash: real, coll: real, limit: real) {
    function Total(): real {
      cash + coll
    }
  }

  datatype ExecutionType = Actual | Live | Paper

  const ADMITTED := 1
  const INSUFFICIENT_TOTAL := -1
  const CASH_RATIO_BREACH := -2

  // ---------------------------------------------------------------- reserve

  /** The reserve script: the wallet afterwards and the code it returns. */
  function ReserveStep(w: Wallet, req: real): (Wallet, int) {
    if w.Total() < req then (w, INSUFFICIENT_TOTAL)
    else if w.cash < req * 0.5 then (w, CASH_RATIO_BREACH)
    else
      var collUse := Min(w.coll, req * 0.5);
      (Wallet(w.cash - (req - collUse), w.coll - collUse, w.limit), ADMITTED)
  }

  /** Reservations made one after another; the flag says whether every one was admitted. */
  function ReserveAll(w: Wallet, reqs: seq<real>): (Wallet, bool)
    decreases |reqs|
  {
    if reqs == [] then (w, true)
    else
      var (w', code) := ReserveStep(w, reqs[0]);
      if code != ADMITTED then (w', false) else ReserveAll(w', reqs[1..])
  }

  ghost predicate AllNonNegative(xs: seq<real>) {
    forall i :: 0 <= i < |xs| ==> xs[i] >= 0.0
  }

  /** What an admitted reservation leaves, whatever the split it was paid with. */
  lemma ReserveAdmitted(w: Wallet, req: real)
    requires req >= 0.0
    ensures ReserveStep(w, req).1 == 1 <==> w.cash + w.coll >= req && w.cash >= req * 0.5
    ensures ReserveStep(w, req).1 == -1 <==> w.cash + w.coll < req
    ensures ReserveStep(w, req).1 == -2 <==> w.cash + w.coll >= req && w.cash < req * 0.5
    ensures ReserveStep(w, req).1 == ADMITTED ==>
              var w' := ReserveStep(w, req).0;
              && w'.Total() == w.Total() - req
              && w'.coll == Max(w.coll - req * 0.5, 0.0)
              && w'.limit == w.limit
    ensures ReserveStep(w, req).1 != ADMITTED ==> ReserveStep(w, req).0 == w
  {
  }

  /** Two reservations and the single reservation of their sum cannot be told apart. */
  lemma ReserveTwice(w: Wallet, x: real, y: real)
    requires x >= 0.0 && y >= 0.0
    ensures ReserveAll(w, [x, y]).1 <==> ReserveStep(w, x + y).1 == ADMITTED
    ensures ReserveAll(w, [x, y]).1 ==> ReserveAll(w, [x, y]).0 == ReserveStep(w, x + y).0
  {
    var w' := ReserveStep(w, x).0;
    assert [x, y][1..] == [y];
    assert ReserveAll(w', [y]) == (ReserveStep(w', y).0, ReserveStep(w', y).1 == ADMITTED);
  }

  /**
   Path independence. A batch is admitted one by one exactly when its sum would be admitted at
   once, and both ways end in the same wallet, although every step takes a different split.
   */
  lemma {:induction false} PathIndependence(w: Wallet, reqs: seq<real>)
    requires reqs != [] && AllNonNegative(reqs)
    ensures ReserveAll(w, reqs).1 <==> ReserveStep(w, Sum(reqs)).1 == ADMITTED
    ensures ReserveAll(w, reqs).1 ==> ReserveAll(w, reqs).0 == ReserveStep(w, Sum(reqs)).0
    decreases |reqs|
  {
    var x, rest := reqs[0], reqs[1..];
    if rest == [] {
      assert Sum(rest) == 0.0;
    } else {
      var (w', code) := ReserveStep(w, x);
      SumNonNegative(rest);
      PathIndependence(w', rest);
      ReserveTwice(w, x, Sum(rest));
      assert [x, Sum(rest)][1..] == [Sum(rest)];
      assert ReserveAll(w', [Sum(rest)]) == (ReserveStep(w', Sum(rest)).0, ReserveStep(w', Sum(rest)).1 == ADMITTED);
    }
  }

  /** Any two orders of the same batch are both admitted or both refused, and end alike. */
  lemma OrderIndependence(w: Wallet, xs: seq<real>, ys: seq<real>)
    requires multiset(xs) == multiset(ys) && AllNonNegative(xs)
    ensures ReserveAll(w, xs).1 == ReserveAll(w, ys).1
    ensures ReserveAll(w, xs).1 ==> ReserveAll(w, xs).0 == ReserveAll(w, ys).0
  {
    assert |xs| == |multiset(xs)| == |multiset(ys)| == |ys|;
    if xs != [] {
      forall i | 0 <= i < |ys|
        ensures ys[i] >= 0.0
      {
        assert ys[i] in multiset(ys);
        assert ys[i] in xs;
      }
      SumPermutation(xs, ys);
      PathIndependence(w, xs);
      PathIndependence(w, ys);
    }
  }

  // ---------------------------------------------------------------- release

  /** The wallet the release script would write if it had no ceiling. */
  function Credit(w: Wallet, amount: real, original: real): Wallet {
    var profit := Max(0.0, amount - original);
    var principal := amount - profit;
    Wallet(w.cash + principal * 0.5 + profit, w.coll + principal * 0.5, w.limit)
  }

  predicate Clips(w: Wallet, amount: real, original: real) {
    var c := Credit(w, amount, original);
    c.limit > 0.0 && c.Total() > c.limit * 1.02
  }

  /** The release script. */
  function ReleaseScript(w: Wallet, amount: real, original: real): Wallet {
    var c := Credit(w, amount, original);
    if Clips(w, amount, original) then
      c.(cash := Max(0.0, c.cash - (c.Total() - c.limit)))
    else c
  }

  /** The fallback of the manager: a caller that does not know the original margin passes 0. */
  function EffectiveOriginal(amount: real, original: real): real {
    if original > 0.0 then original else amount
  }

  function ReleaseStep(w: Wallet, amount: real, original: real): Wallet {
    ReleaseScript(w, amount, EffectiveOriginal(amount, original))
  }

  /** The ceiling: one release never leaves more than the tolerance, or than the collateral alone. */
  lemma ReleaseCeiling(w: Wallet, amount: real, original: real)
    requires w.limit > 0.0
    ensures var o := if original > 0.0 then original else amount;
            var w' := ReleaseStep(w, amount, original);
            && w'.coll == w.coll + Min(amount, o) * 0.5
            && w'.Total() <= Max(w.limit * 1.02, w.coll + Min(amount, o) * 0.5)
            && (Clips(w, amount, o) ==> w'.Total() == Max(w.limit, w'.coll))
            && (!Clips(w, amount, o) ==> w'.Total() == w.Total() + amount)
  {
  }

  /**
   Reserving and giving everything back restores the total exactly, but not the split: the
   collateral comes back as at least half of the reservation.
   */
  lemma ReserveReleaseRoundTrip(w: Wallet, x: real)
    requires x >= 0.0 && ReserveStep(w, x).1 == ADMITTED
    ensures var w' := ReserveStep(w, x).0;
            !Clips(w', x, x) ==>
              var w'' := ReleaseStep(w', x, x);
              w''.Total() == w.Total() && w''.coll == Max(w.coll, x * 0.5)
    ensures var w' := ReserveStep(w, x).0;
            Clips(w', x, x) <==> w.limit > 0.0 && w.Total() > w.limit * 1.02
  {
  }

  /** Neither script drives a part of the wallet below zero. */
  lemma PartsStayNonNegative(w: Wallet, req: real, amount: real, original: real)
    requires w.cash >= 0.0 && w.coll >= 0.0
    ensures ReserveStep(w, req).0.cash >= 0.0 && ReserveStep(w, req).0.coll >= 0.0
    ensures amount >= 0.0 ==>
              ReleaseStep(w, amount, original).cash >= 0.0 && ReleaseStep(w, amount, original).coll >= 0.0
  {
  }

  // ---------------------------------------------------------------- sync

  function SyncStep(w: Wallet, deltaCash: real, deltaColl: real, newLimit: real): Wallet {
    Wallet(w.cash + deltaCash, w.coll + deltaColl, newLimit)
  }

  // ---------------------------------------------------------------- the manager

  class MarginManager {
    var live: Wallet
    var paper: Wallet

    constructor (live: Wallet, paper: Wallet)
      ensures this.live == live && this.paper == paper
    {
      this.live, this.paper := live, paper;
    }

    /** "Actual" and "Live" share one wallet; everything else is paper. */
    function Of(exec: ExecutionType): Wallet
      reads this
    {
      if exec == Paper then paper else live
    }

    /** The wallet that a call for `exec` does not touch. */
    function Other(exec: ExecutionType): Wallet
      reads this
    {
      if exec == Paper then live else paper
    }

    method Store(exec: ExecutionType, w: Wallet)
      modifies this
      ensures Of(exec) == w && Other(exec) == old(Other(exec))
      ensures if exec == Paper then live == old(live) else paper == old(paper)
    {
      if exec == Paper {
        paper := w;
      } else {
        live := w;
      }
    }

    method Reserve(required: real, exec: ExecutionType) returns (code: int)
      modifies this
      ensures (Of(exec), code) == ReserveStep(old(Of(exec)), required)
      ensures Other(exec) == old(Other(exec))
      ensures if exec == Paper then live == old(live) else paper == old(paper)
    {
      var w := Of(exec);
      if w.cash + w.coll < required {
        return INSUFFICIENT_TOTAL;
      }
      if w.cash < required * 0.5 {
        return CASH_RATIO_BREACH;
      }
      var collUse := if w.coll < required * 0.5 then w.coll else required * 0.5;
      var cashUse := required - collUse;
      Store(exec, w.(cash := w.cash - cashUse, coll := w.coll - collUse));
      code := ADMITTED;
    }

    method Release(amount: real, original: real, exec: ExecutionType) returns (total: real)
      modifies this
      ensures Of(exec) == ReleaseStep(old(Of(exec)), amount, original)
      ensures total == Of(exec).Total()
      ensures Other(exec) == old(Other(exec))
      ensures if exec == Paper then live == old(live) else paper == old(paper)
    {
      var orig := if original > 0.0 then original else amount;
      var w := Of(exec);
      var profit := if amount - orig > 0.0 then amount - orig else 0.0;
      var principalBack := amount - profit;
      var newCash := w.cash + (principalBack * 0.5 + profit);
      var newColl := w.coll + principalBack * 0.5;
      if w.limit > 0.0 && newCash + newColl > w.limit * 1.02 {
        var excess := newCash + newColl - w.limit;
        newCash := if newCash - excess > 0.0 then newCash - excess else 0.0;
      }
      Store(exec, w.(cash := newCash, coll := newColl));
      total := newCash + newColl;
    }

    method SyncCapital(deltaCash: real, deltaColl: real, newLimit: real, exec: ExecutionType)
      modifies this
      ensures Of(exec) == SyncStep(old(Of(exec)), deltaCash, deltaColl, newLimit)
      ensures Of(exec).cash == old(Of(exec)).cash + deltaCash && Of(exec).coll == old(Of(exec)).coll + deltaColl
      ensures Of(exec).limit == newLimit
      ensures Other(exec) == old(Other(exec))
      ensures if exec == Paper then live == old(live) else paper == old(paper)
    {
      var w := Of(exec);
      Store(exec, Wallet(w.cash + deltaCash, w.coll + deltaColl, newLimit));
    }
  }
}
