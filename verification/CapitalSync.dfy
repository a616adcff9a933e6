/**
 Whole runs of the live wallet: the boot allocation and the 60-second capital poll of
 daemons/system_controller.py interleaved with reservations, releases and operator edits of the
 capital limit. A ledger of open reservations, profits, losses and clipped cash is carried beside
 the wallet, and the books are proved to balance after every step.
 */
module CapitalSync {
  import opened Sums
  import opened Margin
  import opened Reals

  const HEDGE_RESERVE_PCT := 0.15

  /**
   The wallet, the controller's last seen limit and allocation, and the history of the run:
   reservations not yet released, and the totals of profit, loss and clipped cash so far.
   */
  datatype Ledger = Ledger(
    wallet: Wallet,
    lastLimit: real,
    lastCash: real,
    lastColl: real,
    open: seq<real>,
    profits: real,
    losses: real,
    clipped: real)

  /**
   Release closes the reservation at `index`; `known` says whether the caller passes its original
   margin or relies on the fallback. EditLimit is the operator writing the limit key, which is the
   key the release script reads. Poll is one round of the controller's loop.
   */
  datatype Event =
    | Reserve(required: real)
    | Release(index: nat, amount: real, known: bool)
    | EditLimit(limit: real)
    | Poll(haircut: real)

  ghost predicate Legal(l: Ledger, e: Event) {
    match e
    case Reserve(required) => required >= 0.0
    case Release(index, amount, _) => index < |l.open| && amount >= 0.0
    case EditLimit(_) => true
    case Poll(haircut) => 0.0 <= haircut <= 1.0
  }

  function CashAllocation(limit: real): real {
    limit * (1.0 - HEDGE_RESERVE_PCT) * 0.5
  }

  function CollAllocation(limit: real, haircut: real): real {
    limit * (1.0 - HEDGE_RESERVE_PCT) * 0.5 * haircut
  }

  function Boot(limit: real): Ledger {
    var cash, coll := CashAllocation(limit), CollAllocation(limit, 1.0);
    Ledger(Wallet(cash, coll, limit), limit, cash, coll, [], 0.0, 0.0, 0.0)
  }

  function PollStep(l: Ledger, haircut: real): Ledger {
    var limitNow := l.wallet.limit;
    if limitNow == l.lastLimit then l
    else
      var cash, coll := CashAllocation(limitNow), CollAllocation(limitNow, haircut);
      l.(wallet := SyncStep(l.wallet, cash - l.lastCash, coll - l.lastColl, limitNow),
         lastLimit := limitNow, lastCash := cash, lastColl := coll)
  }

  ghost function Original(l: Ledger, e: Event): real
    requires e.Release? && Legal(l, e)
  {
    if e.known then l.open[e.index] else 0.0
  }

  ghost function Step(l: Ledger, e: Event): Ledger
    requires Legal(l, e)
  {
    match e
    case Reserve(required) =>
      var (w, code) := ReserveStep(l.wallet, required);
      l.(wallet := w, open := if code == ADMITTED then l.open + [required] else l.open)
    case Release(index, amount, known) =>
      var w := ReleaseStep(l.wallet, amount, Original(l, e));
      l.(wallet := w,
         open := Drop(l.open, index),
         profits := l.profits + Max(0.0, amount - l.open[index]),
         losses := l.losses + Max(0.0, l.open[index] - amount),
         clipped := l.clipped + (l.wallet.Total() + amount - w.Total()))
    case EditLimit(limit) => l.(wallet := l.wallet.(limit := limit))
    case Poll(haircut) => PollStep(l, haircut)
  }

  ghost predicate LegalRun(l: Ledger, es: seq<Event>)
    decreases |es|
  {
    es == [] || (Legal(l, es[0]) && LegalRun(Step(l, es[0]), es[1..]))
  }

  ghost function Run(l: Ledger, es: seq<Event>): Ledger
    requires LegalRun(l, es)
    decreases |es|
  {
    if es == [] then l else Run(Step(l, es[0]), es[1..])
  }

  // ------------------------------------------------------------ conservation

  /** Every rupee of the latest allocation, and every rupee of profit, is accounted for. */
  ghost predicate BooksBalance(l: Ledger) {
    l.wallet.Total() + Sum(l.open) + l.losses + l.clipped == l.lastCash + l.lastColl + l.profits
  }

  /** How far the collateral, with half of what is out or lost put back, exceeds its allocation. */
  ghost function Backing(l: Ledger): real {
    l.wallet.coll + (Sum(l.open) + l.losses) * 0.5 - l.lastColl
  }

  /** The collateral is short of its allocation by at most half of what is out or lost. */
  ghost predicate CollateralBacked(l: Ledger) {
    Backing(l) >= 0.0
  }

  ghost predicate Good(l: Ledger) {
    && AllNonNegative(l.open)
    && l.profits >= 0.0 && l.losses >= 0.0
    && BooksBalance(l)
    && CollateralBacked(l)
    && l.lastCash == CashAllocation(l.lastLimit)
    && l.lastCash + l.lastColl <= 0.85 * Max(l.lastLimit, 0.0)
  }

  lemma AllocationBound(limit: real, haircut: real)
    requires 0.0 <= haircut <= 1.0
    ensures CashAllocation(limit) + CollAllocation(limit, haircut) <= 0.85 * Max(limit, 0.0)
  {
    var half := limit * (1.0 - HEDGE_RESERVE_PCT) * 0.5;
    if limit > 0.0 {
      assert half * haircut <= half * 1.0;
    } else {
      assert half * haircut <= 0.0;
    }
  }

  lemma DropNonNegative(xs: seq<real>, i: nat)
    requires i < |xs| && AllNonNegative(xs)
    ensures AllNonNegative(Drop(xs, i))
  {
  }

  lemma ReserveKeepsBacking(l: Ledger, e: Event)
    requires AllNonNegative(l.open) && Legal(l, e) && e.Reserve?
    ensures AllNonNegative(Step(l, e).open) && Backing(Step(l, e)) >= Backing(l)
  {
    ReserveAdmitted(l.wallet, e.required);
    SumAppend(l.open, [e.required]);
    assert Sum([e.required]) == e.required;
  }

  lemma ReleaseKeepsBacking(l: Ledger, e: Event)
    requires AllNonNegative(l.open) && Legal(l, e) && e.Release?
    ensures AllNonNegative(Step(l, e).open) && Backing(Step(l, e)) >= Backing(l)
  {
    hide Sum, Drop;
    DropFacts(l.open, e.index);
    DropNonNegative(l.open, e.index);
    var o := EffectiveOriginal(e.amount, Original(l, e));
    var w := ReleaseStep(l.wallet, e.amount, Original(l, e));
    assert w.coll == l.wallet.coll + Min(e.amount, o) * 0.5;
    assert Min(e.amount, o) >= Min(e.amount, l.open[e.index]);
  }

  /** No event, from any wallet, lowers the backing of the collateral. */
  lemma StepKeepsBacking(l: Ledger, e: Event)
    requires AllNonNegative(l.open) && Legal(l, e)
    ensures AllNonNegative(Step(l, e).open) && Backing(Step(l, e)) >= Backing(l)
  {
    match e
    case Reserve(_) => ReserveKeepsBacking(l, e);
    case Release(_, _, _) => ReleaseKeepsBacking(l, e);
    case EditLimit(_) =>
    case Poll(_) =>
  }

  lemma {:induction false} RunKeepsBacking(l: Ledger, es: seq<Event>)
    requires AllNonNegative(l.open) && LegalRun(l, es)
    ensures AllNonNegative(Run(l, es).open) && Backing(Run(l, es)) >= Backing(l)
    decreases |es|
  {
    if es != [] {
      hide Step, Backing;
      StepKeepsBacking(l, es[0]);
      RunKeepsBacking(Step(l, es[0]), es[1..]);
    }
  }

  /**
   Over every legal run, clipped or not and from any wallet, that starts and ends with nothing reserved and
   loses nothing in between, the collateral never ends below its start, but for the change of its allocation.
   */
  lemma CollateralNeverFalls(l: Ledger, es: seq<Event>)
    requires l.open == [] && LegalRun(l, es)
    ensures var l' := Run(l, es);
            l'.open == [] && l'.losses == l.losses ==>
              l'.wallet.coll >= l.wallet.coll + (l'.lastColl - l.lastColl)
  {
    RunKeepsBacking(l, es);
  }

  lemma ReserveKeepsGood(l: Ledger, e: Event)
    requires Good(l) && Legal(l, e) && e.Reserve?
    ensures Good(Step(l, e))
  {
    ReserveKeepsBacking(l, e);
    ReserveAdmitted(l.wallet, e.required);
    SumAppend(l.open, [e.required]);
    assert Sum([e.required]) == e.required;
  }

  lemma ReleaseKeepsGood(l: Ledger, e: Event)
    requires Good(l) && Legal(l, e) && e.Release?
    ensures Good(Step(l, e))
  {
    hide Sum, Drop, Backing;
    ReleaseKeepsBacking(l, e);
    DropFacts(l.open, e.index);
  }

  lemma PollKeepsGood(l: Ledger, e: Event)
    requires Good(l) && Legal(l, e) && e.Poll?
    ensures Good(Step(l, e))
  {
    AllocationBound(l.wallet.limit, e.haircut);
  }

  lemma StepKeepsGood(l: Ledger, e: Event)
    requires Good(l) && Legal(l, e)
    ensures Good(Step(l, e))
  {
    match e
    case Reserve(_) => ReserveKeepsGood(l, e);
    case Release(_, _, _) => ReleaseKeepsGood(l, e);
    case EditLimit(_) =>
    case Poll(_) => PollKeepsGood(l, e);
  }

  /** Conservation over every legal run, clipped or not, from any balanced ledger. */
  lemma {:induction false} RunKeepsGood(l: Ledger, es: seq<Event>)
    requires Good(l) && LegalRun(l, es)
    ensures Good(Run(l, es))
    decreases |es|
  {
    if es != [] {
      StepKeepsGood(l, es[0]);
      RunKeepsGood(Step(l, es[0]), es[1..]);
    }
  }

  lemma BootIsGood(limit: real)
    ensures Good(Boot(limit))
  {
    AllocationBound(limit, 1.0);
  }

  /**
   From boot on: the books balance, and once every reservation has been returned in full the
   collateral is at least its allocation; between any two points of the run with nothing reserved and
   nothing lost in between, it never ends below its start but for the change of its allocation.
   */
  lemma VaultConservation(limit: real, es: seq<Event>, later: seq<Event>)
    requires LegalRun(Boot(limit), es) && LegalRun(Run(Boot(limit), es), later)
    ensures var l, l' := Run(Boot(limit), es), Run(Run(Boot(limit), es), later);
            && l.wallet.Total() + Sum(l.open) + l.losses + l.clipped == l.lastCash + l.lastColl + l.profits
            && (l.open == [] && l.losses == 0.0 ==> l.wallet.coll >= l.lastColl)
            && (l.open == [] && l'.open == [] && l'.losses == l.losses ==>
                  l'.wallet.coll >= l.wallet.coll + (l'.lastColl - l.lastColl))
  {
    BootIsGood(limit);
    RunKeepsGood(Boot(limit), es);
    var l := Run(Boot(limit), es);
    if l.open == [] {
      CollateralNeverFalls(l, later);
    }
  }

  // ------------------------------------------------------------ the ceiling

  ghost predicate ClipFires(l: Ledger, e: Event)
    requires Legal(l, e)
  {
    e.Release? && Clips(l.wallet, e.amount, EffectiveOriginal(e.amount, Original(l, e)))
  }

  /**
   When exactly the ceiling fires: what the allocation and the profits leave after all that is
   still out, lost or clipped must exceed the tolerance over the limit key as it stands now.
   */
  lemma ClipFiresIff(l: Ledger, e: Event)
    requires Good(l) && Legal(l, e) && e.Release?
    ensures var out := Sum(l.open) - l.open[e.index];
            var gain := e.amount - l.open[e.index];
            ClipFires(l, e) <==>
              l.wallet.limit > 0.0 &&
              l.lastCash + l.lastColl + l.profits - l.losses - l.clipped - out + gain > l.wallet.limit * 1.02
  {
  }

  /**
   A run in which the operator never leaves the limit key below the limit last synced while a
   release happens, and in which the profits stay within 17% of that limit.
   */
  ghost predicate Calm(l: Ledger, es: seq<Event>)
    requires LegalRun(l, es)
    decreases |es|
  {
    es == [] ||
    (var l' := Step(l, es[0]);
     && (es[0].Release? ==> l.wallet.limit >= l.lastLimit && l'.profits <= 0.17 * Max(l.lastLimit, 0.0))
     && Calm(l', es[1..]))
  }

  /** In a calm run the ceiling never fires: nothing is ever clipped. */
  lemma {:induction false} CalmRunIsNeverClipped(l: Ledger, es: seq<Event>)
    requires Good(l) && LegalRun(l, es) && Calm(l, es) && l.clipped == 0.0
    ensures Run(l, es).clipped == 0.0
    ensures forall i :: 0 <= i < |es| ==>
              LegalRun(l, es[..i]) && Legal(Run(l, es[..i]), es[i]) && !ClipFires(Run(l, es[..i]), es[i])
    decreases |es|
  {
    if es != [] {
      var e := es[0];
      StepKeepsGood(l, e);
      if e.Release? {
        ClipFiresIff(l, e);
        SumNonNegative(l.open);
        assert !ClipFires(l, e);
      }
      CalmRunIsNeverClipped(Step(l, e), es[1..]);
      forall i | 0 <= i < |es|
        ensures LegalRun(l, es[..i]) && Legal(Run(l, es[..i]), es[i]) && !ClipFires(Run(l, es[..i]), es[i])
      {
        if i > 0 {
          assert es[..i][1..] == es[1..][..i - 1];
          assert es[..i][0] == e;
        }
      }
    }
  }

  /** With profits inside the hedge reserve and no pending cut of the limit, nothing is lost to the ceiling. */
  lemma CalmConservation(limit: real, es: seq<Event>)
    requires LegalRun(Boot(limit), es) && Calm(Boot(limit), es)
    ensures var l := Run(Boot(limit), es);
            l.wallet.Total() + Sum(l.open) + l.losses == l.lastCash + l.lastColl + l.profits
  {
    BootIsGood(limit);
    RunKeepsGood(Boot(limit), es);
    CalmRunIsNeverClipped(Boot(limit), es);
  }

  /**
   The window between an operator's cut and the next poll: an ordinary full release, with no profit
   at all, is clipped, and all 42.5 of the cash component is gone.
   */
  lemma PendingCutClips()
    ensures var es := [Reserve(20.0), EditLimit(10.0), Release(0, 20.0, true)];
            && LegalRun(Boot(100.0), es)
            && Run(Boot(100.0), es).clipped == 42.5
  {
    var es := [Reserve(20.0), EditLimit(10.0), Release(0, 20.0, true)];
    var l0 := Boot(100.0);
    assert l0 == Ledger(Wallet(42.5, 42.5, 100.0), 100.0, 42.5, 42.5, [], 0.0, 0.0, 0.0);
    var l1 := Step(l0, es[0]);
    assert l1 == Ledger(Wallet(32.5, 32.5, 100.0), 100.0, 42.5, 42.5, [20.0], 0.0, 0.0, 0.0) by {
      assert l0.open + [20.0] == [20.0];
    }
    var l2 := Step(l1, es[1]);
    assert l2 == l1.(wallet := Wallet(32.5, 32.5, 10.0));
    var l3 := Step(l2, es[2]);
    assert l3.clipped == 42.5 by {
      assert ReleaseStep(l2.wallet, 20.0, 20.0) == Wallet(0.0, 42.5, 10.0);
    }
    RunOfThree(l0, es);
  }

  lemma RunOfThree(l: Ledger, es: seq<Event>)
    requires |es| == 3
    requires Legal(l, es[0]) && Legal(Step(l, es[0]), es[1]) && Legal(Step(Step(l, es[0]), es[1]), es[2])
    ensures LegalRun(l, es) && Run(l, es) == Step(Step(Step(l, es[0]), es[1]), es[2])
  {
    var l1 := Step(l, es[0]);
    var l2 := Step(l1, es[1]);
    var t1 := es[1..];
    var t2 := t1[1..];
    assert t1[0] == es[1] && t2[0] == es[2] && t2[1..] == [];
    assert LegalRun(l2, t2) && Run(l2, t2) == Step(l2, es[2]);
    assert LegalRun(l1, t1) && Run(l1, t1) == Step(l2, es[2]);
  }

  // ------------------------------------------------------------ the controller

  /** The controller's own fields, with the manager whose live wallet it adjusts. */
  class SystemController {
    var lastLiveLimit: real
    var lastCashLive: real
    var lastCollLive: real
    const margin: MarginManager

    /** Boot: the wallet is overwritten with the fresh allocation of the stored limit. */
    constructor (margin: MarginManager)
      modifies margin
      ensures this.margin == margin
      ensures margin.paper == old(margin.paper)
      ensures var b := Boot(old(margin.live.limit));
              && margin.live == b.wallet
              && lastLiveLimit == b.lastLimit && lastCashLive == b.lastCash && lastCollLive == b.lastColl
      ensures var limit := old(margin.live.limit);
              && margin.live == Wallet(0.425 * limit, 0.425 * limit, limit)
              && lastLiveLimit == limit && lastCashLive == lastCollLive == 0.425 * limit
    {
      var limit := margin.live.limit;
      var eff := limit * (1.0 - HEDGE_RESERVE_PCT);
      this.margin := margin;
      lastLiveLimit, lastCashLive, lastCollLive := limit, eff * 0.5, eff * 0.5;
      new;
      margin.live := Wallet(eff * 0.5, eff * 0.5, limit);
    }

    /** One round of the periodic margin sync, on any ledger that mirrors the fields. */
    method PollOnce(haircut: real, ghost l: Ledger)
      requires l.wallet == margin.live
      requires l.lastLimit == lastLiveLimit && l.lastCash == lastCashLive && l.lastColl == lastCollLive
      modifies this, margin
      ensures margin.paper == old(margin.paper)
      ensures var l' := PollStep(l, haircut);
              && margin.live == l'.wallet
              && lastLiveLimit == l'.lastLimit && lastCashLive == l'.lastCash && lastCollLive == l'.lastColl
      ensures var before, limit := old(margin.live), old(margin.live.limit);
              if limit == old(lastLiveLimit) then
                && margin.live == before && lastLiveLimit == limit
                && lastCashLive == old(lastCashLive) && lastCollLive == old(lastCollLive)
              else
                && lastLiveLimit == margin.live.limit == limit
                && lastCashLive == 0.425 * limit && lastCollLive == 0.425 * limit * haircut
                && margin.live.cash == before.cash + lastCashLive - old(lastCashLive)
                && margin.live.coll == before.coll + lastCollLive - old(lastCollLive)
    {
      var limitNow := margin.live.limit;
      if limitNow != lastLiveLimit {
        var eff := limitNow * (1.0 - HEDGE_RESERVE_PCT);
        var cashNew := eff * 0.5;
        var collNew := (eff * 0.5) * haircut;
        margin.SyncCapital(cashNew - lastCashLive, collNew - lastCollLive, limitNow, Actual);
        lastLiveLimit, lastCashLive, lastCollLive := limitNow, cashNew, collNew;
      }
    }
  }
}
