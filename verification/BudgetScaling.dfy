/**
 Budget scaling and reservation in daemons/meta_router.py: the live intents of a batch are shrunk in
 proportion, rounded down to whole base lots, and then reserve their margin one by one.
 */
module BudgetScaling {
  import opened Sums
  import opened Reals
  import opened Margin

  datatype Asset = Nifty50 | BankNifty | Sensex | OtherAsset

  function BaseLot(asset: Asset): int {
    match asset
    case Nifty50 => 25
    case BankNifty => 15
    case Sensex => 10
    case OtherAsset => 1
  }

  const MARGIN_PER_LOT := 150000.0
  const MIN_SCALER := 0.2

  function Requirement(lots: real, iv: real): real {
    Times(lots * MARGIN_PER_LOT, 1.0 + iv)
  }

  /** The margin of so many lots: 150,000 for each, raised by the implied volatility. */
  ghost function MarginOf(lots: real, iv: real): real {
    lots * 150000.0 * (1.0 + iv)
  }

  lemma RequirementIs(lots: real, iv: real)
    ensures Requirement(lots, iv) == MarginOf(lots, iv)
  {
  }

  /** A snapshot of one intent. */
  datatype Order = Order(asset: Asset, iv: real, lots: real, isLive: bool) {
    function Margin(): real {
      Requirement(lots, iv)
    }
  }

  function LiveMargins(batch: seq<Order>): seq<real> {
    if batch == [] then []
    else (if batch[0].isLive then [batch[0].Margin()] else []) + LiveMargins(batch[1..])
  }

  /** The margins that are actually reserved on the live wallet: an intent without lots is skipped. */
  function Reservations(batch: seq<Order>): seq<real> {
    if batch == [] then []
    else (if batch[0].isLive && batch[0].lots > 0.0 then [batch[0].Margin()] else []) + Reservations(batch[1..])
  }

  function ScaledLots(o: Order, scaler: real): real {
    (Over(Times(o.lots, scaler), BaseLot(o.asset) as real).Floor * BaseLot(o.asset)) as real
  }

  function ScaleOrder(o: Order, scaler: real): Order {
    if o.isLive then o.(lots := ScaledLots(o, scaler), isLive := scaler >= MIN_SCALER) else o
  }

  function ScaleAll(batch: seq<Order>, scaler: real): seq<Order> {
    if batch == [] then [] else [ScaleOrder(batch[0], scaler)] + ScaleAll(batch[1..], scaler)
  }

  function EnforceBudget(batch: seq<Order>, available: real): seq<Order> {
    var required := Sum(LiveMargins(batch));
    if required > available && available > 0.0 then ScaleAll(batch, Over(available, required)) else batch
  }

  // ---------------------------------------------------------------- the intents themselves

  class Intent {
    const asset: Asset
    const iv: real
    var lots: real
    var isLive: bool
    var isPaper: bool

    constructor (asset: Asset, iv: real, lots: real, isLive: bool, isPaper: bool)
      ensures Snapshot() == Order(asset, iv, lots, isLive) && this.isPaper == isPaper
    {
      this.asset, this.iv, this.lots, this.isLive, this.isPaper := asset, iv, lots, isLive, isPaper;
    }

    function Snapshot(): Order
      reads this
    {
      Order(asset, iv, lots, isLive)
    }
  }

  ghost predicate Distinct(intents: seq<Intent>) {
    forall i, j :: 0 <= i < j < |intents| ==> intents[i] != intents[j]
  }

  function Snapshots(intents: seq<Intent>): seq<Order>
    reads intents
  {
    seq(|intents|, i requires 0 <= i < |intents| reads intents => intents[i].Snapshot())
  }

  lemma {:induction false} LiveMarginsSnoc(batch: seq<Order>, o: Order)
    ensures LiveMargins(batch + [o]) == LiveMargins(batch) + (if o.isLive then [o.Margin()] else [])
  {
    hide Times, Over, Order.Margin;
    var last := if o.isLive then [o.Margin()] else [];
    if batch == [] {
      assert batch + [o] == [o] && [o][1..] == [];
      assert LiveMargins([o]) == last + LiveMargins([o][1..]);
    } else {
      var head := if batch[0].isLive then [batch[0].Margin()] else [];
      assert (batch + [o])[1..] == batch[1..] + [o];
      LiveMarginsSnoc(batch[1..], o);
      assert head + (LiveMargins(batch[1..]) + last) == (head + LiveMargins(batch[1..])) + last;
    }
  }

  lemma {:induction false} ScaleAllAt(batch: seq<Order>, scaler: real)
    ensures |ScaleAll(batch, scaler)| == |batch|
    ensures forall i :: 0 <= i < |batch| ==> ScaleAll(batch, scaler)[i] == ScaleOrder(batch[i], scaler)
  {
    if batch != [] {
      ScaleAllAt(batch[1..], scaler);
    }
  }

  /** The margin total of the live intents. */
  method TotalRequired(intents: seq<Intent>) returns (total: real)
    ensures total == Sum(LiveMargins(Snapshots(intents)))
  {
    hide Times;
    total := 0.0;
    ghost var batch := Snapshots(intents);
    for i := 0 to |intents|
      invariant total == Sum(LiveMargins(batch[..i]))
    {
      assert batch[..i + 1] == batch[..i] + [batch[i]];
      LiveMarginsSnoc(batch[..i], batch[i]);
      SumAppend(LiveMargins(batch[..i]), if batch[i].isLive then [batch[i].Margin()] else []);
      if intents[i].isLive {
        total := total + Requirement(intents[i].lots, intents[i].iv);
      }
    }
    assert batch[..|intents|] == batch;
  }

  method EnforceHardBudgetScaling(intents: seq<Intent>, available: real)
    requires Distinct(intents)
    modifies intents
    ensures Snapshots(intents) == EnforceBudget(old(Snapshots(intents)), available)
    ensures forall i :: 0 <= i < |intents| ==> intents[i].isPaper == old(intents[i].isPaper)
  {
    hide Times, Over;
    ghost var batch := Snapshots(intents);
    var required := TotalRequired(intents);
    if required > available && available > 0.0 {
      var scaler := Over(available, required);
      for i := 0 to |intents|
        invariant forall j :: 0 <= j < i ==> intents[j].Snapshot() == ScaleOrder(batch[j], scaler)
        invariant forall j :: i <= j < |intents| ==> intents[j].Snapshot() == batch[j]
        invariant forall j :: 0 <= j < |intents| ==> intents[j].isPaper == old(intents[j].isPaper)
      {
        var intent := intents[i];
        if intent.isLive {
          var baseLot := BaseLot(intent.asset);
          intent.lots := (Over(Times(intent.lots, scaler), baseLot as real).Floor * baseLot) as real;
          if scaler < MIN_SCALER {
            intent.isLive := false;
          }
        }
      }
      ScaleAllAt(batch, scaler);
    }
  }

  /** The reservation part of the final dispatch; the result says whether the order goes out. */
  method FinalDispatch(intent: Intent, margin: MarginManager) returns (sent: bool, code: int)
    modifies intent, margin
    ensures intent.lots == old(intent.lots)
    ensures var exec := if old(intent.isLive) then Actual else Paper;
            if old(intent.lots) <= 0.0 then
              !sent && margin.live == old(margin.live) && margin.paper == old(margin.paper)
              && intent.isLive == old(intent.isLive) && intent.isPaper == old(intent.isPaper)
            else
              && (margin.Of(exec), code) == ReserveStep(old(margin.Of(exec)), MarginOf(old(intent.lots), intent.iv))
              && margin.Other(exec) == old(margin.Other(exec))
              && sent == (code == ADMITTED || !old(intent.isLive))
              && intent.isLive == (old(intent.isLive) && code == ADMITTED)
              && intent.isPaper == (old(intent.isPaper) && (code == ADMITTED || old(intent.isLive)))
  {
    RequirementIs(intent.lots, intent.iv);
    hide Times, Requirement, MarginOf;
    if intent.lots <= 0.0 {
      return false, ADMITTED;
    }
    var exec := if intent.isLive then Actual else Paper;
    code := margin.Reserve(Requirement(intent.lots, intent.iv), exec);
    if code < 1 {
      if intent.isLive {
        intent.isLive := false;
        return false, code;
      }
      intent.isPaper := false;
    }
    sent := true;
  }

  // ---------------------------------------------------------------- the scaled batch fits

  ghost predicate Sane(batch: seq<Order>) {
    forall i :: 0 <= i < |batch| ==> batch[i].lots >= 0.0 && batch[i].iv >= -1.0
  }

  /** Rounding down to whole base lots never exceeds the proportional share. */
  lemma ScaledLotsBound(o: Order, scaler: real)
    requires o.lots >= 0.0 && scaler >= 0.0
    ensures 0.0 <= ScaledLots(o, scaler) <= Times(o.lots, scaler)
  {
    hide Times, Over;
    var base := BaseLot(o.asset) as real;
    var x := Over(Times(o.lots, scaler), base);
    TimesNonNeg(o.lots, scaler);
    TimesUnit(base);
    OverAtLeast(Times(o.lots, scaler), base, 0.0);
    var n := x.Floor;
    TimesMono(n as real, x, base);
    OverTimes(Times(o.lots, scaler), base);
    FloorProduct(n, BaseLot(o.asset));
  }

  lemma FloorProduct(n: int, m: int)
    requires n >= 0 && m >= 0
    ensures (n * m) as real == Times(n as real, m as real)
    ensures n * m >= 0
  {
  }

  lemma RequirementScales(lots: real, iv: real, scaler: real)
    ensures Requirement(Times(lots, scaler), iv) == Times(Requirement(lots, iv), scaler)
  {
    assert lots * scaler * MARGIN_PER_LOT * (1.0 + iv) == lots * MARGIN_PER_LOT * (1.0 + iv) * scaler;
  }

  lemma RequirementMono(a: real, b: real, iv: real)
    requires 0.0 <= a <= b && iv >= -1.0
    ensures 0.0 <= Requirement(a, iv) <= Requirement(b, iv)
  {
    hide Times;
    TimesMono(a * MARGIN_PER_LOT, b * MARGIN_PER_LOT, 1.0 + iv);
    TimesNonNeg(a * MARGIN_PER_LOT, 1.0 + iv);
  }

  lemma {:induction false} ReservationsFitMargins(batch: seq<Order>)
    requires Sane(batch)
    ensures AllNonNegative(Reservations(batch)) && AllNonNegative(LiveMargins(batch))
    ensures 0.0 <= Sum(Reservations(batch)) <= Sum(LiveMargins(batch))
  {
    hide Times;
    if batch != [] {
      var o := batch[0];
      ReservationsFitMargins(batch[1..]);
      RequirementMono(0.0, o.lots, o.iv);
      RequirementMono(o.lots, o.lots, o.iv);
      SumAppend(if o.isLive then [o.Margin()] else [], LiveMargins(batch[1..]));
      SumAppend(if o.isLive && o.lots > 0.0 then [o.Margin()] else [], Reservations(batch[1..]));
    }
  }

  function LiveMargin(o: Order): real {
    if o.isLive then o.Margin() else 0.0
  }

  lemma ScaledOrderBound(o: Order, scaler: real)
    requires o.lots >= 0.0 && o.iv >= -1.0 && scaler >= 0.0
    ensures ScaleOrder(o, scaler).lots >= 0.0
    ensures LiveMargin(ScaleOrder(o, scaler)) <= Times(LiveMargin(o), scaler)
  {
    hide Times, Over, Requirement, ScaledLots;
    ScaledLotsBound(o, scaler);
    RequirementScales(o.lots, o.iv, scaler);
    RequirementMono(ScaledLots(o, scaler), Times(o.lots, scaler), o.iv);
    RequirementMono(o.lots, o.lots, o.iv);
    TimesNonNeg(o.Margin(), scaler);
    TimesUnit(scaler);
  }

  lemma {:induction false} LiveMarginsHead(batch: seq<Order>)
    requires batch != []
    ensures Sum(LiveMargins(batch)) == LiveMargin(batch[0]) + Sum(LiveMargins(batch[1..]))
  {
    hide Requirement;
    var m := if batch[0].isLive then [batch[0].Margin()] else [];
    SumAppend(m, LiveMargins(batch[1..]));
  }

  lemma {:induction false} ScaledTotal(batch: seq<Order>, scaler: real)
    requires Sane(batch) && scaler >= 0.0
    ensures Sane(ScaleAll(batch, scaler))
    ensures Sum(LiveMargins(ScaleAll(batch, scaler))) <= Times(Sum(LiveMargins(batch)), scaler)
  {
    hide Times, LiveMargin, ScaleOrder;
    if batch == [] {
      TimesUnit(scaler);
    } else {
      ScaledTotal(batch[1..], scaler);
      ScaleAllAt(batch, scaler);
      ScaleOrderKeepsIv(batch[0], scaler);
      ScaledOrderBound(batch[0], scaler);
      assert ScaleAll(batch, scaler)[1..] == ScaleAll(batch[1..], scaler);
      LiveMarginsHead(batch);
      LiveMarginsHead(ScaleAll(batch, scaler));
      TimesAdd(LiveMargin(batch[0]), Sum(LiveMargins(batch[1..])), scaler);
    }
  }

  lemma ScaleOrderKeepsIv(o: Order, scaler: real)
    ensures ScaleOrder(o, scaler).iv == o.iv && ScaleOrder(o, scaler).asset == o.asset
  {
  }

  /** After scaling, the margins of the live intents sum to at most the available margin. */
  lemma ScaledBatchFits(batch: seq<Order>, available: real)
    requires Sane(batch) && available > 0.0
    ensures var scaled := EnforceBudget(batch, available);
            && Sane(scaled)
            && AllNonNegative(Reservations(scaled))
            && 0.0 <= Sum(Reservations(scaled)) <= available
  {
    hide Times, Over;
    var required := Sum(LiveMargins(batch));
    if required > available {
      OverAtLeast(available, required, 0.0);
      TimesUnit(required);
      var scaler := Over(available, required);
      ScaledTotal(batch, scaler);
      OverTimes(available, required);
      TimesComm(required, scaler);
    }
    ReservationsFitMargins(EnforceBudget(batch, available));
  }

  // ---------------------------------------------------------------- and is as large as fits

  /** The margin that the live intents of a batch require. */
  ghost function Required(batch: seq<Order>): real {
    if batch == [] then 0.0
    else
      var o := batch[0];
      (if o.isLive then MarginOf(o.lots, o.iv) else 0.0) + Required(batch[1..])
  }

  lemma {:induction false} RequiredIsSum(batch: seq<Order>)
    ensures Sum(LiveMargins(batch)) == Required(batch)
  {
    if batch != [] {
      RequiredIsSum(batch[1..]);
      LiveMarginsHead(batch);
      RequirementIs(batch[0].lots, batch[0].iv);
      hide Requirement, MarginOf;
    }
  }

  /** Rounding down to whole base lots: the greatest multiple within the proportional share. */
  lemma ScaledLotsAre(o: Order, scaler: real) returns (n: int)
    ensures var base := match o.asset case Nifty50 => 25 case BankNifty => 15 case Sensex => 10 case OtherAsset => 1;
            && ScaledLots(o, scaler) == (n * base) as real
            && (n * base) as real <= Times(o.lots, scaler) < ((n + 1) * base) as real
  {
    var base := BaseLot(o.asset);
    var share := Times(o.lots, scaler);
    n := Over(share, base as real).Floor;
    OverAtLeast(share, base as real, n as real);
    OverAtLeast(share, base as real, (n + 1) as real);
    LotsTimes(n, base);
    LotsTimes(n + 1, base);
    hide Times, Over;
  }

  lemma LotsTimes(n: int, base: int)
    ensures (n * base) as real == Times(n as real, base as real)
  {
  }

  lemma ShareOfBudget(lots: real, available: real, required: real)
    requires required > 0.0
    ensures Times(lots, Over(available, required)) == Over(Times(lots, available), required)
    ensures Over(available, required) >= 0.2 <==> available >= 0.2 * required
  {
    OverAtLeast(available, required, 0.2);
    OverTimes(available, required);
    TimesAssoc(lots, Over(available, required), required);
    assert Times(0.2, required) == 0.2 * required;
    hide Times, Over;
    OverUnique(Times(lots, available), required, Times(lots, Over(available, required)));
  }

  /** The share of a live intent: `n` base lots, the most that fit, and live from a fifth of the budget up. */
  ghost predicate IsShare(o: Order, o': Order, n: int, available: real, required: real)
    requires required > 0.0
  {
    var base := match o.asset case Nifty50 => 25 case BankNifty => 15 case Sensex => 10 case OtherAsset => 1;
    && o'.asset == o.asset && o'.iv == o.iv
    && o'.lots == (n * base) as real
    && (n * base) as real <= Over(Times(o.lots, available), required) < ((n + 1) * base) as real
    && (o'.isLive <==> available >= 0.2 * required)
  }

  /**
   What the scaling makes of each intent: nothing when the batch fits, when no margin is available, or
   when the intent is not live; otherwise the greatest whole number of base lots within its share of the
   available margin, and live still exactly when that margin is a fifth of the required or more.
   */
  lemma ScaledIntent(batch: seq<Order>, available: real, i: nat) returns (n: int)
    requires i < |batch|
    ensures |EnforceBudget(batch, available)| == |batch|
    ensures var o, o', required := batch[i], EnforceBudget(batch, available)[i], Required(batch);
            if required <= available || available <= 0.0 || !o.isLive then o' == o
            else IsShare(o, o', n, available, required)
  {
    hide IsShare, Required, LiveMargins, Sum;
    RequiredIsSum(batch);
    var o, required := batch[i], Required(batch);
    n := 0;
    if required > available && available > 0.0 {
      ScaleAllAt(batch, Over(available, required));
      if o.isLive {
        n := ScaledLive(o, available, required);
        hide ScaleOrder, Over;
      }
    }
  }

  lemma ScaledLive(o: Order, available: real, required: real) returns (n: int)
    requires o.isLive && required > 0.0
    ensures IsShare(o, ScaleOrder(o, Over(available, required)), n, available, required)
  {
    ShareOfBudget(o.lots, available, required);
    n := ScaledLotsAre(o, Over(available, required));
    hide ScaledLots, Times, Over;
  }

  /** One base lot's requirement for each live intent. */
  ghost function OneLotEach(batch: seq<Order>): real {
    if batch == [] then 0.0
    else
      var o := batch[0];
      (if o.isLive then MarginOf(BaseLot(o.asset) as real, o.iv) else 0.0) + OneLotEach(batch[1..])
  }

  /** What rounding one live intent leaves of its share is worth less than one base lot of it. */
  lemma RoundingLoss(o: Order, scaler: real)
    requires o.isLive && o.iv >= -1.0 && scaler >= 0.2
    ensures var loss := Times(LiveMargin(o), scaler) - LiveMargin(ScaleOrder(o, scaler));
            var lot := MarginOf(BaseLot(o.asset) as real, o.iv);
            loss <= lot && (LiveMargin(o) > 0.0 ==> loss < lot)
  {
    var base, share, scaled := BaseLot(o.asset) as real, Times(o.lots, scaler), ScaledLots(o, scaler);
    ShareLessThanLotMore(o, scaler);
    RequirementScales(o.lots, o.iv, scaler);
    RequirementIs(share, o.iv);
    RequirementIs(scaled, o.iv);
    RequirementIs(o.lots, o.iv);
    LessMargin(share, scaled, base, o.iv);
    hide Times, ScaledLots, Requirement;
    if LiveMargin(o) > 0.0 {
      PositiveFactor(o.lots, o.iv);
    }
    hide MarginOf;
  }

  lemma ShareLessThanLotMore(o: Order, scaler: real)
    ensures Times(o.lots, scaler) < ScaledLots(o, scaler) + BaseLot(o.asset) as real
  {
    var n := ScaledLotsAre(o, scaler);
    hide ScaledLots;
  }

  lemma LessMargin(share: real, scaled: real, base: real, iv: real)
    requires share < scaled + base && iv >= -1.0
    ensures MarginOf(share, iv) - MarginOf(scaled, iv) <= MarginOf(base, iv)
    ensures iv > -1.0 ==> MarginOf(share, iv) - MarginOf(scaled, iv) < MarginOf(base, iv)
  {
    var gap, k := scaled + base - share, 1.0 + iv;
    assert MarginOf(scaled, iv) + MarginOf(base, iv) - MarginOf(share, iv) == gap * 150000.0 * k;
    if k > 0.0 {
      assert gap * k > 0.0;
    }
  }

  lemma PositiveFactor(lots: real, iv: real)
    requires MarginOf(lots, iv) > 0.0 && iv >= -1.0
    ensures iv > -1.0
  {
  }

  lemma {:induction false} RoundingLosses(batch: seq<Order>, scaler: real)
    requires Sane(batch) && scaler >= 0.2
    ensures var loss := Times(Sum(LiveMargins(batch)), scaler) - Sum(LiveMargins(ScaleAll(batch, scaler)));
            loss <= OneLotEach(batch) && (Sum(LiveMargins(batch)) > 0.0 ==> loss < OneLotEach(batch))
  {
    hide Times, LiveMargin, ScaleOrder, Requirement, MarginOf;
    if batch == [] {
      TimesUnit(scaler);
    } else {
      RoundingLosses(batch[1..], scaler);
      ScaleAllAt(batch, scaler);
      assert ScaleAll(batch, scaler)[1..] == ScaleAll(batch[1..], scaler);
      LiveMarginsHead(batch);
      LiveMarginsHead(ScaleAll(batch, scaler));
      TimesAdd(LiveMargin(batch[0]), Sum(LiveMargins(batch[1..])), scaler);
      if batch[0].isLive {
        RoundingLoss(batch[0], scaler);
      } else {
        NotLiveLosesNothing(batch[0], scaler);
      }
    }
  }

  lemma NotLiveLosesNothing(o: Order, scaler: real)
    requires !o.isLive
    ensures LiveMargin(o) == 0.0 == LiveMargin(ScaleOrder(o, scaler)) && Times(0.0, scaler) == 0.0
  {
    TimesUnit(scaler);
  }

  /**
   The scaling is as large as whole base lots allow: when a batch that needs too much stays live, what it
   leaves of the available margin is worth less than one base lot for each of its live intents.
   */
  lemma LittleIsLeft(batch: seq<Order>, available: real)
    requires Sane(batch) && 0.0 < available < Required(batch) && available >= 0.2 * Required(batch)
    ensures available - Required(EnforceBudget(batch, available)) < OneLotEach(batch)
  {
    var required := Required(batch);
    RequiredIsSum(batch);
    RequiredIsSum(EnforceBudget(batch, available));
    ShareOfBudget(0.0, available, required);
    OverTimes(available, required);
    TimesComm(required, Over(available, required));
    RoundingLosses(batch, Over(available, required));
    hide Times, Over, Required, Sum, LiveMargins, ScaleAll, OneLotEach;
  }

  // ---------------------------------------------------------------- and is then reserved

  /** The codes returned when margins are reserved one after another, refused or not. */
  function Codes(w: Wallet, reqs: seq<real>): seq<int>
    decreases |reqs|
  {
    if reqs == [] then []
    else
      var (w', code) := ReserveStep(w, reqs[0]);
      [code] + Codes(w', reqs[1..])
  }

  lemma {:induction false} NeverShortOfTotal(w: Wallet, reqs: seq<real>)
    requires AllNonNegative(reqs) && Sum(reqs) <= w.Total()
    ensures INSUFFICIENT_TOTAL !in Codes(w, reqs)
    decreases |reqs|
  {
    if reqs != [] {
      var (w', code) := ReserveStep(w, reqs[0]);
      SumNonNegative(reqs);
      SumNonNegative(reqs[1..]);
      ReserveAdmitted(w, reqs[0]);
      NeverShortOfTotal(w', reqs[1..]);
    }
  }

  /**
   Scaling then reserving, in whatever order the intents are dispatched: no reservation is refused
   for lack of total margin, and all are admitted exactly when the cash covers half of their sum.
   */
  lemma ScaledBatchReserves(batch: seq<Order>, w: Wallet, order: seq<real>)
    requires Sane(batch) && w.Total() > 0.0
    requires multiset(order) == multiset(Reservations(EnforceBudget(batch, w.Total())))
    ensures INSUFFICIENT_TOTAL !in Codes(w, order)
    ensures order != [] ==>
              (ReserveAll(w, order).1 <==> w.cash >= Sum(Reservations(EnforceBudget(batch, w.Total()))) * 0.5)
  {
    var reqs := Reservations(EnforceBudget(batch, w.Total()));
    hide EnforceBudget, Reservations;
    ScaledBatchFits(batch, w.Total());
    forall i | 0 <= i < |order|
      ensures order[i] >= 0.0
    {
      assert order[i] in multiset(order);
      assert order[i] in reqs;
    }
    SumPermutation(order, reqs);
    NeverShortOfTotal(w, order);
    if order != [] {
      PathIndependence(w, order);
      ReserveAdmitted(w, Sum(order));
    }
  }

  /** Without positive margin nothing is scaled, and the first live intent that needs margin is refused. */
  lemma EmptyWalletRefuses(batch: seq<Order>, w: Wallet)
    requires w.Total() <= 0.0
    ensures EnforceBudget(batch, w.Total()) == batch
    ensures var reqs := Reservations(batch);
            reqs != [] && reqs[0] > 0.0 ==> Codes(w, reqs)[0] == INSUFFICIENT_TOTAL
  {
  }
}
