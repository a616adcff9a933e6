/**
 The basket reconciler of daemons/order_reconciler.py: what it decides from the leg reports, the market
 orders it sends, the margin it gives back, and its dead-letter count. Reports are inputs; a rollback
 reads them a second time, so the two readings may differ.
 */
module BasketReconciler {
  import opened Sums
  import opened Margin
  import opened Basics

  datatype Status = Complete | PartialFill | Rejected | Cancelled | Other

  datatype Report = Report(status: Status, filled: real, remaining: real)

  datatype Instrument = Instrument(symbol: string, exec: ExecutionType)

  /** `quantity` and `qty` are two different keys of the leg; either may be missing. */
  datatype Leg = Leg(orderId: Option<string>, instrument: Instrument, side: Side,
                     quantity: Option<real>, qty: Option<real>, reserved: real)

  /** A market order sent to the bridge. */
  datatype Order = Order(instrument: Instrument, side: Side, quantity: real)

  predicate HasId(leg: Leg) {
    leg.orderId.Some? && leg.orderId.value != ""
  }

  predicate Refused(r: Report) {
    r.status == Rejected || r.status == Cancelled
  }

  predicate Executed(r: Report) {
    r.status == Complete || r.status == PartialFill
  }

  /** The size a leg asks for: `quantity` wins over `qty`, and one lot is the default. */
  function Size(leg: Leg): real {
    if leg.quantity.Some? then leg.quantity.value
    else if leg.qty.Some? then leg.qty.value
    else 1.0
  }

  // ---------------------------------------------------------------- examining a basket

  datatype Tally = Tally(forced: seq<Leg>, filled: seq<Leg>, rejected: bool, allFilled: bool)

  /** What one leg adds to the tally. A leg without an order id is passed over. */
  function ExamineLeg(t: Tally, leg: Leg, r: Report): Tally {
    if !HasId(leg) then t
    else match r.status
      case Complete => t.(filled := t.filled + [leg])
      case PartialFill =>
        var t' := t.(filled := t.filled + [leg], allFilled := false);
        if r.remaining > 0.0 then t'.(forced := t.forced + [leg.(qty := Some(r.remaining))]) else t'
      case Rejected => t.(rejected := true, allFilled := false)
      case Cancelled => t.(rejected := true, allFilled := false)
      case Other => t.(forced := t.forced + [leg], allFilled := false)
  }

  function Examine(legs: seq<Leg>, reports: seq<Report>): Tally
    requires |legs| == |reports|
  {
    var n := |legs|;
    if n == 0 then Tally([], [], false, true)
    else ExamineLeg(Examine(legs[..n - 1], reports[..n - 1]), legs[n - 1], reports[n - 1])
  }

  /** A rollback is chosen exactly when some placed leg was rejected or cancelled. */
  lemma {:induction false} RollbackChosenIff(legs: seq<Leg>, reports: seq<Report>)
    requires |legs| == |reports|
    ensures Examine(legs, reports).rejected <==>
              exists i :: 0 <= i < |legs| && legs[i].orderId.Some? && legs[i].orderId.value != ""
                          && (reports[i].status == Rejected || reports[i].status == Cancelled)
  {
    var n := |legs|;
    if n > 0 {
      RollbackChosenIff(legs[..n - 1], reports[..n - 1]);
      if i :| 0 <= i < n && HasId(legs[i]) && Refused(reports[i]) && i < n - 1 {
        assert HasId(legs[..n - 1][i]) && Refused(reports[..n - 1][i]);
      }
    }
  }

  // ---------------------------------------------------------------- wing-first order

  function Select(legs: seq<Leg>, side: Side): seq<Leg> {
    if legs == [] then []
    else (if legs[0].side == side then [legs[0]] else []) + Select(legs[1..], side)
  }

  /** The stable sort by side: every BUY leg first. */
  function WingFirst(legs: seq<Leg>): seq<Leg> {
    Select(legs, Buy) + Select(legs, Sell)
  }

  ghost predicate BuysFirst(legs: seq<Leg>) {
    forall i, j :: 0 <= i < j < |legs| && legs[j].side == Buy ==> legs[i].side == Buy
  }

  lemma {:induction false} SelectAppend(a: seq<Leg>, b: seq<Leg>, side: Side)
    ensures Select(a + b, side) == Select(a, side) + Select(b, side)
  {
    if a == [] {
      assert a + b == b;
    } else {
      var head := if a[0].side == side then [a[0]] else [];
      assert (a + b)[1..] == a[1..] + b;
      SelectAppend(a[1..], b, side);
      assert head + (Select(a[1..], side) + Select(b, side)) == (head + Select(a[1..], side)) + Select(b, side);
    }
  }

  lemma {:induction false} SelectAgain(legs: seq<Leg>, side: Side, other: Side)
    ensures forall i :: 0 <= i < |Select(legs, side)| ==> Select(legs, side)[i].side == side
    ensures Select(Select(legs, side), other) == if side == other then Select(legs, side) else []
  {
    if legs != [] {
      SelectAgain(legs[1..], side, other);
      if legs[0].side == side {
        assert Select(legs, side)[1..] == Select(legs[1..], side);
      } else {
        assert Select(legs, side) == Select(legs[1..], side);
      }
    }
  }

  lemma {:induction false} AllSells(t: seq<Leg>)
    requires forall i :: 0 <= i < |t| ==> t[i].side == Sell
    ensures Select(t, Buy) == [] && Select(t, Sell) == t
  {
    if t != [] {
      AllSells(t[1..]);
    }
  }

  lemma {:induction false} BuysFirstSplits(t: seq<Leg>)
    requires BuysFirst(t)
    ensures t == WingFirst(t)
  {
    if t != [] {
      if t[0].side == Buy {
        BuysFirstSplits(t[1..]);
      } else {
        AllSells(t);
      }
    }
  }

  /**
   The order of the forced legs is the only one with every BUY first that keeps the order within each
   side, and it drops and repeats nothing.
   */
  lemma WingFirstIsTheStableSort(legs: seq<Leg>, t: seq<Leg>)
    ensures t == WingFirst(legs) <==>
              BuysFirst(t) && Select(t, Buy) == Select(legs, Buy) && Select(t, Sell) == Select(legs, Sell)
  {
    if t == WingFirst(legs) {
      forall side: Side, other: Side
        ensures forall i :: 0 <= i < |Select(legs, side)| ==> Select(legs, side)[i].side == side
        ensures Select(Select(legs, side), other) == if side == other then Select(legs, side) else []
      {
        SelectAgain(legs, side, other);
      }
      SelectAppend(Select(legs, Buy), Select(legs, Sell), Buy);
      SelectAppend(Select(legs, Buy), Select(legs, Sell), Sell);
    } else if BuysFirst(t) {
      BuysFirstSplits(t);
    }
  }

  // ---------------------------------------------------------------- exposure

  function Signed(side: Side, q: real): real {
    if side == Buy then q else -q
  }

  function NetOfOrder(o: Order, x: Instrument): real {
    if o.instrument == x then Signed(o.side, o.quantity) else 0.0
  }

  /** The change in position that a list of orders makes in one instrument. */
  function Net(orders: seq<Order>, x: Instrument): real {
    if orders == [] then 0.0 else NetOfOrder(orders[0], x) + Net(orders[1..], x)
  }

  lemma {:induction false} NetAppend(a: seq<Order>, b: seq<Order>, x: Instrument)
    ensures Net(a + b, x) == Net(a, x) + Net(b, x)
  {
    if a == [] {
      assert a + b == b;
    } else {
      assert (a + b)[1..] == a[1..] + b;
      NetAppend(a[1..], b, x);
    }
  }

  /** The sum over the legs in one instrument of a signed amount per leg. */
  function Exposure(legs: seq<Leg>, amounts: seq<real>, x: Instrument): real
    requires |legs| == |amounts|
  {
    var n := |legs|;
    if n == 0 then 0.0
    else
      var last := Order(legs[n - 1].instrument, legs[n - 1].side, amounts[n - 1]);
      Exposure(legs[..n - 1], amounts[..n - 1], x) + NetOfOrder(last, x)
  }

  function Fills(reports: seq<Report>): seq<real> {
    seq(|reports|, i requires 0 <= i < |reports| => reports[i].filled)
  }

  function Sizes(legs: seq<Leg>): seq<real> {
    seq(|legs|, i requires 0 <= i < |legs| => Size(legs[i]))
  }

  // ---------------------------------------------------------------- rollback: the closing orders

  function ClosingOrder(leg: Leg, r: Report): seq<Order> {
    if HasId(leg) && Executed(r) && r.filled > 0.0
    then [Order(leg.instrument, Opposite(leg.side), r.filled)]
    else []
  }

  function Closing(legs: seq<Leg>, reports: seq<Report>): seq<Order>
    requires |legs| == |reports|
  {
    var n := |legs|;
    if n == 0 then [] else Closing(legs[..n - 1], reports[..n - 1]) + ClosingOrder(legs[n - 1], reports[n - 1])
  }

  /** The part of a leg's fill that the rollback should leave open, by the status of its report. */
  ghost function Unclosed(leg: Leg, r: Report): real {
    if leg.orderId == None || leg.orderId == Some("") || r.filled <= 0.0 then r.filled
    else match r.status
      case Complete => 0.0
      case PartialFill => 0.0
      case Rejected => r.filled
      case Cancelled => r.filled
      case Other => r.filled
  }

  ghost function UnclosedAll(legs: seq<Leg>, reports: seq<Report>): seq<real>
    requires |legs| == |reports|
  {
    seq(|legs|, i requires 0 <= i < |legs| => Unclosed(legs[i], reports[i]))
  }

  /**
   After the closing orders, the position each instrument is left with is exactly the fills of the legs
   that were not closed: those without an order id, and those reported rejected, cancelled or pending.
   */
  lemma {:induction false} RollbackLeavesUnclosed(legs: seq<Leg>, reports: seq<Report>, x: Instrument)
    requires |legs| == |reports|
    ensures Exposure(legs, Fills(reports), x) + Net(Closing(legs, reports), x)
         == Exposure(legs, UnclosedAll(legs, reports), x)
  {
    var n := |legs|;
    if n > 0 {
      var leg, r := legs[n - 1], reports[n - 1];
      RollbackLeavesUnclosed(legs[..n - 1], reports[..n - 1], x);
      assert Fills(reports)[..n - 1] == Fills(reports[..n - 1]);
      assert UnclosedAll(legs, reports)[..n - 1] == UnclosedAll(legs[..n - 1], reports[..n - 1]);
      NetAppend(Closing(legs[..n - 1], reports[..n - 1]), ClosingOrder(leg, r), x);
      OneLegClosed(leg, r, x);
    }
  }

  lemma OneLegClosed(leg: Leg, r: Report, x: Instrument)
    ensures NetOfOrder(Order(leg.instrument, leg.side, r.filled), x) + Net(ClosingOrder(leg, r), x)
         == NetOfOrder(Order(leg.instrument, leg.side, Unclosed(leg, r)), x)
  {
    var orders := ClosingOrder(leg, r);
    if orders != [] {
      assert orders[1..] == [];
    }
  }

  lemma {:induction false} ZeroExposure(legs: seq<Leg>, amounts: seq<real>, x: Instrument)
    requires |legs| == |amounts| && forall i :: 0 <= i < |legs| ==> amounts[i] == 0.0
    ensures Exposure(legs, amounts, x) == 0.0
  {
    var n := |legs|;
    if n > 0 {
      ZeroExposure(legs[..n - 1], amounts[..n - 1], x);
    }
  }

  /** A leg's own closing order flattens it exactly when it holds nothing, or was placed and is reported filled. */
  lemma LegNeutralisedIff(leg: Leg, r: Report)
    requires r.filled >= 0.0
    ensures (NetOfOrder(Order(leg.instrument, leg.side, r.filled), leg.instrument)
             + Net(ClosingOrder(leg, r), leg.instrument) == 0.0)
            <==> (r.filled == 0.0 || (leg.orderId.Some? && leg.orderId.value != ""
                                      && (r.status == Complete || r.status == PartialFill)))
  {
    OneLegClosed(leg, r, leg.instrument);
  }

  /** By status: what a placed leg's fill and its closing order come to, and what that order is. */
  lemma ClosedByStatus(leg: Leg, r: Report)
    requires leg.orderId.Some? && leg.orderId.value != "" && r.filled > 0.0
    ensures var after := NetOfOrder(Order(leg.instrument, leg.side, r.filled), leg.instrument)
                       + Net(ClosingOrder(leg, r), leg.instrument);
            match r.status
            case Complete => after == 0.0
            case PartialFill => after == 0.0
            case Rejected => after == if leg.side == Buy then r.filled else -r.filled
            case Cancelled => after == if leg.side == Buy then r.filled else -r.filled
            case Other => after == if leg.side == Buy then r.filled else -r.filled
    ensures ClosingOrder(leg, r) ==
            match r.status
            case Complete => [Order(leg.instrument, if leg.side == Buy then Sell else Buy, r.filled)]
            case PartialFill => [Order(leg.instrument, if leg.side == Buy then Sell else Buy, r.filled)]
            case _ => []
  {
    OneLegClosed(leg, r, leg.instrument);
  }

  /** So a rollback neutralises the whole basket when that holds of every leg. */
  lemma RollbackNeutralises(legs: seq<Leg>, reports: seq<Report>, x: Instrument)
    requires |legs| == |reports|
    requires forall i :: 0 <= i < |legs| ==>
               || reports[i].filled == 0.0
               || (reports[i].filled > 0.0 && legs[i].orderId.Some? && legs[i].orderId.value != ""
                   && (reports[i].status == Complete || reports[i].status == PartialFill))
    ensures Exposure(legs, Fills(reports), x) + Net(Closing(legs, reports), x) == 0.0
  {
    RollbackLeavesUnclosed(legs, reports, x);
    ZeroExposure(legs, UnclosedAll(legs, reports), x);
  }

  /** A leg cancelled after filling 20 of 50 lots keeps its 20 lots open through the rollback. */
  lemma CancelledFillStaysOpen(x: Instrument)
    ensures var leg, r := Leg(Some("A"), x, Buy, None, Some(50.0), 0.0), Report(Cancelled, 20.0, 30.0);
            Exposure([leg], Fills([r]), x) + Net(Closing([leg], [r]), x) == 20.0
  {
    var leg, r := Leg(Some("A"), x, Buy, None, Some(50.0), 0.0), Report(Cancelled, 20.0, 30.0);
    RollbackLeavesUnclosed([leg], [r], x);
    assert UnclosedAll([leg], [r]) == [20.0];
    assert [20.0][..0] == [] && [leg][..0] == [];
  }

  // ---------------------------------------------------------------- rollback: the margin

  predicate Frees(leg: Leg, r: Report, live: bool) {
    HasId(leg) && Refused(r) && leg.reserved > 0.0 && (leg.instrument.exec != Paper) == live
  }

  /** The margin given back to one of the two wallets, leg by leg. */
  function Freed(legs: seq<Leg>, reports: seq<Report>, live: bool): seq<real>
    requires |legs| == |reports|
  {
    var n := |legs|;
    if n == 0 then []
    else
      var before := Freed(legs[..n - 1], reports[..n - 1], live);
      if Frees(legs[n - 1], reports[n - 1], live) then before + [legs[n - 1].reserved] else before
  }

  lemma {:induction false} FreedArePositive(legs: seq<Leg>, reports: seq<Report>, live: bool)
    requires |legs| == |reports|
    ensures forall i :: 0 <= i < |Freed(legs, reports, live)| ==> Freed(legs, reports, live)[i] > 0.0
  {
    var n := |legs|;
    if n > 0 {
      FreedArePositive(legs[..n - 1], reports[..n - 1], live);
    }
  }

  /** Releases one after another, each without a separate original margin. */
  function ReleaseAll(w: Wallet, amounts: seq<real>): Wallet {
    var n := |amounts|;
    if n == 0 then w else ReleaseStep(ReleaseAll(w, amounts[..n - 1]), amounts[n - 1], 0.0)
  }

  /** The releases together would pass the ceiling's tolerance. */
  predicate PassesCeiling(w: Wallet, sum: real) {
    w.limit > 0.0 && w.Total() + sum > w.limit * 1.02
  }

  /** What releases summing to `sum` have made of the wallet `w`. */
  ghost predicate Released(w: Wallet, sum: real, w': Wallet) {
    && w'.limit == w.limit && w'.coll == w.coll + sum * 0.5
    && (!PassesCeiling(w, sum) ==> w'.cash == w.cash + sum * 0.5)
    && (PassesCeiling(w, sum) && w.cash + sum * 0.5 > 0.0 ==> w'.cash >= 0.0 && w'.Total() < w.Total() + sum)
    && (PassesCeiling(w, sum) && w.cash + sum * 0.5 <= 0.0 ==> w'.cash == 0.0 && w'.coll > w.limit * 1.02)
  }

  /** One more release, whether or not the ones before it were clipped. */
  lemma OneMoreRelease(w: Wallet, sum: real, w': Wallet, a: real)
    requires a > 0.0 && sum >= 0.0
    requires if sum == 0.0 then w' == w else Released(w, sum, w')
    ensures Released(w, sum + a, ReleaseStep(w', a, 0.0))
  {
  }

  lemma {:induction false} ReleasesAccumulate(w: Wallet, amounts: seq<real>)
    requires amounts != [] && forall i :: 0 <= i < |amounts| ==> amounts[i] > 0.0
    ensures Sum(amounts) > 0.0 && Released(w, Sum(amounts), ReleaseAll(w, amounts))
  {
    var n := |amounts|;
    var init, a := amounts[..n - 1], amounts[n - 1];
    assert amounts == init + [a];
    SumAppend(init, [a]);
    assert Sum([a]) == a;
    if init != [] {
      ReleasesAccumulate(w, init);
    }
    OneMoreRelease(w, Sum(init), ReleaseAll(w, init), a);
  }

  /**
   A batch of releases, on any wallet: it raises the vault by exactly their sum when there are none or
   the ceiling's tolerance is not passed; once it is, by less or by more according to the sign of the
   cash after the credits, because a clip never leaves cash below zero. The order of the legs does not
   matter to this.
   */
  lemma ReleaseAllExactIff(w: Wallet, amounts: seq<real>)
    requires forall i :: 0 <= i < |amounts| ==> amounts[i] > 0.0
    ensures ReleaseAll(w, amounts).limit == w.limit
    ensures w.cash >= 0.0 ==> ReleaseAll(w, amounts).cash >= 0.0
    ensures var sum, total := Sum(amounts), ReleaseAll(w, amounts).Total();
            var clipped := amounts != [] && PassesCeiling(w, sum);
            && (total == w.Total() + sum <==> !clipped || w.cash + sum * 0.5 == 0.0)
            && (total < w.Total() + sum <==> clipped && w.cash + sum * 0.5 > 0.0)
            && (total > w.Total() + sum <==> clipped && w.cash + sum * 0.5 < 0.0)
  {
    if amounts != [] {
      ReleasesAccumulate(w, amounts);
    }
  }

  /**
   The margin due to a wallet for one leg: what a placed leg reported rejected or cancelled had reserved,
   to the live wallet for actual and live legs and to the paper wallet for paper legs.
   */
  ghost function DueFor(leg: Leg, r: Report, live: bool): real {
    if leg.orderId == None || leg.orderId == Some("") || leg.reserved <= 0.0 then 0.0
    else match (r.status, leg.instrument.exec)
      case (Rejected, Paper) => if live then 0.0 else leg.reserved
      case (Cancelled, Paper) => if live then 0.0 else leg.reserved
      case (Rejected, _) => if live then leg.reserved else 0.0
      case (Cancelled, _) => if live then leg.reserved else 0.0
      case _ => 0.0
  }

  /** The margin due to one wallet for all legs. */
  ghost function RefusedMargin(legs: seq<Leg>, reports: seq<Report>, live: bool): real
    requires |legs| == |reports|
  {
    var n := |legs|;
    if n == 0 then 0.0
    else RefusedMargin(legs[..n - 1], reports[..n - 1], live) + DueFor(legs[n - 1], reports[n - 1], live)
  }

  lemma {:induction false} FreedIsRefusedMargin(legs: seq<Leg>, reports: seq<Report>, live: bool)
    requires |legs| == |reports|
    ensures Sum(Freed(legs, reports, live)) == RefusedMargin(legs, reports, live)
  {
    var n := |legs|;
    if n > 0 {
      assert DueFor(legs[n - 1], reports[n - 1], live) ==
             if Frees(legs[n - 1], reports[n - 1], live) then legs[n - 1].reserved else 0.0;
      hide Frees, DueFor;
      FreedIsRefusedMargin(legs[..n - 1], reports[..n - 1], live);
      SumAppend(Freed(legs[..n - 1], reports[..n - 1], live), [legs[n - 1].reserved]);
      assert Sum([legs[n - 1].reserved]) == legs[n - 1].reserved;
    }
  }

  /**
   What a rollback does to a wallet: it gives back exactly what the refused legs had reserved there,
   exactly when that is nothing, or no ceiling is in the way, or the cash comes out at zero.
   */
  lemma RollbackReturnsMarginIff(w: Wallet, legs: seq<Leg>, reports: seq<Report>, live: bool)
    requires |legs| == |reports|
    ensures var due, w' := RefusedMargin(legs, reports, live), ReleaseAll(w, Freed(legs, reports, live));
            && (w'.Total() == w.Total() + due <==>
                  due == 0.0 || !PassesCeiling(w, due) || w.cash + due * 0.5 == 0.0)
            && (w.cash >= 0.0 ==> w'.Total() <= w.Total() + due)
  {
    var freed := Freed(legs, reports, live);
    FreedArePositive(legs, reports, live);
    FreedIsRefusedMargin(legs, reports, live);
    ReleaseAllExactIff(w, freed);
    SumNonNegative(freed);
    assert freed != [] ==> freed[0] <= Sum(freed);
  }

  // ---------------------------------------------------------------- force fill

  function ForceOrder(leg: Leg): Order {
    Order(leg.instrument, leg.side, Size(leg))
  }

  function ForceOrders(legs: seq<Leg>): seq<Order> {
    seq(|legs|, i requires 0 <= i < |legs| => ForceOrder(legs[i]))
  }

  /** What force fill should order for one leg of an unrejected basket, by the status of its report. */
  ghost function Forced(leg: Leg, r: Report): real {
    if leg.orderId == None || leg.orderId == Some("") then 0.0
    else match r.status
      case Complete => 0.0
      case Rejected => 0.0
      case Cancelled => 0.0
      case PartialFill =>
        if r.remaining <= 0.0 then 0.0 else if leg.quantity.Some? then leg.quantity.value else r.remaining
      case Other =>
        match (leg.quantity, leg.qty)
        case (Some(quantity), _) => quantity
        case (None, Some(qty)) => qty
        case (None, None) => 1.0
  }

  /** The orders of a force fill of one leg: at most one, for that size and on the leg's own side. */
  lemma ForceFillOrdersLeg(leg: Leg, r: Report)
    ensures var forced := ForceOrders(Examine([leg], [r]).forced);
            && |forced| <= 1
            && (forall o :: o in forced ==> o == Order(leg.instrument, leg.side, Forced(leg, r)))
            && (Forced(leg, r) != 0.0 ==> forced != [])
  {
    assert [leg][..0] == [] && [r][..0] == [];
    assert Examine([leg], [r]) == ExamineLeg(Tally([], [], false, true), leg, r);
  }

  /** How far past its size a leg ends. */
  ghost function Excess(leg: Leg, r: Report): real {
    r.filled + Forced(leg, r) - Size(leg)
  }

  ghost function ExcessAll(legs: seq<Leg>, reports: seq<Report>): seq<real>
    requires |legs| == |reports|
  {
    seq(|legs|, i requires 0 <= i < |legs| => Excess(legs[i], reports[i]))
  }

  /** A report that accounts for the whole leg. */
  predicate Consistent(leg: Leg, r: Report) {
    && (r.status == Complete ==> r.filled == Size(leg))
    && (r.status == PartialFill ==> r.remaining >= 0.0 && r.filled + r.remaining == Size(leg))
  }

  /**
   Force fill completes a leg, neither short nor over, exactly when the leg was placed and is complete,
   or is partly filled and either has nothing left, carries no `quantity` key or had no fill yet, or is
   pending without a fill. A partly filled leg with a `quantity` key is ordered again in full.
   */
  lemma ForceFillCompletesIff(leg: Leg, r: Report)
    requires Consistent(leg, r) && !(HasId(leg) && Refused(r))
    ensures Excess(leg, r) == 0.0 <==>
              if leg.orderId == None || leg.orderId == Some("") then r.filled == Size(leg)
              else match r.status
                case Complete => true
                case PartialFill => r.remaining == 0.0 || leg.quantity.None? || r.filled == 0.0
                case _ => r.filled == 0.0
  {
  }

  /** A leg of quantity 50 with 20 filled and 30 to go is ordered again in full, and ends 20 over. */
  lemma PartialFillOrderedAgain(x: Instrument)
    ensures Excess(Leg(Some("A"), x, Buy, Some(50.0), None, 0.0), Report(PartialFill, 20.0, 30.0)) == 20.0
  {
  }

  lemma ForceOrdersAppend(a: seq<Leg>, b: seq<Leg>, x: Instrument)
    ensures Net(ForceOrders(a + b), x) == Net(ForceOrders(a), x) + Net(ForceOrders(b), x)
  {
    assert ForceOrders(a + b) == ForceOrders(a) + ForceOrders(b);
    NetAppend(ForceOrders(a), ForceOrders(b), x);
  }

  lemma {:induction false} ForceOrdersBySide(legs: seq<Leg>, x: Instrument)
    ensures Net(ForceOrders(WingFirst(legs)), x) == Net(ForceOrders(legs), x)
  {
    ForceOrdersAppend(Select(legs, Buy), Select(legs, Sell), x);
    if legs != [] {
      var head, tail := [legs[0]], legs[1..];
      ForceOrdersBySide(tail, x);
      ForceOrdersAppend(Select(tail, Buy), Select(tail, Sell), x);
      assert legs == head + tail;
      ForceOrdersAppend(head, tail, x);
      ForceOrdersAppend(head, Select(tail, legs[0].side), x);
      assert Select(legs, Opposite(legs[0].side)) == Select(tail, Opposite(legs[0].side));
    }
  }

  lemma OneLegForced(t: Tally, leg: Leg, r: Report, x: Instrument)
    requires !(HasId(leg) && Refused(r))
    ensures Net(ForceOrders(ExamineLeg(t, leg, r).forced), x) - Net(ForceOrders(t.forced), x)
          + NetOfOrder(Order(leg.instrument, leg.side, r.filled), x)
         == NetOfOrder(Order(leg.instrument, leg.side, Size(leg)), x)
          + NetOfOrder(Order(leg.instrument, leg.side, Excess(leg, r)), x)
  {
    var forced := ExamineLeg(t, leg, r).forced;
    if forced != t.forced {
      var added := forced[|t.forced|..];
      assert forced == t.forced + added && |added| == 1;
      ForceOrdersAppend(t.forced, added, x);
      assert ForceOrders(added)[1..] == [];
    }
  }

  /**
   In a basket without a rejection, fills and force-fill orders together bring each instrument to its
   intended position plus the legs' excess; with `ForceFillCompletesIff` this says when it is exact.
   */
  lemma {:induction false} ForceFillBalance(legs: seq<Leg>, reports: seq<Report>, x: Instrument)
    requires |legs| == |reports| && !Examine(legs, reports).rejected
    ensures Exposure(legs, Fills(reports), x)
          + Net(ForceOrders(WingFirst(Examine(legs, reports).forced)), x)
         == Exposure(legs, Sizes(legs), x) + Exposure(legs, ExcessAll(legs, reports), x)
  {
    UnsortedBalance(legs, reports, x);
    ForceOrdersBySide(Examine(legs, reports).forced, x);
  }

  lemma {:induction false} UnsortedBalance(legs: seq<Leg>, reports: seq<Report>, x: Instrument)
    requires |legs| == |reports| && !Examine(legs, reports).rejected
    ensures Exposure(legs, Fills(reports), x) + Net(ForceOrders(Examine(legs, reports).forced), x)
         == Exposure(legs, Sizes(legs), x) + Exposure(legs, ExcessAll(legs, reports), x)
  {
    var n := |legs|;
    if n > 0 {
      var t := Examine(legs[..n - 1], reports[..n - 1]);
      UnsortedBalance(legs[..n - 1], reports[..n - 1], x);
      assert Fills(reports)[..n - 1] == Fills(reports[..n - 1]);
      assert Sizes(legs)[..n - 1] == Sizes(legs[..n - 1]);
      assert ExcessAll(legs, reports)[..n - 1] == ExcessAll(legs[..n - 1], reports[..n - 1]);
      OneLegForced(t, legs[n - 1], reports[n - 1], x);
    }
  }

  /** With consistent reports and only `qty` keys, no leg is left over or short. */
  lemma {:induction false} ForceFillExactWithoutQuantityKey(legs: seq<Leg>, reports: seq<Report>, x: Instrument)
    requires |legs| == |reports| && !Examine(legs, reports).rejected
    requires forall i :: 0 <= i < |legs| ==> HasId(legs[i]) && legs[i].quantity.None?
    requires forall i :: 0 <= i < |legs| ==> Consistent(legs[i], reports[i])
    requires forall i :: 0 <= i < |legs| && reports[i].status == Other ==> reports[i].filled == 0.0
    ensures Exposure(legs, Fills(reports), x)
          + Net(ForceOrders(WingFirst(Examine(legs, reports).forced)), x) == Exposure(legs, Sizes(legs), x)
  {
    ForceFillBalance(legs, reports, x);
    RollbackChosenIff(legs, reports);
    forall i | 0 <= i < |legs|
      ensures ExcessAll(legs, reports)[i] == 0.0
    {
      ForceFillCompletesIff(legs[i], reports[i]);
    }
    ZeroExposure(legs, ExcessAll(legs, reports), x);
  }

  // ---------------------------------------------------------------- baskets as they are announced

  /** A leg as core/execution_wrapper.py announces it: symbol, side and `qty`, and nothing else. */
  datatype Announced = Announced(symbol: string, side: Side, qty: Option<real>)

  function Announce(legs: seq<Announced>): seq<Leg> {
    seq(|legs|, i requires 0 <= i < |legs| =>
      Leg(None, Instrument(legs[i].symbol, Paper), legs[i].side, None, legs[i].qty, 0.0))
  }

  const UNTOUCHED := Tally([], [], false, true)

  /** A basket is taken for fully filled, with no leg found filled, exactly when no leg has an order id. */
  lemma {:induction false} PassesUnseenIff(legs: seq<Leg>, reports: seq<Report>)
    requires |legs| == |reports|
    ensures Examine(legs, reports) == UNTOUCHED <==> forall i :: 0 <= i < |legs| ==> !HasId(legs[i])
  {
    var n := |legs|;
    if n > 0 {
      PassesUnseenIff(legs[..n - 1], reports[..n - 1]);
      assert forall i :: 0 <= i < n - 1 ==> legs[..n - 1][i] == legs[i];
      var t := Examine(legs[..n - 1], reports[..n - 1]);
      assert ExamineLeg(t, legs[n - 1], reports[n - 1]) == UNTOUCHED ==> t == UNTOUCHED && !HasId(legs[n - 1]);
    }
  }

  lemma {:induction false} NothingWithoutIds(legs: seq<Leg>, reports: seq<Report>, live: bool)
    requires |legs| == |reports| && forall i :: 0 <= i < |legs| ==> !HasId(legs[i])
    ensures Closing(legs, reports) == [] && Freed(legs, reports, live) == []
  {
    var n := |legs|;
    if n > 0 {
      NothingWithoutIds(legs[..n - 1], reports[..n - 1], live);
    }
  }

  /**
   Announced legs carry no order id, so whatever their reports say the reconciler takes the basket for
   fully filled: it never rolls back, forces nothing, closes nothing and frees nothing.
   */
  lemma AnnouncedBasketsPassUnseen(legs: seq<Announced>, reports: seq<Report>)
    requires |legs| == |reports|
    ensures Examine(Announce(legs), reports) == UNTOUCHED
    ensures Closing(Announce(legs), reports) == []
    ensures Freed(Announce(legs), reports, true) == [] == Freed(Announce(legs), reports, false)
  {
    PassesUnseenIff(Announce(legs), reports);
    NothingWithoutIds(Announce(legs), reports, true);
    NothingWithoutIds(Announce(legs), reports, false);
  }

  // ---------------------------------------------------------------- the dead letter

  const MAX_ROLLBACKS := 3

  /** The retry count after a trigger (0 when the entry is removed), and whether it was dead-lettered. */
  function Retry(count: nat): (nat, bool) {
    if count + 1 > MAX_ROLLBACKS then (0, true) else (count + 1, false)
  }

  function RetriesAfter(n: nat): nat {
    if n == 0 then 0 else Retry(RetriesAfter(n - 1)).0
  }

  /** Of the rollbacks triggered for one basket, exactly every fourth is handed to a human instead. */
  lemma {:induction false} EveryFourthIsDeadLettered(n: nat)
    ensures RetriesAfter(n) == n % 4
    ensures Retry(RetriesAfter(n)).1 <==> (n + 1) % 4 == 0
  {
    if n > 0 {
      EveryFourthIsDeadLettered(n - 1);
    }
  }

  // ---------------------------------------------------------------- the reconciler

  class OrderReconciler {
    var inflight: map<string, seq<Leg>>
    var rollbackRetries: map<string, nat>
    var sent: seq<Order>
    var interventions: seq<string>
    const margin: MarginManager

    constructor (margin: MarginManager)
      ensures this.margin == margin && inflight == map[] && rollbackRetries == map[]
      ensures sent == [] && interventions == []
    {
      this.margin := margin;
      inflight, rollbackRetries, sent, interventions := map[], map[], [], [];
    }

    function Count(uuid: string): nat
      reads this
    {
      if uuid in rollbackRetries then rollbackRetries[uuid] else 0
    }

    method Track(uuid: string, legs: seq<Leg>)
      modifies this
      ensures inflight == old(inflight)[uuid := legs]
      ensures rollbackRetries == old(rollbackRetries) && sent == old(sent) && interventions == old(interventions)
    {
      inflight := inflight[uuid := legs];
    }

    method ForceFill(legs: seq<Leg>)
      modifies this
      ensures sent == old(sent) + ForceOrders(legs)
      ensures inflight == old(inflight) && rollbackRetries == old(rollbackRetries)
      ensures interventions == old(interventions)
    {
      for i := 0 to |legs|
        invariant sent == old(sent) + ForceOrders(legs[..i])
        invariant inflight == old(inflight) && rollbackRetries == old(rollbackRetries)
        invariant interventions == old(interventions)
      {
        assert ForceOrders(legs[..i + 1]) == ForceOrders(legs[..i]) + [ForceOrder(legs[i])];
        sent := sent + [ForceOrder(legs[i])];
      }
      assert legs[..|legs|] == legs;
    }

    /** Gives back a refused leg's margin and closes an executed leg. */
    method SettleLeg(leg: Leg, r: Report)
      modifies this, margin
      ensures inflight == old(inflight) && rollbackRetries == old(rollbackRetries)
      ensures interventions == old(interventions)
      ensures sent == old(sent) + ClosingOrder(leg, r)
      ensures margin.live == if Frees(leg, r, true) then ReleaseStep(old(margin.live), leg.reserved, 0.0)
                             else old(margin.live)
      ensures margin.paper == if Frees(leg, r, false) then ReleaseStep(old(margin.paper), leg.reserved, 0.0)
                              else old(margin.paper)
    {
      hide ReleaseStep;
      if HasId(leg) {
        if Refused(r) && leg.reserved > 0.0 {
          var _ := margin.Release(leg.reserved, 0.0, leg.instrument.exec);
        }
        if Executed(r) && r.filled > 0.0 {
          sent := sent + [Order(leg.instrument, Opposite(leg.side), r.filled)];
        }
      }
    }

    method TriggerRollback(uuid: string, legs: seq<Leg>, reports: seq<Report>)
      requires |legs| == |reports|
      modifies this, margin
      ensures inflight == old(inflight)
      ensures Count(uuid) == Retry(old(Count(uuid))).0
      ensures rollbackRetries - {uuid} == old(rollbackRetries) - {uuid}
      ensures Retry(old(Count(uuid))).1 ==>
                && interventions == old(interventions) + [uuid] && sent == old(sent)
                && margin.live == old(margin.live) && margin.paper == old(margin.paper)
      ensures !Retry(old(Count(uuid))).1 ==>
                && interventions == old(interventions) && sent == old(sent) + Closing(legs, reports)
                && margin.live == ReleaseAll(old(margin.live), Freed(legs, reports, true))
                && margin.paper == ReleaseAll(old(margin.paper), Freed(legs, reports, false))
    {
      hide ReleaseStep, Frees, ClosingOrder;
      var retryCount := Count(uuid) + 1;
      rollbackRetries := rollbackRetries[uuid := retryCount];
      if retryCount > MAX_ROLLBACKS {
        interventions := interventions + [uuid];
        rollbackRetries := rollbackRetries - {uuid};
        return;
      }
      for i := 0 to |legs|
        invariant inflight == old(inflight) && interventions == old(interventions)
        invariant rollbackRetries == old(rollbackRetries)[uuid := retryCount]
        invariant sent == old(sent) + Closing(legs[..i], reports[..i])
        invariant margin.live == ReleaseAll(old(margin.live), Freed(legs[..i], reports[..i], true))
        invariant margin.paper == ReleaseAll(old(margin.paper), Freed(legs[..i], reports[..i], false))
      {
        assert legs[..i + 1][..i] == legs[..i] && reports[..i + 1][..i] == reports[..i];
        SettleLeg(legs[i], reports[i]);
      }
      assert legs[..|legs|] == legs && reports[..|reports|] == reports;
    }

    /** One reconciliation: `first` are the reports read now, `second` those a rollback reads again. */
    method Reconcile(uuid: string, first: seq<Report>, second: seq<Report>)
      requires uuid in inflight ==> |inflight[uuid]| == |first| == |second|
      modifies this, margin
      ensures inflight == old(inflight) - {uuid}
      ensures uuid !in old(inflight) ==> sent == old(sent)
      ensures uuid !in old(inflight) || !Examine(old(inflight)[uuid], first).rejected ==>
                && rollbackRetries == old(rollbackRetries) && interventions == old(interventions)
                && margin.live == old(margin.live) && margin.paper == old(margin.paper)
      ensures uuid in old(inflight) && !Examine(old(inflight)[uuid], first).rejected ==>
                sent == old(sent) + ForceOrders(WingFirst(Examine(old(inflight)[uuid], first).forced))
      ensures uuid in old(inflight) && Examine(old(inflight)[uuid], first).rejected ==>
                && Count(uuid) == Retry(old(Count(uuid))).0
                && rollbackRetries - {uuid} == old(rollbackRetries) - {uuid}
      ensures uuid in old(inflight) && Examine(old(inflight)[uuid], first).rejected && Retry(old(Count(uuid))).1 ==>
                && interventions == old(interventions) + [uuid] && sent == old(sent)
                && margin.live == old(margin.live) && margin.paper == old(margin.paper)
      ensures uuid in old(inflight) && Examine(old(inflight)[uuid], first).rejected && !Retry(old(Count(uuid))).1 ==>
                && interventions == old(interventions)
                && sent == old(sent) + Closing(old(inflight)[uuid], second)
                && margin.live == ReleaseAll(old(margin.live), Freed(old(inflight)[uuid], second, true))
                && margin.paper == ReleaseAll(old(margin.paper), Freed(old(inflight)[uuid], second, false))
    {
      if uuid !in inflight {
        return;
      }
      var legs := inflight[uuid];
      inflight := inflight - {uuid};
      var t := Tally([], [], false, true);
      for i := 0 to |legs|
        invariant t == Examine(legs[..i], first[..i])
      {
        assert legs[..i + 1][..i] == legs[..i] && first[..i + 1][..i] == first[..i];
        t := ExamineLeg(t, legs[i], first[i]);
      }
      assert legs[..|legs|] == legs && first[..|first|] == first;
      if t.rejected && t.filled != [] {
        TriggerRollback(uuid, legs, second);
        return;
      }
      if t.rejected {
        TriggerRollback(uuid, legs, second);
      } else if t.forced != [] {
        ForceFill(WingFirst(t.forced));
      }
    }
  }
}
