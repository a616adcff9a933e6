/**
 Position accounting of daemons/unified_bridge.py: the common P&L engine over portfolio rows, the
 realised total of each reality, and the panic liquidation that is built on it.
 */
module PositionAccounting {
  import opened Reals
  import opened Basics

  datatype Reality = Paper | Actual | Shadow

  datatype Key = Key(symbol: string, strategy: string, parent: string, reality: Reality)

  /** A portfolio row. Quantities are whole numbers of units, negative for a short position. */
  datatype Row = Row(quantity: int, avgPrice: real, realized: real)

  function MinInt(x: int, y: int): int {
    if x <= y then x else y
  }

  // ---------------------------------------------------------------- one fill

  predicate Closes(current: int, qty: int) {
    (current > 0 && qty < 0) || (current < 0 && qty > 0)
  }

  function NewAverage(r: Row, qty: int, price: real): real {
    var q := r.quantity + qty;
    if AbsInt(q) > AbsInt(r.quantity) then
      Over(Times(AbsInt(r.quantity) as real, r.avgPrice) + Times(AbsInt(qty) as real, price), AbsInt(q) as real)
    else if q == 0 then 0.0
    else r.avgPrice
  }

  function NewRealized(r: Row, qty: int, price: real, fees: real): real {
    if r.quantity > 0 && qty < 0 then
      r.realized + Times(MinInt(r.quantity, -qty) as real, price - r.avgPrice) - fees
    else if r.quantity < 0 && qty > 0 then
      r.realized + Times(MinInt(-r.quantity, qty) as real, r.avgPrice - price) - fees
    else r.realized
  }

  /** The row after a fill of signed quantity `qty`. A first fill opens the row and charges no fees. */
  function Book(row: Option<Row>, qty: int, price: real, fees: real): Row {
    match row
    case None => Row(qty, price, 0.0)
    case Some(r) => Row(r.quantity + qty, NewAverage(r, qty, price), NewRealized(r, qty, price, fees))
  }

  // ---------------------------------------------------------------- cash flow of one key

  datatype Fill = Fill(qty: int, price: real, fees: real)

  /**
   The row beside what really happened: the net cash received for sales, the fees charged on closing
   fills, and the prices at which the present position was opened since it was last flat.
   */
  datatype Ledger = Ledger(row: Option<Row>, cash: real, closingFees: real, openPrices: seq<real>)

  const EMPTY := Ledger(None, 0.0, 0.0, [])

  function Held(l: Ledger): int {
    if l.row.Some? then l.row.value.quantity else 0
  }

  function LedgerStep(l: Ledger, f: Fill): Ledger {
    var q := Held(l) + f.qty;
    Ledger(Some(Book(l.row, f.qty, f.price, f.fees)),
           l.cash - Times(f.qty as real, f.price),
           if Closes(Held(l), f.qty) then l.closingFees + f.fees else l.closingFees,
           if q == 0 then [] else if AbsInt(q) > AbsInt(Held(l)) then l.openPrices + [f.price] else l.openPrices)
  }

  function Run(l: Ledger, fills: seq<Fill>): Ledger
    decreases |fills|
  {
    if fills == [] then l else Run(LedgerStep(l, fills[0]), fills[1..])
  }

  /** Realised P&L plus closing fees, against net sale cash plus the position at its average price. */
  function Gap(l: Ledger): real {
    match l.row
    case None => l.closingFees - l.cash
    case Some(r) => r.realized + l.closingFees - l.cash - Times(r.quantity as real, r.avgPrice)
  }

  /** The fill takes a long position short, or a short one long. */
  predicate Crosses(current: int, qty: int) {
    (current > 0 && current + qty < 0) || (current < 0 && current + qty > 0)
  }

  ghost predicate NeverCrosses(l: Ledger, fills: seq<Fill>)
    decreases |fills|
  {
    fills == [] || (!Crosses(Held(l), fills[0].qty) && NeverCrosses(LedgerStep(l, fills[0]), fills[1..]))
  }

  lemma TimesNeg(x: real, y: real)
    ensures Times(-x, y) == -Times(x, y)
  {
  }

  lemma TimesDiff(k: real, x: real, y: real)
    ensures Times(k, x - y) == Times(k, x) - Times(k, y)
  {
  }

  /** A fill in the direction of the position, or into a flat row: the average absorbs the cash. */
  lemma OpeningKeepsGap(l: Ledger, f: Fill)
    requires l.row.Some? && !Closes(Held(l), f.qty)
    ensures Gap(LedgerStep(l, f)) == Gap(l)
  {
    hide Times, Over;
    var r := l.row.value;
    var q := r.quantity + f.qty;
    var a, b, n := AbsInt(r.quantity) as real, AbsInt(f.qty) as real, AbsInt(q) as real;
    TimesNeg(a, r.avgPrice);
    TimesNeg(b, f.price);
    TimesUnit(f.price);
    if AbsInt(q) > AbsInt(r.quantity) {
      OverTimes(Times(a, r.avgPrice) + Times(b, f.price), n);
      TimesComm(NewAverage(r, f.qty, f.price), n);
      TimesNeg(n, NewAverage(r, f.qty, f.price));
    } else {
      TimesUnit(r.avgPrice);
      TimesUnit(NewAverage(r, f.qty, f.price));
    }
  }

  /** A closing fill that stops at or before zero realises exactly its own cash. */
  lemma ClosingKeepsGap(l: Ledger, f: Fill)
    requires l.row.Some? && Closes(Held(l), f.qty) && !Crosses(Held(l), f.qty)
    ensures Gap(LedgerStep(l, f)) == Gap(l)
  {
    hide Times, Over;
    var r := l.row.value;
    var q := r.quantity + f.qty;
    var b := AbsInt(f.qty) as real;
    TimesNeg(b, f.price);
    TimesNeg(b, r.avgPrice);
    TimesDiff(b, f.price, r.avgPrice);
    TimesDiff(b, r.avgPrice, f.price);
    TimesAdd(r.quantity as real, f.qty as real, r.avgPrice);
    TimesUnit(r.avgPrice);
    TimesUnit(0.0);
    assert q as real == r.quantity as real + f.qty as real;
  }

  lemma FirstFillKeepsGap(l: Ledger, f: Fill)
    requires l.row.None?
    ensures Gap(LedgerStep(l, f)) == Gap(l)
  {
  }

  /** What a crossing fill adds to the gap. */
  lemma CrossingGap(l: Ledger, f: Fill)
    requires l.row.Some? && Crosses(Held(l), f.qty)
    ensures var r := l.row.value;
            var q := r.quantity + f.qty;
            Gap(LedgerStep(l, f)) - Gap(l) ==
            if AbsInt(q) > AbsInt(r.quantity) then Times(r.quantity as real, f.price + r.avgPrice)
            else Times(q as real, f.price - r.avgPrice)
  {
    hide Times, Over;
    var r := l.row.value;
    var q := r.quantity + f.qty;
    var a, b, n := AbsInt(r.quantity) as real, AbsInt(f.qty) as real, AbsInt(q) as real;
    TimesNeg(a, r.avgPrice);
    TimesNeg(a, f.price);
    TimesNeg(b, f.price);
    TimesDiff(a, f.price, r.avgPrice);
    TimesDiff(a, r.avgPrice, f.price);
    TimesDiff(r.quantity as real, f.price, -r.avgPrice);
    TimesComm(r.quantity as real, -r.avgPrice);
    TimesNeg(r.avgPrice, r.quantity as real);
    TimesComm(r.quantity as real, r.avgPrice);
    if AbsInt(q) > AbsInt(r.quantity) {
      var avg := NewAverage(r, f.qty, f.price);
      OverTimes(Times(a, r.avgPrice) + Times(b, f.price), n);
      TimesComm(avg, n);
      TimesNeg(n, avg);
    } else {
      TimesDiff(q as real, f.price, r.avgPrice);
      TimesAdd(r.quantity as real, f.qty as real, f.price);
      TimesNeg(n, r.avgPrice);
      assert q as real == r.quantity as real + f.qty as real;
    }
  }

  lemma ZeroProduct(k: real, x: real)
    requires k != 0.0
    ensures Times(k, x) == 0.0 <==> x == 0.0
  {
  }

  /**
   Exactly when a fill keeps the P&L identity: when it does not take the position through zero, or
   when it does so at a price at which the wrong average happens not to matter.
   */
  lemma FillKeepsGapIff(l: Ledger, f: Fill)
    ensures Gap(LedgerStep(l, f)) == Gap(l) <==>
              (!Crosses(Held(l), f.qty) ||
               f.price == if AbsInt(Held(l) + f.qty) > AbsInt(Held(l)) then -l.row.value.avgPrice
                          else l.row.value.avgPrice)
  {
    hide Gap, LedgerStep, Times;
    if Crosses(Held(l), f.qty) {
      CrossingGap(l, f);
      ZeroProduct(Held(l) as real, f.price + l.row.value.avgPrice);
      ZeroProduct((Held(l) + f.qty) as real, f.price - l.row.value.avgPrice);
    } else if l.row.None? {
      FirstFillKeepsGap(l, f);
    } else if Closes(Held(l), f.qty) {
      ClosingKeepsGap(l, f);
    } else {
      OpeningKeepsGap(l, f);
    }
  }

  lemma {:induction false} RunKeepsGap(l: Ledger, fills: seq<Fill>)
    requires NeverCrosses(l, fills)
    ensures Gap(Run(l, fills)) == Gap(l)
    decreases |fills|
  {
    hide Gap, LedgerStep;
    if fills != [] {
      FillKeepsGapIff(l, fills[0]);
      RunKeepsGap(LedgerStep(l, fills[0]), fills[1..]);
    }
  }

  /**
   The P&L identity over every run of fills on one key that never passes through zero: what the row
   has realised, with the closing fees put back, is the net sale cash plus the position at cost.
   */
  lemma PnlIdentity(fills: seq<Fill>)
    requires fills != [] && NeverCrosses(EMPTY, fills)
    ensures var l := Run(EMPTY, fills);
            && l.row.Some?
            && l.row.value.realized + l.closingFees ==
               l.cash + Times(l.row.value.quantity as real, l.row.value.avgPrice)
  {
    hide Times, Over;
    RunKeepsGap(EMPTY, fills);
    RunHasRow(EMPTY, fills);
  }

  lemma {:induction false} RunHasRow(l: Ledger, fills: seq<Fill>)
    ensures l.row.Some? || fills != [] ==> Run(l, fills).row.Some?
    decreases |fills|
  {
    hide Book;
    if fills != [] {
      RunHasRow(LedgerStep(l, fills[0]), fills[1..]);
    }
  }

  // ------------------------------------------------ the average price

  ghost predicate Within(prices: seq<real>, lo: real, hi: real) {
    forall i :: 0 <= i < |prices| ==> lo <= prices[i] <= hi
  }

  /** The average lies between any bounds on the opening prices since the row was last flat. */
  ghost predicate AverageWithin(l: Ledger, lo: real, hi: real) {
    Within(l.openPrices, lo, hi) && Held(l) != 0 ==> lo <= l.row.value.avgPrice <= hi
  }

  lemma WeightedBetween(a: real, x: real, b: real, y: real, lo: real, hi: real)
    requires a >= 0.0 && b >= 0.0 && a + b > 0.0
    requires lo <= y <= hi && (a > 0.0 ==> lo <= x <= hi)
    ensures lo <= Over(Times(a, x) + Times(b, y), a + b) <= hi
  {
    hide Times, Over;
    if a > 0.0 {
      TimesMono(lo, x, a);
      TimesMono(x, hi, a);
    } else {
      TimesUnit(x);
      TimesUnit(lo);
      TimesUnit(hi);
    }
    TimesMono(lo, y, b);
    TimesMono(y, hi, b);
    TimesAdd(a, b, lo);
    TimesAdd(a, b, hi);
    TimesComm(lo, a + b);
    TimesComm(hi, a + b);
    OverAtLeast(Times(a, x) + Times(b, y), a + b, lo);
    OverAtMost(Times(a, x) + Times(b, y), a + b, hi);
  }

  lemma StepKeepsAverage(l: Ledger, f: Fill, lo: real, hi: real)
    requires AverageWithin(l, lo, hi) && !Crosses(Held(l), f.qty)
    ensures AverageWithin(LedgerStep(l, f), lo, hi)
  {
    hide Times, Over;
    var q := Held(l) + f.qty;
    var l' := LedgerStep(l, f);
    if Within(l'.openPrices, lo, hi) && q != 0 && l.row.Some? && AbsInt(q) > AbsInt(Held(l)) {
      assert l'.openPrices[|l.openPrices|] == f.price;
      assert Within(l.openPrices, lo, hi) by {
        assert forall i :: 0 <= i < |l.openPrices| ==> l.openPrices[i] == l'.openPrices[i];
      }
      WeightedBetween(AbsInt(Held(l)) as real, l.row.value.avgPrice, AbsInt(f.qty) as real, f.price, lo, hi);
      assert AbsInt(q) as real == AbsInt(Held(l)) as real + AbsInt(f.qty) as real;
    } else if Within(l'.openPrices, lo, hi) && q != 0 && l.row.None? {
      assert l'.openPrices[|l.openPrices|] == f.price;
    }
  }

  lemma {:induction false} RunKeepsAverage(l: Ledger, fills: seq<Fill>, lo: real, hi: real)
    requires AverageWithin(l, lo, hi) && NeverCrosses(l, fills)
    ensures AverageWithin(Run(l, fills), lo, hi)
    decreases |fills|
  {
    hide LedgerStep, AverageWithin;
    if fills != [] {
      StepKeepsAverage(l, fills[0], lo, hi);
      RunKeepsAverage(LedgerStep(l, fills[0]), fills[1..], lo, hi);
    }
  }

  /** Over every such run the average price of an open position is bounded by its opening prices. */
  lemma AverageBetweenOpenings(fills: seq<Fill>, lo: real, hi: real)
    requires NeverCrosses(EMPTY, fills)
    ensures var l := Run(EMPTY, fills);
            Held(l) != 0 && Within(l.openPrices, lo, hi) ==> lo <= l.row.value.avgPrice <= hi
  {
    hide LedgerStep;
    RunKeepsAverage(EMPTY, fills, lo, hi);
  }

  // ---------------------------------------------------------------- the whole portfolio

  function RealizedAt(m: map<Key, Row>, k: Key, e: Reality): real {
    if k in m && k.reality == e then m[k].realized else 0.0
  }

  /** The realised P&L of the rows of one reality, summed over a set of keys. */
  ghost function RealizedOver(m: map<Key, Row>, keys: set<Key>, e: Reality): real {
    if keys == {} then 0.0
    else
      var k :| k in keys;
      RealizedAt(m, k, e) + RealizedOver(m, keys - {k}, e)
  }

  lemma {:induction false} RealizedPick(m: map<Key, Row>, keys: set<Key>, k: Key, e: Reality)
    requires k in keys
    ensures RealizedOver(m, keys, e) == RealizedAt(m, k, e) + RealizedOver(m, keys - {k}, e)
    decreases keys
  {
    var j :| j in keys && RealizedOver(m, keys, e) == RealizedAt(m, j, e) + RealizedOver(m, keys - {j}, e);
    if j != k {
      RealizedPick(m, keys - {j}, k, e);
      RealizedPick(m, keys - {k}, j, e);
      assert keys - {j} - {k} == keys - {k} - {j};
    }
  }

  lemma {:induction false} RealizedFrame(m: map<Key, Row>, m': map<Key, Row>, keys: set<Key>, e: Reality)
    requires forall k :: k in keys ==> RealizedAt(m, k, e) == RealizedAt(m', k, e)
    ensures RealizedOver(m, keys, e) == RealizedOver(m', keys, e)
    decreases keys
  {
    if keys != {} {
      var k :| k in keys;
      RealizedPick(m, keys, k, e);
      RealizedPick(m', keys, k, e);
      RealizedFrame(m, m', keys - {k}, e);
    }
  }

  /** Writing one row moves the sum by the change of that row. */
  lemma RealizedUpdate(m: map<Key, Row>, k: Key, r: Row, e: Reality)
    ensures var m' := m[k := r];
            RealizedOver(m', m'.Keys, e) ==
            RealizedOver(m, m.Keys, e) + (RealizedAt(m', k, e) - RealizedAt(m, k, e))
  {
    var m' := m[k := r];
    assert m'.Keys == m.Keys + {k};
    var others := m.Keys - {k};
    assert m'.Keys - {k} == others;
    RealizedPick(m', m'.Keys, k, e);
    RealizedFrame(m, m', others, e);
    if k in m {
      RealizedPick(m, m.Keys, k, e);
    } else {
      assert others == m.Keys;
    }
  }

  function Lookup(m: map<Key, Row>, k: Key): Option<Row> {
    if k in m then Some(m[k]) else None
  }

  /** The panic fill of a row: the whole quantity at price zero. */
  function PanicFlat(r: Row): Row {
    Book(Some(r), -r.quantity, 0.0, 20.0)
  }

  const SEBI_BATCH_SIZE := 10

  class UnifiedExecutionBridge {
    var portfolio: map<Key, Row>
    var totalPaper: real
    var totalActual: real

    constructor (totalPaper: real, totalActual: real)
      ensures portfolio == map[] && this.totalPaper == totalPaper && this.totalActual == totalActual
    {
      portfolio := map[];
      this.totalPaper, this.totalActual := totalPaper, totalActual;
    }

    /** How far the running total of a reality is from the sum of its rows. */
    ghost function Drift(e: Reality): real
      reads this
    {
      (if e == Paper then totalPaper else if e == Actual then totalActual else 0.0)
      - RealizedOver(portfolio, portfolio.Keys, e)
    }

    /**
     One execution. The totals map has no entry for shadow fills: updating an existing shadow row
     fails after the row has been written.
     */
    method UpdatePortfolio(key: Key, isBuy: bool, quantity: int, price: real, fees: real) returns (ok: bool)
      modifies this
      ensures var qty := if isBuy then quantity else -quantity;
              portfolio == old(portfolio)[key := Book(Lookup(old(portfolio), key), qty, price, fees)]
      ensures ok == (key !in old(portfolio) || key.reality != Shadow)
      ensures Drift(Paper) == old(Drift(Paper)) && Drift(Actual) == old(Drift(Actual))
    {
      hide Times, Over;
      var qty := if isBuy then quantity else -quantity;
      ghost var row := Book(Lookup(portfolio, key), qty, price, fees);
      RealizedUpdate(portfolio, key, row, Paper);
      RealizedUpdate(portfolio, key, row, Actual);
      if key !in portfolio {
        portfolio := portfolio[key := Row(qty, price, 0.0)];
        return true;
      }
      var r := portfolio[key];
      var newQ := r.quantity + qty;
      var newAvg := r.avgPrice;
      var realized := r.realized;
      if r.quantity > 0 && qty < 0 {
        realized := realized + Times(MinInt(r.quantity, AbsInt(qty)) as real, price - r.avgPrice) - fees;
      } else if r.quantity < 0 && qty > 0 {
        realized := realized + Times(MinInt(AbsInt(r.quantity), qty) as real, r.avgPrice - price) - fees;
      }
      if AbsInt(newQ) > AbsInt(r.quantity) {
        newAvg := Over(Times(AbsInt(r.quantity) as real, r.avgPrice) + Times(AbsInt(qty) as real, price),
                       AbsInt(newQ) as real);
      } else if newQ == 0 {
        newAvg := 0.0;
      }
      portfolio := portfolio[key := Row(newQ, newAvg, realized)];
      match key.reality {
        case Paper => totalPaper := totalPaper + (realized - r.realized);
        case Actual => totalActual := totalActual + (realized - r.realized);
        case Shadow => return false;
      }
      ok := true;
    }

    /**
     The panic liquidation of the open positions in the order the query returned them, in batches of
     ten. An existing shadow row ends the run on the spot, after the row itself has been written.
     */
    method LiquidateAll(positions: seq<Key>) returns (ok: bool)
      requires Distinct(positions) && forall i :: 0 <= i < |positions| ==> positions[i] in portfolio
      modifies this
      ensures portfolio == Liquidated(old(portfolio), positions)
      ensures ok == NoShadow(positions)
      ensures Drift(Paper) == old(Drift(Paper)) && Drift(Actual) == old(Drift(Actual))
    {
      hide Times, Over, Book, RealizedOver;
      var i, done := 0, 0;
      while i < |positions|
        invariant 0 <= done <= |positions|
        invariant (i <= |positions| ==> done == i) && (i > |positions| ==> done == |positions|)
        invariant Pending(portfolio, positions[done..], old(portfolio), positions)
        invariant Drift(Paper) == old(Drift(Paper)) && Drift(Actual) == old(Drift(Actual))
        decreases |positions| - i
      {
        var end := if i + SEBI_BATCH_SIZE < |positions| then i + SEBI_BATCH_SIZE else |positions|;
        while done < end
          invariant i <= done <= end
          invariant Pending(portfolio, positions[done..], old(portfolio), positions)
          invariant Drift(Paper) == old(Drift(Paper)) && Drift(Actual) == old(Drift(Actual))
        {
          var key := positions[done];
          ghost var before := portfolio;
          assert positions[done..][0] == key && positions[done..][1..] == positions[done + 1..];
          var q := portfolio[key].quantity;
          var sent := UpdatePortfolio(key, !(q > 0), AbsInt(q), 0.0, 20.0);
          assert portfolio == before[key := PanicFlat(before[key])];
          done := done + 1;
          if !sent {
            return false;
          }
        }
        i := i + SEBI_BATCH_SIZE;
      }
      ok := true;
    }
  }

  ghost predicate Distinct(positions: seq<Key>) {
    forall i, j :: 0 <= i < j < |positions| ==> positions[i] != positions[j]
  }

  predicate NoShadow(positions: seq<Key>) {
    positions == [] || (positions[0].reality != Shadow && NoShadow(positions[1..]))
  }

  /** The portfolio after a liquidation: rows are flattened in order up to the first shadow row. */
  function Liquidated(m: map<Key, Row>, positions: seq<Key>): map<Key, Row>
    decreases |positions|
  {
    if positions == [] || positions[0] !in m then m
    else
      var m' := m[positions[0] := PanicFlat(m[positions[0]])];
      if positions[0].reality == Shadow then m' else Liquidated(m', positions[1..])
  }

  /** Liquidating the rest from here gives what liquidating everything gives from the start. */
  ghost predicate Pending(now: map<Key, Row>, rest: seq<Key>, before: map<Key, Row>, positions: seq<Key>) {
    && Liquidated(now, rest) == Liquidated(before, positions)
    && NoShadow(rest) == NoShadow(positions)
    && (forall i :: 0 <= i < |rest| ==> rest[i] in now)
  }

  lemma {:induction false} LiquidatedFrame(m: map<Key, Row>, positions: seq<Key>, k: Key)
    requires k in m && k !in positions
    ensures k in Liquidated(m, positions) && Liquidated(m, positions)[k] == m[k]
    decreases |positions|
  {
    hide PanicFlat;
    if positions != [] && positions[0] in m {
      LiquidatedFrame(m[positions[0] := PanicFlat(m[positions[0]])], positions[1..], k);
    }
  }

  /** Every position up to and including the first shadow row is flat; those after it are untouched. */
  lemma {:induction false} LiquidatedAt(m: map<Key, Row>, positions: seq<Key>, i: nat)
    requires Distinct(positions) && i < |positions|
    requires forall j :: 0 <= j < |positions| ==> positions[j] in m
    ensures positions[i] in Liquidated(m, positions)
    ensures Liquidated(m, positions)[positions[i]] ==
            if NoShadow(positions[..i]) then PanicFlat(m[positions[i]]) else m[positions[i]]
    decreases |positions|
  {
    hide PanicFlat;
    var m' := m[positions[0] := PanicFlat(m[positions[0]])];
    if i == 0 {
      assert positions[0] !in positions[1..];
      LiquidatedFrame(m', positions[1..], positions[0]);
    } else {
      assert positions[..i][0] == positions[0] && positions[..i][1..] == positions[1..][..i - 1];
      if positions[0].reality != Shadow {
        LiquidatedAt(m', positions[1..], i - 1);
      }
    }
  }

  lemma {:induction false} NoShadowMeans(positions: seq<Key>)
    ensures NoShadow(positions) <==> forall i :: 0 <= i < |positions| ==> positions[i].reality != Shadow
  {
    if positions != [] {
      NoShadowMeans(positions[1..]);
      if NoShadow(positions[1..]) {
        forall i | 0 < i < |positions|
          ensures positions[i].reality != Shadow
        {
          assert positions[i] == positions[1..][i - 1];
        }
      } else {
        var i :| 0 <= i < |positions[1..]| && positions[1..][i].reality == Shadow;
        assert positions[i + 1].reality == Shadow;
      }
    }
  }

  /**
   A square-off flattens every open position exactly when no shadow position precedes another
   position in the order of the query.
   */
  lemma LiquidationFlattensAllIff(m: map<Key, Row>, positions: seq<Key>)
    requires Distinct(positions)
    requires forall i :: 0 <= i < |positions| ==> positions[i] in m && m[positions[i]].quantity != 0
    ensures (forall i :: 0 <= i < |positions| ==>
               positions[i] in Liquidated(m, positions) && Liquidated(m, positions)[positions[i]].quantity == 0)
            <==> (forall i :: 0 <= i < |positions| - 1 ==> positions[i].reality != Shadow)
  {
    hide Liquidated, PanicFlat;
    var n := |positions|;
    forall i | 0 <= i < n
      ensures positions[i] in Liquidated(m, positions)
      ensures Liquidated(m, positions)[positions[i]].quantity == 0 <==> NoShadow(positions[..i])
    {
      LiquidatedAt(m, positions, i);
      PanicFlatIsFlat(m[positions[i]]);
    }
    if n > 0 {
      NoShadowMeans(positions[..n - 1]);
      if NoShadow(positions[..n - 1]) {
        forall i | 0 <= i < n
          ensures NoShadow(positions[..i])
        {
          NoShadowMeans(positions[..i]);
        }
      }
    }
  }

  /** A panic fill leaves the row flat and books the whole cost basis as realised. */
  lemma PanicFlatIsFlat(r: Row)
    requires r.quantity != 0
    ensures PanicFlat(r) == Row(0, 0.0, r.realized - Times(r.quantity as real, r.avgPrice) - 20.0)
  {
    hide Times, Over;
    var n := AbsInt(r.quantity) as real;
    TimesDiff(n, 0.0, r.avgPrice);
    TimesDiff(n, r.avgPrice, 0.0);
    TimesUnit(n);
    TimesNeg(n, r.avgPrice);
  }
}
