/**
 The liquidation daemon over a portfolio of positions: daemons/liquidation_daemon.py with
 core/risk/portfolio_state.py. What each exit does to positions and orders, exactly which steps keep
 "sold plus held" constant, and the life of one long kinetic position over whole runs.
 */
module Liquidation {
  import opened Reals
  import opened Basics
  import opened KineticBarrier

  datatype Order = Order(symbol: string, side: Side, quantity: nat, price: real)

  /** Positions in the order of the daemon's dictionary, and every order sent so far. */
  datatype State = State(positions: seq<Position>, sent: seq<Order>)

  // ---------------------------------------------------------------- the position dictionary

  function Find(ps: seq<Position>, x: string): Option<Position> {
    if ps == [] then None else if ps[0].symbol == x then Some(ps[0]) else Find(ps[1..], x)
  }

  function Without(ps: seq<Position>, x: string): seq<Position> {
    if ps == [] then []
    else (if ps[0].symbol == x then [] else [ps[0]]) + Without(ps[1..], x)
  }

  function Replace(ps: seq<Position>, x: string, p: Position): seq<Position> {
    if ps == [] then []
    else [if ps[0].symbol == x then p else ps[0]] + Replace(ps[1..], x, p)
  }

  /** All the legs that share a parent. */
  function Basket(ps: seq<Position>, parent: string): seq<Position> {
    if ps == [] then []
    else (if ps[0].parent == parent then [ps[0]] else []) + Basket(ps[1..], parent)
  }

  function BySign(ps: seq<Position>, long: bool): seq<Position> {
    if ps == [] then []
    else (if (ps[0].quantity > 0) == long then [ps[0]] else []) + BySign(ps[1..], long)
  }

  /** The stable sort that closes short legs before long ones. */
  function ShortsFirst(ps: seq<Position>): seq<Position> {
    BySign(ps, false) + BySign(ps, true)
  }

  ghost predicate Distinct(ps: seq<Position>) {
    forall i, j :: 0 <= i < j < |ps| ==> ps[i].symbol != ps[j].symbol
  }

  // ---------------------------------------------------------------- exits

  function CloseSide(quantity: int): Side {
    if quantity < 0 then Buy else Sell
  }

  function CloseOrder(p: Position, x: string, price: real): Order {
    Order(p.symbol, CloseSide(p.quantity), AbsInt(p.quantity), if p.symbol == x then price else 0.0)
  }

  /** The orders of a sequenced exit; legs of size zero are skipped. */
  function CloseOrders(legs: seq<Position>, x: string, price: real): seq<Order> {
    if legs == [] then []
    else (if legs[0].quantity == 0 then [] else [CloseOrder(legs[0], x, price)]) + CloseOrders(legs[1..], x, price)
  }

  function RemoveAll(ps: seq<Position>, legs: seq<Position>): seq<Position>
    decreases |legs|
  {
    if legs == [] then ps
    else RemoveAll(if legs[0].quantity == 0 then ps else Without(ps, legs[0].symbol), legs[1..])
  }

  predicate Sequenced(st: State, p: Position) {
    p.parent != "" && |Basket(st.positions, p.parent)| > 1
  }

  /** A full exit of the position object `p`, which need no longer be in the portfolio. */
  function Exit(st: State, p: Position, price: real): State {
    if p.quantity == 0 then st.(positions := Without(st.positions, p.symbol))
    else if Sequenced(st, p) then
      var legs := ShortsFirst(Basket(st.positions, p.parent));
      State(RemoveAll(st.positions, legs), st.sent + CloseOrders(legs, p.symbol, price))
    else st.(sent := st.sent + [CloseOrder(p, p.symbol, price)])
  }

  /** Truncation of a size by a fraction. */
  function ExitQty(size: nat, pct: real): int {
    var x := Times(size as real, pct);
    if x >= 0.0 then x.Floor else -((-x).Floor)
  }

  predicate Splits(p: Position, pct: real) {
    ExitQty(AbsInt(p.quantity), pct) != 0 && ExitQty(AbsInt(p.quantity), pct) != AbsInt(p.quantity)
  }

  /** A partial exit always sells, and stores what is left as a positive quantity. */
  function PartialExit(st: State, p: Position, price: real, pct: real): State
    requires 0.0 <= pct <= 1.0
  {
    ExitQtyBounds(AbsInt(p.quantity), pct);
    var size, cut := AbsInt(p.quantity), ExitQty(AbsInt(p.quantity), pct);
    if !Splits(p, pct) then Exit(st, p, price)
    else State(Replace(st.positions, p.symbol, p.(quantity := size - cut)),
               st.sent + [Order(p.symbol, Sell, cut, price)])
  }

  lemma ExitQtyBounds(size: nat, pct: real)
    requires 0.0 <= pct <= 1.0
    ensures 0 <= ExitQty(size, pct) <= size
  {
    hide Times;
    Weighted(size as real, pct);
  }

  /** One tick for one position: evaluate, write the updates back, then exit as the verdict says. */
  function Dispatch(st: State, p: Position, m: Market): State {
    var v := Evaluate(p, m);
    var p' := Apply(p, v.updates);
    var st' := st.(positions := Replace(st.positions, p.symbol, p'));
    if v.reason.None? then st'
    else if v.partial then PartialExit(st', p', m.price, PARTIAL_PCT)
    else Exit(st', p', m.price)
  }

  /**
   How much a partial exit sells: the greatest whole number of lots within the share, of a long or a short
   alike, keeping the rest; when that is nothing or everything, the position is exited in full instead.
   */
  lemma PartialExitSellsShare(st: State, p: Position, price: real, pct: real) returns (q: nat)
    requires 0.0 <= pct <= 1.0
    ensures var size := if p.quantity < 0 then -p.quantity else p.quantity;
            && q <= size && q as real <= size as real * pct < q as real + 1.0
            && PartialExit(st, p, price, pct) ==
                 if q == 0 || q == size then Exit(st, p, price)
                 else State(Replace(st.positions, p.symbol, p.(quantity := size - q)),
                            st.sent + [Order(p.symbol, Sell, q, price)])
  {
    hide Exit, Replace;
    ExitQtyBounds(AbsInt(p.quantity), pct);
    q := ExitQty(AbsInt(p.quantity), pct);
    ExitQtyIsFloor(AbsInt(p.quantity), pct);
  }

  lemma ExitQtyIsFloor(size: nat, pct: real)
    requires 0.0 <= pct <= 1.0
    ensures ExitQty(size, pct) as real <= size as real * pct < ExitQty(size, pct) as real + 1.0
  {
    TimesNonNeg(size as real, pct);
    assert Times(size as real, pct) == size as real * pct;
    hide Times;
  }

  // ---------------------------------------------------------------- sold and held

  function SoldBy(o: Order, x: string): int {
    if o.symbol != x then 0 else if o.side == Sell then o.quantity else -(o.quantity as int)
  }

  function Sold(orders: seq<Order>, x: string): int {
    if orders == [] then 0 else SoldBy(orders[0], x) + Sold(orders[1..], x)
  }

  function Held(ps: seq<Position>, x: string): int {
    if ps == [] then 0 else (if ps[0].symbol == x then ps[0].quantity else 0) + Held(ps[1..], x)
  }

  /** What the orders have sold of a symbol, plus what the portfolio says is left. */
  function Balance(st: State, x: string): int {
    Sold(st.sent, x) + Held(st.positions, x)
  }

  lemma {:induction false} SoldAppend(a: seq<Order>, b: seq<Order>, x: string)
    ensures Sold(a + b, x) == Sold(a, x) + Sold(b, x)
  {
    if a == [] {
      assert a + b == b;
    } else {
      assert (a + b)[1..] == a[1..] + b;
      SoldAppend(a[1..], b, x);
    }
  }

  lemma SoldOne(orders: seq<Order>, o: Order, x: string)
    ensures Sold(orders + [o], x) == Sold(orders, x) + SoldBy(o, x)
  {
    SoldAppend(orders, [o], x);
    assert [o][1..] == [];
  }

  lemma {:induction false} HeldAppend(a: seq<Position>, b: seq<Position>, x: string)
    ensures Held(a + b, x) == Held(a, x) + Held(b, x)
  {
    if a == [] {
      assert a + b == b;
    } else {
      assert (a + b)[1..] == a[1..] + b;
      HeldAppend(a[1..], b, x);
    }
  }

  lemma {:induction false} HeldBySign(ps: seq<Position>, x: string)
    ensures Held(BySign(ps, false), x) + Held(BySign(ps, true), x) == Held(ps, x)
  {
    if ps != [] {
      HeldBySign(ps[1..], x);
      HeldAppend([ps[0]], BySign(ps[1..], ps[0].quantity > 0), x);
      assert [ps[0]][1..] == [];
      assert BySign(ps, ps[0].quantity <= 0) == BySign(ps[1..], ps[0].quantity <= 0);
    }
  }

  /** The sequenced orders sell exactly what the legs hold. */
  lemma {:induction false} CloseOrdersSellAll(legs: seq<Position>, s: string, price: real, x: string)
    ensures Sold(CloseOrders(legs, s, price), x) == Held(legs, x)
  {
    if legs != [] {
      CloseOrdersSellAll(legs[1..], s, price, x);
      var o := CloseOrder(legs[0], s, price);
      SoldAppend([o], CloseOrders(legs[1..], s, price), x);
      assert [o][1..] == [];
      if legs[0].quantity == 0 {
        assert CloseOrders(legs, s, price) == CloseOrders(legs[1..], s, price);
      }
    }
  }

  // ---------------------------------------------------------------- facts about the dictionary

  lemma {:induction false} FindSome(ps: seq<Position>, x: string)
    ensures Find(ps, x).Some? <==> exists i :: 0 <= i < |ps| && ps[i].symbol == x
    ensures Find(ps, x).Some? ==> Find(ps, x).value.symbol == x && Find(ps, x).value in ps
    ensures Find(ps, x).None? ==> Held(ps, x) == 0
  {
    if ps != [] {
      FindSome(ps[1..], x);
      if i :| 0 <= i < |ps| && ps[i].symbol == x && i > 0 {
        assert ps[1..][i - 1].symbol == x;
      }
    }
  }

  lemma {:induction false} HeldFound(ps: seq<Position>, x: string)
    requires Distinct(ps)
    ensures Held(ps, x) == if Find(ps, x).Some? then Find(ps, x).value.quantity else 0
  {
    if ps != [] {
      HeldFound(ps[1..], x);
      FindSome(ps[1..], x);
    }
  }

  lemma {:induction false} WithoutFacts(ps: seq<Position>, s: string, x: string)
    ensures Find(Without(ps, s), x) == if x == s then None else Find(ps, x)
    ensures Held(Without(ps, s), x) == if x == s then 0 else Held(ps, x)
    ensures |Without(ps, s)| <= |ps|
  {
    if ps != [] {
      WithoutFacts(ps[1..], s, x);
      if ps[0].symbol == s {
        assert Without(ps, s) == Without(ps[1..], s);
      } else {
        assert Without(ps, s)[1..] == Without(ps[1..], s);
      }
    }
  }

  lemma {:induction false} WithoutSubset(ps: seq<Position>, s: string)
    ensures forall p :: p in Without(ps, s) ==> p in ps && p.symbol != s
    ensures Distinct(ps) ==> Distinct(Without(ps, s))
  {
    if ps != [] {
      WithoutSubset(ps[1..], s);
      if ps[0].symbol == s {
        assert Without(ps, s) == Without(ps[1..], s);
      } else {
        var rest := Without(ps[1..], s);
        assert Without(ps, s) == [ps[0]] + rest;
        if Distinct(ps) {
          forall i | 0 <= i < |rest|
            ensures rest[i].symbol != ps[0].symbol
          {
            assert rest[i] in ps[1..];
          }
          assert Distinct(rest);
        }
      }
    }
  }

  lemma {:induction false} ReplaceFacts(ps: seq<Position>, s: string, p: Position, x: string)
    requires p.symbol == s
    ensures |Replace(ps, s, p)| == |ps|
    ensures forall i :: 0 <= i < |ps| ==> Replace(ps, s, p)[i].symbol == ps[i].symbol
    ensures Distinct(ps) ==> Distinct(Replace(ps, s, p))
    ensures Find(Replace(ps, s, p), x) == if x == s && Find(ps, x).Some? then Some(p) else Find(ps, x)
  {
    if ps != [] {
      ReplaceFacts(ps[1..], s, p, x);
      var rest := Replace(ps, s, p)[1..];
      assert rest == Replace(ps[1..], s, p);
      forall i | 0 <= i < |ps|
        ensures Replace(ps, s, p)[i].symbol == ps[i].symbol
      {
        if i > 0 {
          assert Replace(ps, s, p)[i] == rest[i - 1];
        }
      }
    }
  }

  lemma ReplaceHeld(ps: seq<Position>, s: string, p: Position, x: string)
    requires Distinct(ps) && p.symbol == s && Find(ps, s).Some?
    ensures Held(Replace(ps, s, p), x) == if x == s then p.quantity else Held(ps, x)
  {
    ReplaceFacts(ps, s, p, x);
    HeldFound(ps, x);
    HeldFound(Replace(ps, s, p), x);
  }

  lemma {:induction false} BasketFacts(ps: seq<Position>, parent: string, x: string)
    requires Distinct(ps)
    ensures forall p :: p in Basket(ps, parent) <==> p in ps && p.parent == parent
    ensures var f := Find(ps, x);
            Held(Basket(ps, parent), x) == if f.Some? && f.value.parent == parent then f.value.quantity else 0
  {
    if ps != [] {
      BasketFacts(ps[1..], parent, x);
      FindSome(ps[1..], x);
      var rest := Basket(ps[1..], parent);
      if ps[0].parent == parent {
        assert Basket(ps, parent)[1..] == rest;
      } else {
        assert Basket(ps, parent) == rest;
      }
    }
  }

  lemma {:induction false} BySignFacts(ps: seq<Position>, long: bool)
    ensures forall p :: p in BySign(ps, long) <==> p in ps && (p.quantity > 0) == long
  {
    if ps != [] {
      BySignFacts(ps[1..], long);
    }
  }

  ghost predicate Closes(legs: seq<Position>, x: string) {
    exists p :: p in legs && p.symbol == x && p.quantity != 0
  }

  lemma ClosesHead(legs: seq<Position>, x: string)
    requires legs != []
    ensures Closes(legs, x) <==> (legs[0].symbol == x && legs[0].quantity != 0) || Closes(legs[1..], x)
  {
    assert legs == [legs[0]] + legs[1..];
  }

  lemma {:induction false} RemoveAllFacts(ps: seq<Position>, legs: seq<Position>, x: string)
    requires Distinct(ps)
    ensures Distinct(RemoveAll(ps, legs))
    ensures Find(RemoveAll(ps, legs), x) == if Closes(legs, x) then None else Find(ps, x)
    decreases |legs|
  {
    if legs != [] {
      var next := if legs[0].quantity == 0 then ps else Without(ps, legs[0].symbol);
      WithoutSubset(ps, legs[0].symbol);
      WithoutFacts(ps, legs[0].symbol, x);
      RemoveAllFacts(next, legs[1..], x);
      ClosesHead(legs, x);
      hide Closes, Without, Distinct, Find;
    }
  }

  // ---------------------------------------------------------------- which steps keep the balance

  lemma SequencedSold(basket: seq<Position>, sent: seq<Order>, s: string, price: real, x: string)
    ensures Sold(sent + CloseOrders(ShortsFirst(basket), s, price), x) == Sold(sent, x) + Held(basket, x)
  {
    CloseOrdersSellAll(ShortsFirst(basket), s, price, x);
    HeldAppend(BySign(basket, false), BySign(basket, true), x);
    HeldBySign(basket, x);
    SoldAppend(sent, CloseOrders(ShortsFirst(basket), s, price), x);
  }

  lemma ShortsFirstSame(basket: seq<Position>)
    ensures forall q :: q in ShortsFirst(basket) <==> q in basket
  {
    BySignFacts(basket, false);
    BySignFacts(basket, true);
  }

  lemma ClosesIffFound(ps: seq<Position>, parent: string, legs: seq<Position>, x: string)
    requires Distinct(ps)
    requires forall q :: q in legs <==> q in ps && q.parent == parent
    ensures Closes(legs, x) <==>
              Find(ps, x).Some? && Find(ps, x).value.parent == parent && Find(ps, x).value.quantity != 0
  {
    FindSome(ps, x);
    if q :| q in legs && q.symbol == x && q.quantity != 0 {
      assert q in ps;
      assert Find(ps, x).value in ps;
    }
  }

  /** What a sequenced exit does: every nonzero leg of the basket leaves, and is sold exactly. */
  lemma SequencedExit(st: State, p: Position, price: real, x: string)
    requires Distinct(st.positions) && p.quantity != 0 && Sequenced(st, p)
    ensures var st' := Exit(st, p, price);
            var f := Find(st.positions, x);
            && Distinct(st'.positions) && Balance(st', x) == Balance(st, x)
            && Find(st'.positions, x) ==
                 if f.Some? && f.value.parent == p.parent && f.value.quantity != 0 then None else f
  {
    var basket := Basket(st.positions, p.parent);
    var legs := ShortsFirst(basket);
    SequencedSold(basket, st.sent, p.symbol, price, x);
    BasketFacts(st.positions, p.parent, x);
    ShortsFirstSame(basket);
    ClosesIffFound(st.positions, p.parent, legs, x);
    RemoveAllFacts(st.positions, legs, x);
    HeldFound(st.positions, x);
    HeldFound(RemoveAll(st.positions, legs), x);
    hide ShortsFirst, Basket, RemoveAll, CloseOrders, Closes, Sold, Held, Find;
  }

  /**
   A full exit of a position keeps sold plus held for every symbol, except that an exit of a nonzero
   position outside a basket of two or more sells the whole position and leaves it in the portfolio.
   */
  lemma ExitBalanceIff(st: State, p: Position, price: real, x: string)
    requires Distinct(st.positions) && Find(st.positions, p.symbol) == Some(p)
    ensures var st' := Exit(st, p, price);
            && Distinct(st'.positions)
            && (Balance(st', x) == Balance(st, x) <==> p.symbol != x || p.quantity == 0 || Sequenced(st, p))
            && (p.quantity != 0 && !Sequenced(st, p) ==>
                  st'.positions == st.positions
                  && Balance(st', x) == Balance(st, x) + (if p.symbol == x then p.quantity else 0))
  {
    if p.quantity == 0 {
      WithoutSubset(st.positions, p.symbol);
      WithoutFacts(st.positions, p.symbol, x);
      HeldFound(st.positions, x);
    } else if Sequenced(st, p) {
      SequencedExit(st, p, price, x);
    } else {
      SoldOne(st.sent, CloseOrder(p, p.symbol, price), x);
    }
  }

  /** A proper partial exit keeps the balance of a long position, and of no other. */
  lemma SplitBalanceIff(st: State, p: Position, price: real, pct: real, x: string)
    requires Distinct(st.positions) && Find(st.positions, p.symbol) == Some(p)
    requires 0.0 <= pct <= 1.0 && Splits(p, pct)
    ensures var st' := PartialExit(st, p, price, pct);
            && Distinct(st'.positions)
            && (Balance(st', x) == Balance(st, x) <==> p.symbol != x || p.quantity > 0)
            && Find(st'.positions, x) ==
                 if x == p.symbol then Some(p.(quantity := AbsInt(p.quantity) - ExitQty(AbsInt(p.quantity), pct)))
                 else Find(st.positions, x)
  {
    var cut := ExitQty(AbsInt(p.quantity), pct);
    ExitQtyBounds(AbsInt(p.quantity), pct);
    var p' := p.(quantity := AbsInt(p.quantity) - cut);
    ReplaceFacts(st.positions, p.symbol, p', x);
    ReplaceHeld(st.positions, p.symbol, p', x);
    HeldFound(st.positions, x);
    SoldOne(st.sent, Order(p.symbol, Sell, cut, price), x);
  }

  // ---------------------------------------------------------------- the order of a basket exit

  lemma {:induction false} CloseOrdersAppend(a: seq<Position>, b: seq<Position>, s: string, price: real)
    ensures CloseOrders(a + b, s, price) == CloseOrders(a, s, price) + CloseOrders(b, s, price)
  {
    if a == [] {
      assert a + b == b;
    } else {
      var head := if a[0].quantity == 0 then [] else [CloseOrder(a[0], s, price)];
      var rest, last := CloseOrders(a[1..], s, price), CloseOrders(b, s, price);
      assert (a + b)[1..] == a[1..] + b;
      CloseOrdersAppend(a[1..], b, s, price);
      assert head + (rest + last) == (head + rest) + last;
    }
  }

  lemma {:induction false} CloseOrdersOneSide(ps: seq<Position>, long: bool, s: string, price: real)
    ensures forall o :: o in CloseOrders(BySign(ps, long), s, price) ==> o.side == (if long then Sell else Buy)
  {
    if ps != [] {
      CloseOrdersOneSide(ps[1..], long, s, price);
      var rest := BySign(ps[1..], long);
      if (ps[0].quantity > 0) == long {
        assert BySign(ps, long)[1..] == rest;
      } else {
        assert BySign(ps, long) == rest;
      }
    }
  }

  ghost predicate BuysBeforeSells(orders: seq<Order>) {
    forall i, j :: 0 <= i < j < |orders| && orders[j].side == Buy ==> orders[i].side == Buy
  }

  lemma BuysThenSells(buys: seq<Order>, sells: seq<Order>)
    requires forall o :: o in buys ==> o.side == Buy
    requires forall o :: o in sells ==> o.side == Sell
    ensures BuysBeforeSells(buys + sells)
  {
    forall i | 0 <= i < |buys + sells|
      ensures (buys + sells)[i].side == if i < |buys| then Buy else Sell
    {
      assert i < |buys| ==> (buys + sells)[i] in buys;
      assert i >= |buys| ==> (buys + sells)[i] in sells;
    }
  }

  /** In a sequenced exit every short leg is bought back before any long leg is sold. */
  lemma BasketExitShortsFirst(st: State, p: Position, price: real)
    requires p.quantity != 0 && Sequenced(st, p)
    ensures var sent := Exit(st, p, price).sent;
            st.sent <= sent && BuysBeforeSells(sent[|st.sent|..])
  {
    var basket := Basket(st.positions, p.parent);
    var buys := CloseOrders(BySign(basket, false), p.symbol, price);
    var sells := CloseOrders(BySign(basket, true), p.symbol, price);
    CloseOrdersAppend(BySign(basket, false), BySign(basket, true), p.symbol, price);
    CloseOrdersOneSide(basket, false, p.symbol, price);
    CloseOrdersOneSide(basket, true, p.symbol, price);
    BuysThenSells(buys, sells);
    assert Exit(st, p, price).sent == st.sent + (buys + sells);
    assert Exit(st, p, price).sent[|st.sent|..] == buys + sells;
    hide Exit, CloseOrders, BySign, Basket, BuysBeforeSells;
  }

  /** In the order of closing, no leg of positive size comes before one that is not. */
  ghost predicate LongsLast(ps: seq<Position>) {
    forall i, j :: 0 <= i < j < |ps| && ps[j].quantity <= 0 ==> ps[i].quantity <= 0
  }

  lemma {:induction false} BySignAppend(a: seq<Position>, b: seq<Position>, long: bool)
    ensures BySign(a + b, long) == BySign(a, long) + BySign(b, long)
  {
    if a == [] {
      assert a + b == b;
    } else {
      var head := if (a[0].quantity > 0) == long then [a[0]] else [];
      assert (a + b)[1..] == a[1..] + b;
      BySignAppend(a[1..], b, long);
      assert head + (BySign(a[1..], long) + BySign(b, long)) == (head + BySign(a[1..], long)) + BySign(b, long);
    }
  }

  lemma {:induction false} BySignAgain(ps: seq<Position>, long: bool, other: bool)
    ensures forall i :: 0 <= i < |BySign(ps, long)| ==> (BySign(ps, long)[i].quantity > 0) == long
    ensures BySign(BySign(ps, long), other) == if long == other then BySign(ps, long) else []
  {
    if ps != [] {
      BySignAgain(ps[1..], long, other);
      if (ps[0].quantity > 0) == long {
        assert BySign(ps, long)[1..] == BySign(ps[1..], long);
      } else {
        assert BySign(ps, long) == BySign(ps[1..], long);
      }
    }
  }

  lemma {:induction false} AllLong(t: seq<Position>)
    requires forall i :: 0 <= i < |t| ==> t[i].quantity > 0
    ensures BySign(t, false) == [] && BySign(t, true) == t
  {
    if t != [] {
      AllLong(t[1..]);
    }
  }

  lemma {:induction false} LongsLastSplits(t: seq<Position>)
    requires LongsLast(t)
    ensures t == ShortsFirst(t)
  {
    if t != [] {
      if t[0].quantity <= 0 {
        LongsLastSplits(t[1..]);
      } else {
        AllLong(t);
      }
    }
  }

  /** The order of a basket exit is the only one with longs last that keeps the order on each side. */
  lemma ShortsFirstIsTheStableSort(ps: seq<Position>, t: seq<Position>)
    ensures t == ShortsFirst(ps) <==>
              LongsLast(t) && BySign(t, false) == BySign(ps, false) && BySign(t, true) == BySign(ps, true)
  {
    if t == ShortsFirst(ps) {
      forall long: bool, other: bool
        ensures forall i :: 0 <= i < |BySign(ps, long)| ==> (BySign(ps, long)[i].quantity > 0) == long
        ensures BySign(BySign(ps, long), other) == if long == other then BySign(ps, long) else []
      {
        BySignAgain(ps, long, other);
      }
      BySignAppend(BySign(ps, false), BySign(ps, true), false);
      BySignAppend(BySign(ps, false), BySign(ps, true), true);
    } else if LongsLast(t) {
      LongsLastSplits(t);
    }
  }

  // ---------------------------------------------------------------- the orders of an exit

  /** The order that closes a leg: it buys back a short and sells a long, in full. */
  ghost predicate ClosesLeg(o: Order, leg: Position, price: real) {
    && o.symbol == leg.symbol && o.price == price
    && (leg.quantity > 0 ==> o.side == Sell && o.quantity == leg.quantity)
    && (leg.quantity < 0 ==> o.side == Buy && o.quantity == -leg.quantity)
  }

  function Nonzero(legs: seq<Position>): seq<Position> {
    if legs == [] then []
    else (if legs[0].quantity != 0 then [legs[0]] else []) + Nonzero(legs[1..])
  }

  lemma {:induction false} CloseOrdersAre(legs: seq<Position>, s: string, price: real)
    ensures var orders, open := CloseOrders(legs, s, price), Nonzero(legs);
            && |orders| == |open|
            && forall i :: 0 <= i < |open| ==> ClosesLeg(orders[i], open[i], if open[i].symbol == s then price else 0.0)
  {
    if legs != [] {
      CloseOrdersAre(legs[1..], s, price);
      if legs[0].quantity == 0 {
        assert Nonzero(legs) == Nonzero(legs[1..]);
      } else {
        assert CloseOrders(legs, s, price)[1..] == CloseOrders(legs[1..], s, price);
        assert Nonzero(legs)[1..] == Nonzero(legs[1..]);
      }
    }
  }

  /**
   What a full exit sends: nothing for a position of size zero; one order at the given price for one on its
   own; and for a basket of two or more, in its closing order, one order for each leg of nonzero size, the
   triggering symbol at the given price and the others at none.
   */
  lemma ExitSends(st: State, p: Position, price: real)
    ensures var sent := Exit(st, p, price).sent;
            var open := Nonzero(ShortsFirst(Basket(st.positions, p.parent)));
            && st.sent <= sent
            && var orders := sent[|st.sent|..];
               if p.quantity == 0 then orders == []
               else if p.parent == "" || |Basket(st.positions, p.parent)| <= 1 then
                 |orders| == 1 && ClosesLeg(orders[0], p, price)
               else
                 && |orders| == |open|
                 && forall i :: 0 <= i < |open| ==>
                      ClosesLeg(orders[i], open[i], if open[i].symbol == p.symbol then price else 0.0)
  {
    var legs := ShortsFirst(Basket(st.positions, p.parent));
    CloseOrdersAre(legs, p.symbol, price);
    var orders := Exit(st, p, price).sent[|st.sent|..];
    if p.quantity != 0 && Sequenced(st, p) {
      assert orders == CloseOrders(legs, p.symbol, price);
    } else if p.quantity != 0 {
      assert orders == [CloseOrder(p, p.symbol, price)];
    }
    hide CloseOrders, Basket, ShortsFirst, Nonzero;
  }

  // ---------------------------------------------------------------- exits over a snapshot of legs

  /** The drawdown guard closes the legs it listed earlier one after another. */
  function ExitEach(st: State, legs: seq<Position>): State
    decreases |legs|
  {
    if legs == [] then st else ExitEach(Exit(st, legs[0], 0.0), legs[1..])
  }

  lemma {:induction false} FindIs(ps: seq<Position>, p: Position)
    requires Distinct(ps) && p in ps
    ensures Find(ps, p.symbol) == Some(p)
  {
    if ps[0] != p {
      FindIs(ps[1..], p);
    }
  }

  /** Legs of size zero are only taken out of the portfolio when their own turn comes. */
  function ZeroLegs(ps: seq<Position>): seq<Position> {
    if ps == [] then []
    else (if ps[0].quantity == 0 then [ps[0]] else []) + ZeroLegs(ps[1..])
  }

  /**
   What the rest of the list sells again once the basket has been closed: a stale leg is sold on its own
   unless two or more legs of size zero behind it still make up a basket.
   */
  function SoldAgain(rest: seq<Position>, x: string): int {
    if rest == [] then 0
    else
      var again := rest[0].symbol == x && |ZeroLegs(rest[1..])| <= 1;
      (if again then rest[0].quantity else 0) + SoldAgain(rest[1..], x)
  }

  /** By how much the drawdown guard oversells a symbol of the basket it lists. */
  function Oversale(legs: seq<Position>, x: string): int {
    if legs == [] then 0
    else if legs[0].quantity == 0 then Oversale(legs[1..], x)
    else if |legs| == 1 then (if legs[0].symbol == x then legs[0].quantity else 0)
    else SoldAgain(legs[1..], x)
  }

  lemma {:induction false} WithoutAbsent(ps: seq<Position>, s: string)
    requires forall p :: p in ps ==> p.symbol != s
    ensures Without(ps, s) == ps
  {
    if ps != [] {
      assert ps[0] in ps;
      WithoutAbsent(ps[1..], s);
    }
  }

  /** Taking out the first of several distinct positions. */
  lemma WithoutFirst(ps: seq<Position>)
    requires ps != [] && Distinct(ps)
    ensures Without(ps, ps[0].symbol) == ps[1..]
  {
    WithoutAbsent(ps[1..], ps[0].symbol);
  }

  lemma {:induction false} BasketWithout(ps: seq<Position>, parent: string, s: string)
    ensures Basket(Without(ps, s), parent) == Without(Basket(ps, parent), s)
  {
    if ps != [] {
      BasketWithout(ps[1..], parent, s);
      var rest := Without(ps[1..], s);
      if ps[0].symbol == s {
        assert Without(ps, s) == rest;
      } else {
        assert Without(ps, s)[1..] == rest;
      }
      var basket := Basket(ps[1..], parent);
      if ps[0].parent == parent {
        assert Basket(ps, parent)[1..] == basket;
      } else {
        assert Basket(ps, parent) == basket;
      }
    }
  }

  lemma {:induction false} BasketRemoveAll(ps: seq<Position>, legs: seq<Position>, parent: string)
    ensures Basket(RemoveAll(ps, legs), parent) == RemoveAll(Basket(ps, parent), legs)
    decreases |legs|
  {
    if legs != [] {
      BasketWithout(ps, parent, legs[0].symbol);
      BasketRemoveAll(if legs[0].quantity == 0 then ps else Without(ps, legs[0].symbol), legs[1..], parent);
    }
  }

  lemma {:induction false} BasketDistinct(ps: seq<Position>, parent: string)
    requires Distinct(ps)
    ensures Distinct(Basket(ps, parent))
  {
    if ps != [] {
      BasketDistinct(ps[1..], parent);
      BasketFacts(ps[1..], parent, ps[0].symbol);
      var rest := Basket(ps[1..], parent);
      forall i | 0 <= i < |rest|
        ensures rest[i].symbol != ps[0].symbol
      {
        assert rest[i] in ps[1..];
      }
    }
  }

  /** The positions whose symbols `legs` does not close. */
  ghost function Unclosed(ps: seq<Position>, legs: seq<Position>): seq<Position> {
    if ps == [] then []
    else (if Closes(legs, ps[0].symbol) then [] else [ps[0]]) + Unclosed(ps[1..], legs)
  }

  lemma {:induction false} UnclosedWithout(ps: seq<Position>, legs: seq<Position>)
    requires legs != []
    ensures var next := if legs[0].quantity == 0 then ps else Without(ps, legs[0].symbol);
            Unclosed(next, legs[1..]) == Unclosed(ps, legs)
  {
    if ps != [] {
      UnclosedWithout(ps[1..], legs);
      ClosesHead(legs, ps[0].symbol);
      if legs[0].quantity != 0 && ps[0].symbol != legs[0].symbol {
        assert Without(ps, legs[0].symbol)[1..] == Without(ps[1..], legs[0].symbol);
      } else if legs[0].quantity != 0 {
        assert Without(ps, legs[0].symbol) == Without(ps[1..], legs[0].symbol);
      }
    }
  }

  lemma {:induction false} RemoveAllIsUnclosed(ps: seq<Position>, legs: seq<Position>)
    ensures RemoveAll(ps, legs) == Unclosed(ps, legs)
    decreases |legs|
  {
    if legs == [] {
      NothingClosed(ps, legs);
    } else {
      UnclosedWithout(ps, legs);
      RemoveAllIsUnclosed(if legs[0].quantity == 0 then ps else Without(ps, legs[0].symbol), legs[1..]);
    }
  }

  lemma {:induction false} NothingClosed(ps: seq<Position>, legs: seq<Position>)
    requires forall p :: p in legs ==> p.quantity == 0
    ensures Unclosed(ps, legs) == ps
  {
    if ps != [] {
      NothingClosed(ps[1..], legs);
    }
  }

  lemma {:induction false} UnclosedZeros(ps: seq<Position>, legs: seq<Position>)
    requires forall p :: p in ps ==> (Closes(legs, p.symbol) <==> p.quantity != 0)
    ensures Unclosed(ps, legs) == ZeroLegs(ps)
  {
    if ps != [] {
      assert ps[0] in ps;
      UnclosedZeros(ps[1..], legs);
    }
  }

  /** A sequenced exit leaves exactly the zero legs of its basket. */
  lemma BasketAfterSequence(st: State, p: Position)
    requires Distinct(st.positions) && p.quantity != 0 && Sequenced(st, p)
    ensures Basket(Exit(st, p, 0.0).positions, p.parent) == ZeroLegs(Basket(st.positions, p.parent))
  {
    var basket := Basket(st.positions, p.parent);
    var legs := ShortsFirst(basket);
    BasketRemoveAll(st.positions, legs, p.parent);
    RemoveAllIsUnclosed(basket, legs);
    BasketDistinct(st.positions, p.parent);
    ShortsFirstSame(basket);
    forall q | q in basket
      ensures Closes(legs, q.symbol) <==> q.quantity != 0
    {
      DistinctSame(basket, legs, q);
    }
    UnclosedZeros(basket, legs);
  }

  lemma DistinctSame(basket: seq<Position>, legs: seq<Position>, q: Position)
    requires Distinct(basket) && q in basket && forall p :: p in legs <==> p in basket
    ensures Closes(legs, q.symbol) <==> q.quantity != 0
  {
    if p :| p in legs && p.symbol == q.symbol && p.quantity != 0 {
      assert p in basket;
    }
  }

  lemma {:induction false} ZeroLegsFacts(ps: seq<Position>)
    ensures forall p :: p in ZeroLegs(ps) ==> p in ps && p.quantity == 0
    ensures Distinct(ps) ==> Distinct(ZeroLegs(ps))
  {
    if ps != [] {
      ZeroLegsFacts(ps[1..]);
      var rest := ZeroLegs(ps[1..]);
      if Distinct(ps) {
        forall i | 0 <= i < |rest|
          ensures rest[i].symbol != ps[0].symbol
        {
          assert rest[i] in ps[1..];
        }
      }
    }
  }

  lemma {:induction false} CloseNoZeros(legs: seq<Position>, s: string, price: real)
    requires forall p :: p in legs ==> p.quantity == 0
    ensures CloseOrders(legs, s, price) == []
  {
    if legs != [] {
      assert legs[0] in legs;
      CloseNoZeros(legs[1..], s, price);
    }
  }

  /** Closing a listed leg when only legs of size zero are left of its basket. */
  lemma StaleTurn(st: State, p: Position, x: string)
    requires Distinct(st.positions) && p.quantity != 0
    requires forall q :: q in Basket(st.positions, p.parent) ==> q.quantity == 0
    ensures var st' := Exit(st, p, 0.0);
            && st'.positions == st.positions
            && Sold(st'.sent, x) == Sold(st.sent, x) + (if p.symbol == x && !Sequenced(st, p) then p.quantity else 0)
  {
    var basket := Basket(st.positions, p.parent);
    var legs := ShortsFirst(basket);
    ShortsFirstSame(basket);
    CloseNoZeros(legs, p.symbol, 0.0);
    RemoveAllIsUnclosed(st.positions, legs);
    NothingClosed(st.positions, legs);
    SoldOne(st.sent, CloseOrder(p, p.symbol, 0.0), x);
    assert st.sent + [] == st.sent;
  }

  /** The turn of a listed leg of size zero: it leaves the portfolio, and nothing is sold. */
  lemma ZeroTurn(st: State, legs: seq<Position>, parent: string, x: string)
    requires Distinct(st.positions) && Basket(st.positions, parent) == legs != [] && legs[0].quantity == 0
    ensures var st' := Exit(st, legs[0], 0.0);
            && Distinct(st'.positions) && Basket(st'.positions, parent) == legs[1..]
            && Balance(st', x) == Balance(st, x)
  {
    BasketDistinct(st.positions, parent);
    BasketWithout(st.positions, parent, legs[0].symbol);
    WithoutFirst(legs);
    WithoutSubset(st.positions, legs[0].symbol);
    BasketFacts(st.positions, parent, x);
    assert legs[0] in legs;
    FindIs(st.positions, legs[0]);
    ExitBalanceIff(st, legs[0], 0.0, x);
  }

  /** The rest of the list, once the basket has been closed. */
  lemma {:induction false} RestIsSoldAgain(st: State, rest: seq<Position>, parent: string, x: string)
    requires Distinct(st.positions) && parent != "" && Basket(st.positions, parent) == ZeroLegs(rest)
    requires forall p :: p in rest ==> p.parent == parent
    ensures var st' := ExitEach(st, rest);
            && Balance(st', x) == Balance(st, x) + SoldAgain(rest, x) && Basket(st'.positions, parent) == []
    decreases |rest|
  {
    if rest != [] {
      assert rest[0] in rest;
      ZeroLegsFacts(rest);
      var st1 := Exit(st, rest[0], 0.0);
      if rest[0].quantity == 0 {
        assert ZeroLegs(rest)[1..] == ZeroLegs(rest[1..]);
        ZeroTurn(st, ZeroLegs(rest), parent, x);
      } else {
        assert ZeroLegs(rest) == ZeroLegs(rest[1..]);
        StaleTurn(st, rest[0], x);
      }
      RestIsSoldAgain(st1, rest[1..], parent, x);
    }
  }

  /**
   The drawdown guard on any basket whatever: it keeps sold plus held except for `Oversale`. A single leg
   is sold and kept; of two or more, the first of nonzero size is closed in sequence with all the others,
   and the later ones are then closed again one by one.
   */
  lemma {:induction false} DrawdownBalance(st: State, legs: seq<Position>, parent: string, x: string)
    requires Distinct(st.positions) && parent != "" && legs == Basket(st.positions, parent)
    ensures Balance(ExitEach(st, legs), x) == Balance(st, x) + Oversale(legs, x)
    decreases |legs|
  {
    if legs != [] {
      BasketFacts(st.positions, parent, x);
      assert legs[0] in legs;
      FindIs(st.positions, legs[0]);
      var st1 := Exit(st, legs[0], 0.0);
      if legs[0].quantity == 0 {
        ZeroTurn(st, legs, parent, x);
        DrawdownBalance(st1, legs[1..], parent, x);
      } else if |legs| == 1 {
        ExitBalanceIff(st, legs[0], 0.0, x);
        assert ExitEach(st1, legs[1..]) == st1;
      } else {
        SequencedExit(st, legs[0], 0.0, x);
        BasketAfterSequence(st, legs[0]);
        assert ZeroLegs(legs) == ZeroLegs(legs[1..]);
        RestIsSoldAgain(st1, legs[1..], parent, x);
      }
    }
  }

  lemma {:induction false} NoZeros(legs: seq<Position>, x: string)
    requires forall p :: p in legs ==> p.quantity != 0
    ensures ZeroLegs(legs) == [] && SoldAgain(legs, x) == Held(legs, x)
  {
    if legs != [] {
      assert legs[0] in legs;
      NoZeros(legs[1..], x);
    }
  }

  /**
   In particular, on a basket of two or more legs of nonzero size, every leg but the first is closed a
   second time, which leaves it reversed.
   */
  lemma DrawdownClosesTwice(st: State, parent: string, x: string)
    requires Distinct(st.positions) && parent != ""
    requires var legs := Basket(st.positions, parent);
             |legs| > 1 && forall p :: p in legs ==> p.quantity != 0
    ensures var legs := Basket(st.positions, parent);
            && Balance(ExitEach(st, legs), x) == Balance(st, x) + Held(legs[1..], x)
            && Basket(ExitEach(st, legs).positions, parent) == []
  {
    var legs := Basket(st.positions, parent);
    BasketFacts(st.positions, parent, x);
    assert legs[0] in legs;
    NoZeros(legs, x);
    NoZeros(legs[1..], x);
    SequencedExit(st, legs[0], 0.0, x);
    BasketAfterSequence(st, legs[0]);
    RestIsSoldAgain(Exit(st, legs[0], 0.0), legs[1..], parent, x);
  }

  // ---------------------------------------------------------------- runs

  /**
   What can happen to the portfolio between two hydrations. A loop over listed positions acts on the
   objects it listed: an object still in the portfolio has its present value, and one that has been
   removed keeps the value it had, given here as `stale`.
   */
  datatype Event =
    | Tick(symbol: string, m: Market)
    | Slash(symbol: string, pct: real)     // a pro-rata reduction
    | Close(symbol: string, price: real)   // an exit decided by one of the other gates
    | SlashListed(symbol: string, stale: Position, pct: real)
    | CloseListed(symbol: string, stale: Position, price: real)

  predicate IsListed(e: Event) {
    e.SlashListed? || e.CloseListed?
  }

  predicate IsShare(e: Event) {
    e.Slash? || e.SlashListed? ==> 0.0 <= e.pct <= 1.0
  }

  ghost predicate ValidEvent(e: Event) {
    && IsShare(e)
    && (e.Tick? ==> e.m.price > 0.0)
    && (IsListed(e) ==> e.stale.symbol == e.symbol)
  }

  function Step(st: State, e: Event): State
    requires IsShare(e)
  {
    var found := Find(st.positions, e.symbol);
    if IsListed(e) then
      var p := if found.Some? then found.value else e.stale;
      if e.SlashListed? then PartialExit(st, p, 0.0, e.pct) else Exit(st, p, e.price)
    else if found.None? then st
    else match e
      case Tick(_, m) => Dispatch(st, found.value, m)
      case Slash(_, pct) => PartialExit(st, found.value, 0.0, pct)
      case Close(_, price) => Exit(st, found.value, price)
  }

  ghost predicate ValidRun(events: seq<Event>) {
    forall i :: 0 <= i < |events| ==> ValidEvent(events[i])
  }

  function Run(st: State, events: seq<Event>): State
    requires ValidRun(events)
  {
    var n := |events|;
    if n == 0 then st else Step(Run(st, events[..n - 1]), events[n - 1])
  }

  /** Open until a full exit has been ordered; oversold once anything more is sold after that. */
  datatype Phase = Open | Closed | Oversold

  /** What an observer of one symbol has seen: its sales, its first-target exits and its runner prices. */
  datatype Track = Track(phase: Phase, tp1: nat, seen: seq<real>)

  predicate IsTp1(st: State, e: Event, x: string) {
    && e.Tick? && e.symbol == x && Find(st.positions, x).Some?
    && Evaluate(Find(st.positions, x).value, e.m).partial
  }

  predicate IsRunnerTick(st: State, e: Event, x: string) {
    && e.Tick? && e.symbol == x && !e.m.indexTick
    && Find(st.positions, x).Some? && Find(st.positions, x).value.runnerActive
  }

  function NextPhase(phase: Phase, sold: int, held: int): Phase {
    if sold == 0 then phase
    else if phase == Open then (if sold == held then Closed else Open)
    else Oversold
  }

  function Observe(t: Track, st: State, e: Event, x: string): Track
    requires IsShare(e)
  {
    var sold := Sold(Step(st, e).sent, x) - Sold(st.sent, x);
    Track(NextPhase(t.phase, sold, Held(st.positions, x)),
          if IsTp1(st, e, x) then t.tp1 + 1 else t.tp1,
          if IsRunnerTick(st, e, x) then t.seen + [e.m.price] else t.seen)
  }

  function ObserveAll(st: State, events: seq<Event>, x: string): Track
    requires ValidRun(events)
  {
    var n := |events|;
    if n == 0 then Track(Open, 0, [])
    else Observe(ObserveAll(st, events[..n - 1], x), Run(st, events[..n - 1]), events[n - 1], x)
  }

  function MaxOf(xs: seq<real>): real {
    var n := |xs|;
    if n == 0 then 0.0 else if n == 1 then xs[0] else Max(MaxOf(xs[..n - 1]), xs[n - 1])
  }

  // ---------------------------------------------------------------- one step, seen from one long position

  /** The ways a step can leave a long position: untouched, cut, sold in place, or sold and gone. */
  ghost predicate Sale(st: State, st': State, p: Position, p': Position, x: string) {
    var sold := Sold(st'.sent, x) - Sold(st.sent, x);
    || (sold == 0 && Find(st'.positions, x) == Some(p'))
    || (0 < sold < p.quantity && Find(st'.positions, x) == Some(p'.(quantity := p.quantity - sold)))
    || (sold == p.quantity && Find(st'.positions, x) == Some(p'))
    || (sold == p.quantity && Find(st'.positions, x) == None)
  }

  lemma ExitSale(st: State, p: Position, price: real)
    requires Distinct(st.positions) && Find(st.positions, p.symbol) == Some(p) && p.quantity > 0
    ensures Distinct(Exit(st, p, price).positions) && Sale(st, Exit(st, p, price), p, p, p.symbol)
  {
    var st', x := Exit(st, p, price), p.symbol;
    ExitBalanceIff(st, p, price, x);
    HeldFound(st.positions, x);
    HeldFound(st'.positions, x);
    if Sequenced(st, p) {
      SequencedExit(st, p, price, x);
    }
    hide Exit, Sequenced, Find, Held, Sold;
  }

  lemma PartialSale(st: State, p: Position, price: real, pct: real)
    requires Distinct(st.positions) && Find(st.positions, p.symbol) == Some(p) && p.quantity > 0
    requires 0.0 <= pct <= 1.0
    ensures Distinct(PartialExit(st, p, price, pct).positions)
    ensures Sale(st, PartialExit(st, p, price, pct), p, p, p.symbol)
  {
    var st', x := PartialExit(st, p, price, pct), p.symbol;
    if Splits(p, pct) {
      SplitBalanceIff(st, p, price, pct, x);
      ExitQtyBounds(AbsInt(p.quantity), pct);
      HeldFound(st.positions, x);
      HeldFound(st'.positions, x);
      hide PartialExit, ExitQty, Find, Held, Sold;
    } else {
      ExitSale(st, p, price);
    }
  }

  lemma DispatchSale(st: State, p: Position, m: Market)
    requires Distinct(st.positions) && Find(st.positions, p.symbol) == Some(p) && p.quantity > 0
    ensures Distinct(Dispatch(st, p, m).positions)
    ensures Sale(st, Dispatch(st, p, m), p, Apply(p, Evaluate(p, m).updates), p.symbol)
  {
    hide Evaluate, Exit, PartialExit, Sold;
    var v := Evaluate(p, m);
    var p' := Apply(p, v.updates);
    ReplaceFacts(st.positions, p.symbol, p', p.symbol);
    var st1 := st.(positions := Replace(st.positions, p.symbol, p'));
    if v.reason.Some? {
      if v.partial {
        PartialSale(st1, p', m.price, PARTIAL_PCT);
      } else {
        ExitSale(st1, p', m.price);
      }
    }
  }

  /** A step for another symbol leaves the position alone, or sells it whole in its basket's exit. */
  ghost predicate Bystander(st: State, st': State, x: string) {
    var f, sold := Find(st.positions, x), Sold(st'.sent, x) - Sold(st.sent, x);
    || (sold == 0 && Find(st'.positions, x) == f)
    || (f.Some? && f.value.quantity != 0 && sold == f.value.quantity && Find(st'.positions, x) == None)
  }

  lemma ExitBystander(st: State, p: Position, price: real, x: string)
    requires Distinct(st.positions) && p.symbol != x
    ensures Distinct(Exit(st, p, price).positions) && Bystander(st, Exit(st, p, price), x)
  {
    if p.quantity == 0 {
      WithoutSubset(st.positions, p.symbol);
      WithoutFacts(st.positions, p.symbol, x);
    } else if Sequenced(st, p) {
      SequencedExit(st, p, price, x);
      HeldFound(st.positions, x);
      HeldFound(Exit(st, p, price).positions, x);
    } else {
      SoldOne(st.sent, CloseOrder(p, p.symbol, price), x);
    }
    hide Sequenced, Find, Held, Sold;
  }

  lemma PartialBystander(st: State, p: Position, price: real, pct: real, x: string)
    requires Distinct(st.positions) && p.symbol != x && 0.0 <= pct <= 1.0
    ensures Distinct(PartialExit(st, p, price, pct).positions)
    ensures Bystander(st, PartialExit(st, p, price, pct), x)
  {
    if Splits(p, pct) {
      var cut := ExitQty(AbsInt(p.quantity), pct);
      ExitQtyBounds(AbsInt(p.quantity), pct);
      ReplaceFacts(st.positions, p.symbol, p.(quantity := AbsInt(p.quantity) - cut), x);
      SoldOne(st.sent, Order(p.symbol, Sell, cut, price), x);
      hide ExitQty, Find, Sold;
    } else {
      ExitBystander(st, p, price, x);
    }
  }

  lemma DispatchBystander(st: State, p: Position, m: Market, x: string)
    requires Distinct(st.positions) && Find(st.positions, p.symbol) == Some(p) && p.symbol != x
    ensures Distinct(Dispatch(st, p, m).positions) && Bystander(st, Dispatch(st, p, m), x)
  {
    hide Evaluate, Exit, PartialExit, Sold;
    var v := Evaluate(p, m);
    var p' := Apply(p, v.updates);
    ReplaceFacts(st.positions, p.symbol, p', p.symbol);
    ReplaceFacts(st.positions, p.symbol, p', x);
    var st1 := st.(positions := Replace(st.positions, p.symbol, p'));
    if v.reason.Some? {
      if v.partial {
        PartialBystander(st1, p', m.price, PARTIAL_PCT, x);
      } else {
        ExitBystander(st1, p', m.price, x);
      }
    }
  }

  lemma StepBystander(st: State, e: Event, x: string)
    requires Distinct(st.positions) && ValidEvent(e) && e.symbol != x
    ensures Distinct(Step(st, e).positions) && Bystander(st, Step(st, e), x)
  {
    hide Exit, PartialExit, Dispatch, Bystander, Distinct;
    var found := Find(st.positions, e.symbol);
    FindSome(st.positions, e.symbol);
    if IsListed(e) {
      var p := if found.Some? then found.value else e.stale;
      if e.SlashListed? {
        PartialBystander(st, p, 0.0, e.pct, x);
      } else {
        ExitBystander(st, p, e.price, x);
      }
    } else if found.Some? {
      var p := found.value;
      match e
      case Tick(_, m) => DispatchBystander(st, p, m, x);
      case Slash(_, pct) => PartialBystander(st, p, 0.0, pct, x);
      case Close(_, price) => ExitBystander(st, p, price, x);
    } else {
      NothingHappens(st, x);
    }
  }

  lemma NothingHappens(st: State, x: string)
    ensures Bystander(st, st, x)
  {
  }

  /** The position after its own event, before any sale. */
  function Updated(p: Position, e: Event): Position {
    if e.Tick? then Apply(p, Evaluate(p, e.m).updates) else p
  }

  lemma StepOwner(st: State, e: Event, p: Position)
    requires Distinct(st.positions) && ValidEvent(e) && e.symbol == p.symbol
    requires Find(st.positions, p.symbol) == Some(p) && p.quantity > 0
    ensures Distinct(Step(st, e).positions) && Sale(st, Step(st, e), p, Updated(p, e), p.symbol)
  {
    match e
    case Tick(_, m) => DispatchSale(st, p, m);
    case Slash(_, pct) => PartialSale(st, p, 0.0, pct);
    case Close(_, price) => ExitSale(st, p, price);
    case SlashListed(_, _, pct) => PartialSale(st, p, 0.0, pct);
    case CloseListed(_, _, price) => ExitSale(st, p, price);
  }

  /** An object that has left the portfolio stays out of it, and a long one can only be sold further. */
  ghost predicate StaleSale(st: State, st': State, x: string) {
    Distinct(st'.positions) && Find(st'.positions, x) == None && Sold(st'.sent, x) >= Sold(st.sent, x)
  }

  lemma StaleExit(st: State, p: Position, price: real)
    requires Distinct(st.positions) && Find(st.positions, p.symbol) == None && p.quantity > 0
    ensures StaleSale(st, Exit(st, p, price), p.symbol)
  {
    var x := p.symbol;
    if Sequenced(st, p) {
      SequencedExit(st, p, price, x);
      HeldFound(st.positions, x);
      HeldFound(Exit(st, p, price).positions, x);
      hide Exit, Sequenced, Find, Held, Sold;
    } else {
      SoldOne(st.sent, CloseOrder(p, x, price), x);
    }
  }

  lemma StalePartial(st: State, p: Position, pct: real)
    requires Distinct(st.positions) && Find(st.positions, p.symbol) == None && p.quantity > 0
    requires 0.0 <= pct <= 1.0
    ensures StaleSale(st, PartialExit(st, p, 0.0, pct), p.symbol)
  {
    var x := p.symbol;
    if Splits(p, pct) {
      var cut := ExitQty(p.quantity, pct);
      ExitQtyBounds(p.quantity, pct);
      ReplaceFacts(st.positions, x, p.(quantity := p.quantity - cut), x);
      SoldOne(st.sent, Order(x, Sell, cut, 0.0), x);
      hide ExitQty, Find, Sold;
    } else {
      StaleExit(st, p, 0.0);
    }
  }

  /**
   The first-target exit of a long, at any point of a run: of `n` lots it sells the greatest whole number
   within 0.7 n at the tick's price and keeps the others as a runner; a single lot is sold in full.
   */
  lemma FirstTargetSells(st: State, x: string, m: Market) returns (q: nat)
    requires Distinct(st.positions) && Find(st.positions, x).Some? && IsTp1(st, Tick(x, m), x)
    requires Find(st.positions, x).value.quantity > 0
    ensures var p, st' := Find(st.positions, x).value, Step(st, Tick(x, m));
            && q as real <= 0.7 * p.quantity as real < q as real + 1.0
            && (p.quantity > 1 ==>
                  && 0 < q < p.quantity
                  && st'.sent == st.sent + [Order(x, Sell, q, m.price)]
                  && Find(st'.positions, x).Some? && Find(st'.positions, x).value.runnerActive
                  && Find(st'.positions, x).value.quantity == p.quantity - q)
            && (p.quantity == 1 ==> Sold(st'.sent, x) == Sold(st.sent, x) + 1)
  {
    var p := Find(st.positions, x).value;
    var p', st1 := FirstTargetIsPartial(st, x, m);
    q := PartialExitSellsShare(st1, p', m.price, 0.70);
    if p.quantity > 1 {
      ReplaceFacts(st1.positions, x, p'.(quantity := p.quantity - q), x);
    } else {
      FullExitSells(st1, p', m.price);
    }
    hide Step, PartialExit, Exit, Find, Replace, Sold;
  }

  lemma FirstTargetIsPartial(st: State, x: string, m: Market) returns (p': Position, st1: State)
    requires Distinct(st.positions) && Find(st.positions, x).Some? && IsTp1(st, Tick(x, m), x)
    ensures var p := Find(st.positions, x).value;
            p'.symbol == x && p'.quantity == p.quantity && p'.runnerActive
    ensures st1.sent == st.sent && Distinct(st1.positions) && Find(st1.positions, x) == Some(p')
    ensures Step(st, Tick(x, m)) == PartialExit(st1, p', m.price, 0.70)
  {
    var p := Find(st.positions, x).value;
    FindSome(st.positions, x);
    PartialIff(p, m);
    p' := Apply(p, Evaluate(p, m).updates);
    st1 := st.(positions := Replace(st.positions, x, p'));
    ReplaceFacts(st.positions, x, p', x);
    hide Evaluate, Find, Replace, PartialExit;
  }

  lemma FullExitSells(st: State, p: Position, price: real)
    requires Distinct(st.positions) && Find(st.positions, p.symbol) == Some(p) && p.quantity > 0
    ensures Sold(Exit(st, p, price).sent, p.symbol) == Sold(st.sent, p.symbol) + p.quantity
  {
    if Sequenced(st, p) {
      SequencedExit(st, p, price, p.symbol);
      HeldFound(st.positions, p.symbol);
      HeldFound(Exit(st, p, price).positions, p.symbol);
      hide Exit, Sequenced, Find, Held, Sold;
    } else {
      SoldOne(st.sent, CloseOrder(p, p.symbol, price), p.symbol);
    }
  }

  // ---------------------------------------------------------------- the life of a long position

  /** What every run keeps of a long position that started at `entry` with `q0` lots, when `s0` had been sold. */
  ghost predicate Life(st: State, t: Track, x: string, q0: int, s0: int, entry: real) {
    var f, sold := Find(st.positions, x), Sold(st.sent, x) - s0;
    && Distinct(st.positions) && t.tp1 <= 1 && MaxOf(t.seen) >= 0.0
    && (t.seen != [] ==> MaxOf(t.seen) > 0.0)
    && (f.Some? ==>
          && f.value.quantity > 0 && f.value.action == "BUY" && f.value.entry == entry
          && (f.value.runnerActive <==> t.tp1 == 1)
          && f.value.localHigh == MaxOf(t.seen))
    && (t.phase == Open ==> f.Some? && sold + f.value.quantity == q0)
    && (t.phase == Closed ==> sold == q0)
    && (t.phase == Oversold ==> sold > q0)
  }

  lemma UpdatedFacts(p: Position, e: Event, seen: seq<real>)
    requires ValidEvent(e) && p.action == "BUY" && p.localHigh == MaxOf(seen)
    requires seen != [] ==> MaxOf(seen) > 0.0
    ensures var p' := Updated(p, e);
            var runnerTick := e.Tick? && !e.m.indexTick && p.runnerActive;
            var seen' := if runnerTick then seen + [e.m.price] else seen;
            && p'.symbol == p.symbol && p'.quantity == p.quantity && p'.action == "BUY" && p'.entry == p.entry
            && (p'.runnerActive <==> p.runnerActive || (e.Tick? && Evaluate(p, e.m).partial))
            && p'.localHigh == MaxOf(seen') && (seen' != [] ==> MaxOf(seen') > 0.0)
  {
    if e.Tick? {
      PartialIff(p, e.m);
      var seen' := seen + [e.m.price];
      assert seen'[..|seen|] == seen;
      if seen != [] {
        assert MaxOf(seen') == Max(MaxOf(seen), e.m.price);
      }
    }
  }

  lemma OwnerKeepsLife(st: State, t: Track, e: Event, x: string, q0: int, s0: int, entry: real)
    requires Life(st, t, x, q0, s0, entry) && ValidEvent(e) && e.symbol == x && Find(st.positions, x).Some?
    ensures Life(Step(st, e), Observe(t, st, e, x), x, q0, s0, entry)
  {
    var p := Find(st.positions, x).value;
    FindSome(st.positions, x);
    StepOwner(st, e, p);
    UpdatedFacts(p, e, t.seen);
    if e.Tick? {
      PartialIff(p, e.m);
    }
    HeldFound(st.positions, x);
    hide Step, Evaluate, Updated, Find, Held, Sold, MaxOf;
  }

  lemma BystanderKeepsLife(st: State, t: Track, e: Event, x: string, q0: int, s0: int, entry: real)
    requires Life(st, t, x, q0, s0, entry) && ValidEvent(e) && e.symbol != x
    ensures Life(Step(st, e), Observe(t, st, e, x), x, q0, s0, entry)
  {
    StepBystander(st, e, x);
    HeldFound(st.positions, x);
    hide Step, Evaluate, Find, Held, Sold, MaxOf;
  }

  /** A listed object of the observed symbol was long when it was removed. */
  ghost predicate ListedLong(e: Event, x: string) {
    IsListed(e) && e.symbol == x ==> e.stale.quantity > 0
  }

  lemma GoneKeepsLife(st: State, t: Track, e: Event, x: string, q0: int, s0: int, entry: real)
    requires Life(st, t, x, q0, s0, entry) && ValidEvent(e) && ListedLong(e, x)
    requires e.symbol == x && Find(st.positions, x).None?
    ensures Life(Step(st, e), Observe(t, st, e, x), x, q0, s0, entry)
  {
    if e.CloseListed? {
      StaleExit(st, e.stale, e.price);
    } else if e.SlashListed? {
      StalePartial(st, e.stale, e.pct);
    }
    hide Exit, PartialExit, Find, Held, Sold, MaxOf;
  }

  /** Every event, for whatever symbol, keeps what is known of the position. */
  lemma StepKeepsLife(st: State, t: Track, e: Event, x: string, q0: int, s0: int, entry: real)
    requires Life(st, t, x, q0, s0, entry) && ValidEvent(e) && ListedLong(e, x)
    ensures Life(Step(st, e), Observe(t, st, e, x), x, q0, s0, entry)
  {
    if e.symbol != x {
      BystanderKeepsLife(st, t, e, x, q0, s0, entry);
    } else if Find(st.positions, x).Some? {
      OwnerKeepsLife(st, t, e, x, q0, s0, entry);
    } else {
      GoneKeepsLife(st, t, e, x, q0, s0, entry);
    }
  }

  ghost predicate ListsLong(events: seq<Event>, x: string) {
    forall i :: 0 <= i < |events| ==> ListedLong(events[i], x)
  }

  lemma {:induction false} RunKeepsLife(st: State, events: seq<Event>, x: string, q0: int, s0: int, entry: real)
    requires Life(st, Track(Open, 0, []), x, q0, s0, entry) && ValidRun(events) && ListsLong(events, x)
    ensures Life(Run(st, events), ObserveAll(st, events, x), x, q0, s0, entry)
  {
    var n := |events|;
    if n > 0 {
      RunKeepsLife(st, events[..n - 1], x, q0, s0, entry);
      StepKeepsLife(Run(st, events[..n - 1]), ObserveAll(st, events[..n - 1], x), events[n - 1], x, q0, s0, entry);
    }
  }

  /** A long kinetic position as hydration leaves it. */
  ghost predicate FreshLong(st: State, x: string) {
    && Distinct(st.positions) && Find(st.positions, x).Some?
    && var p := Find(st.positions, x).value;
       p.quantity > 0 && p.action == "BUY" && !p.runnerActive && p.localHigh == 0.0
  }

  /**
   Over every run between two hydrations, whatever happens to the other positions: the first-target
   exit fires at most once; while the position is in the portfolio it is a runner exactly when that
   exit has fired, and its high is the maximum of the prices it was evaluated at since.
   */
  lemma {:induction false} RunnerLifecycle(st: State, events: seq<Event>, x: string)
    requires FreshLong(st, x) && ValidRun(events) && ListsLong(events, x)
    ensures var f, t := Find(Run(st, events).positions, x), ObserveAll(st, events, x);
            && t.tp1 <= 1
            && (f.Some? ==>
                  && f.value.quantity > 0 && f.value.entry == Find(st.positions, x).value.entry
                  && (f.value.runnerActive <==> t.tp1 == 1)
                  && f.value.localHigh == MaxOf(t.seen))
  {
    HeldFound(st.positions, x);
    RunKeepsLife(st, events, x, Held(st.positions, x), Sold(st.sent, x), Find(st.positions, x).value.entry);
  }

  /**
   And what is sold: until a full exit, the lots sold and the lots left make up the starting size; the
   full exit sells exactly the rest; and the run oversells exactly when anything is sold after it.
   */
  lemma {:induction false} SoldOverRun(st: State, events: seq<Event>, x: string)
    requires FreshLong(st, x) && ValidRun(events) && ListsLong(events, x)
    ensures var f, t := Find(Run(st, events).positions, x), ObserveAll(st, events, x);
            var q0, sold := Find(st.positions, x).value.quantity, Sold(Run(st, events).sent, x) - Sold(st.sent, x);
            && (t.phase == Open ==> f.Some? && sold + f.value.quantity == q0)
            && (t.phase == Closed ==> sold == q0)
            && (sold > q0 <==> t.phase == Oversold)
  {
    HeldFound(st.positions, x);
    RunKeepsLife(st, events, x, Held(st.positions, x), Sold(st.sent, x), Find(st.positions, x).value.entry);
  }

  // ---------------------------------------------------------------- loops over listed positions

  lemma ExitKeepsOrRemoves(st: State, p: Position, price: real, x: string)
    requires Distinct(st.positions)
    ensures var st' := Exit(st, p, price);
            && Distinct(st'.positions)
            && (Find(st'.positions, x) == Find(st.positions, x) || Find(st'.positions, x) == None)
  {
    if p.quantity == 0 {
      WithoutSubset(st.positions, p.symbol);
      WithoutFacts(st.positions, p.symbol, x);
    } else if Sequenced(st, p) {
      SequencedExit(st, p, price, x);
    }
    hide Sequenced, Find;
  }

  lemma {:induction false} ExitEachKeepsOrRemoves(st: State, legs: seq<Position>, x: string)
    requires Distinct(st.positions)
    ensures var st' := ExitEach(st, legs);
            && Distinct(st'.positions)
            && (Find(st'.positions, x) == Find(st.positions, x) || Find(st'.positions, x) == None)
    decreases |legs|
  {
    hide Exit, Find, Distinct;
    if legs != [] {
      ExitKeepsOrRemoves(st, legs[0], 0.0, x);
      ExitEachKeepsOrRemoves(Exit(st, legs[0], 0.0), legs[1..], x);
    }
  }

  function ListedCloses(legs: seq<Position>): seq<Event> {
    seq(|legs|, i requires 0 <= i < |legs| => CloseListed(legs[i].symbol, legs[i], 0.0))
  }

  lemma {:induction false} ExitEachSnoc(st: State, legs: seq<Position>, p: Position)
    ensures ExitEach(st, legs + [p]) == Exit(ExitEach(st, legs), p, 0.0)
    decreases |legs|
  {
    hide Exit;
    if legs == [] {
      assert legs + [p] == [p];
      assert ExitEach(Exit(st, p, 0.0), [p][1..]) == Exit(st, p, 0.0);
    } else {
      assert (legs + [p])[1..] == legs[1..] + [p];
      ExitEachSnoc(Exit(st, legs[0], 0.0), legs[1..], p);
    }
  }

  lemma ListedStep(st: State, p: Position)
    requires Find(st.positions, p.symbol) == Some(p) || Find(st.positions, p.symbol) == None
    ensures Step(st, CloseListed(p.symbol, p, 0.0)) == Exit(st, p, 0.0)
  {
    hide Exit, Find;
  }

  lemma ListedClosesSnoc(init: seq<Position>, p: Position)
    ensures ValidRun(ListedCloses(init)) && ValidRun(ListedCloses(init + [p]))
    ensures ListedCloses(init + [p]) == ListedCloses(init) + [CloseListed(p.symbol, p, 0.0)]
  {
  }

  /**
   A loop that exits the positions it listed from the portfolio, as the drawdown guard and the afternoon
   sweep do, is a run of `CloseListed` events: the theorems about runs cover it, one exit at a time.
   */
  lemma {:induction false} ListedExitsAreARun(st: State, legs: seq<Position>)
    requires Distinct(st.positions)
    requires forall p :: p in legs ==> Find(st.positions, p.symbol) == Some(p)
    ensures ValidRun(ListedCloses(legs)) && Run(st, ListedCloses(legs)) == ExitEach(st, legs)
    decreases |legs|
  {
    var n := |legs|;
    if n > 0 {
      var init, p := legs[..n - 1], legs[n - 1];
      assert legs == init + [p] && p in legs;
      hide Exit, ExitEach, Find, Distinct, Step, Run, ListedCloses, ValidRun;
      ListedExitsAreARun(st, init);
      ListedClosesSnoc(init, p);
      RunSnoc(st, ListedCloses(init), CloseListed(p.symbol, p, 0.0));
      ExitEachSnoc(st, init, p);
      ExitEachKeepsOrRemoves(st, init, p.symbol);
      ListedStep(ExitEach(st, init), p);
    } else {
      assert legs == [];
    }
  }

  /** A loop of pro-rata reductions over listed positions. */
  function SlashEach(st: State, legs: seq<Position>, pct: real): State
    requires 0.0 <= pct <= 1.0
  {
    var n := |legs|;
    if n == 0 then st else PartialExit(SlashEach(st, legs[..n - 1], pct), legs[n - 1], 0.0, pct)
  }

  function ListedSlashes(legs: seq<Position>, pct: real): seq<Event> {
    seq(|legs|, i requires 0 <= i < |legs| => SlashListed(legs[i].symbol, legs[i], pct))
  }

  lemma PartialKeepsOthers(st: State, p: Position, pct: real, x: string)
    requires Distinct(st.positions) && 0.0 <= pct <= 1.0 && x != p.symbol
    ensures var st' := PartialExit(st, p, 0.0, pct);
            && Distinct(st'.positions)
            && (Find(st'.positions, x) == Find(st.positions, x) || Find(st'.positions, x) == None)
  {
    if Splits(p, pct) {
      ExitQtyBounds(AbsInt(p.quantity), pct);
      var cut := ExitQty(AbsInt(p.quantity), pct);
      ReplaceFacts(st.positions, p.symbol, p.(quantity := AbsInt(p.quantity) - cut), x);
    } else {
      ExitKeepsOrRemoves(st, p, 0.0, x);
    }
  }

  lemma {:induction false} SlashEachKeepsOthers(st: State, legs: seq<Position>, pct: real, x: string)
    requires Distinct(st.positions) && 0.0 <= pct <= 1.0 && forall p :: p in legs ==> p.symbol != x
    ensures var st' := SlashEach(st, legs, pct);
            && Distinct(st'.positions)
            && (Find(st'.positions, x) == Find(st.positions, x) || Find(st'.positions, x) == None)
    decreases |legs|
  {
    hide PartialExit, Find, Distinct;
    var n := |legs|;
    if n > 0 {
      assert legs[n - 1] in legs;
      SlashEachKeepsOthers(st, legs[..n - 1], pct, x);
      PartialKeepsOthers(SlashEach(st, legs[..n - 1], pct), legs[n - 1], pct, x);
    }
  }

  lemma ListedSlash(st: State, p: Position, pct: real)
    requires 0.0 <= pct <= 1.0
    requires Find(st.positions, p.symbol) == Some(p) || Find(st.positions, p.symbol) == None
    ensures Step(st, SlashListed(p.symbol, p, pct)) == PartialExit(st, p, 0.0, pct)
  {
    hide PartialExit, Find;
  }

  lemma ListedSlashesSnoc(init: seq<Position>, p: Position, pct: real)
    requires 0.0 <= pct <= 1.0
    ensures ValidRun(ListedSlashes(init, pct)) && ValidRun(ListedSlashes(init + [p], pct))
    ensures ListedSlashes(init + [p], pct) == ListedSlashes(init, pct) + [SlashListed(p.symbol, p, pct)]
  {
  }

  lemma RunSnoc(st: State, events: seq<Event>, e: Event)
    requires ValidRun(events) && ValidRun(events + [e]) && IsShare(e)
    ensures Run(st, events + [e]) == Step(Run(st, events), e)
  {
    hide Step;
    assert (events + [e])[..|events|] == events;
  }

  lemma LastIsOther(init: seq<Position>, p: Position)
    requires Distinct(init + [p])
    ensures Distinct(init) && forall q :: q in init ==> q.symbol != p.symbol
  {
    var legs := init + [p];
    assert forall i :: 0 <= i < |init| ==> init[i] == legs[i];
    assert legs[|init|] == p;
  }

  /** The margin slash and the basket reduction are runs of `SlashListed` events in the same way. */
  lemma {:induction false} ListedSlashesAreARun(st: State, legs: seq<Position>, pct: real)
    requires Distinct(st.positions) && Distinct(legs) && 0.0 <= pct <= 1.0
    requires forall p :: p in legs ==> Find(st.positions, p.symbol) == Some(p)
    ensures ValidRun(ListedSlashes(legs, pct)) && Run(st, ListedSlashes(legs, pct)) == SlashEach(st, legs, pct)
    decreases |legs|
  {
    var n := |legs|;
    if n > 0 {
      var init, p := legs[..n - 1], legs[n - 1];
      assert legs == init + [p] && p in legs;
      LastIsOther(init, p);
      hide PartialExit, Find, Distinct, Step, Run, ListedSlashes, ValidRun;
      ListedSlashesAreARun(st, init, pct);
      ListedSlashesSnoc(init, p, pct);
      RunSnoc(st, ListedSlashes(init, pct), SlashListed(p.symbol, p, pct));
      SlashEachKeepsOthers(st, init, pct, p.symbol);
      ListedSlash(SlashEach(st, init, pct), p, pct);
    }
  }

  // ---------------------------------------------------------------- the stop over a run

  lemma {:induction false} SeenGrows(st: State, events: seq<Event>, k: nat, x: string)
    requires ValidRun(events) && k <= |events|
    ensures ObserveAll(st, events[..k], x).seen <= ObserveAll(st, events, x).seen
  {
    var n := |events|;
    hide Run, Step, Observe;
    if n == k {
      assert events[..k] == events;
    } else {
      assert events[..n - 1][..k] == events[..k];
      SeenGrows(st, events[..n - 1], k, x);
      OneStepSees(ObserveAll(st, events[..n - 1], x), Run(st, events[..n - 1]), events[n - 1], x);
    }
  }

  lemma OneStepSees(t: Track, st: State, e: Event, x: string)
    requires IsShare(e)
    ensures t.seen <= Observe(t, st, e, x).seen
  {
  }

  lemma {:induction false} MaxOfPrefix(xs: seq<real>, ys: seq<real>)
    requires xs != [] && xs <= ys
    ensures MaxOf(xs) <= MaxOf(ys)
  {
    var n := |ys|;
    if |xs| < n {
      assert xs <= ys[..n - 1];
      MaxOfPrefix(xs, ys[..n - 1]);
    } else {
      assert xs == ys;
    }
  }

  /** Along a run, the trailing stop of a runner that has been evaluated once never falls. */
  lemma {:induction false} StopNeverFallsOverRun(st: State, events: seq<Event>, k: nat, x: string)
    requires FreshLong(st, x) && ValidRun(events) && ListsLong(events, x) && k <= |events|
    requires ObserveAll(st, events[..k], x).seen != [] && Find(Run(st, events[..k]).positions, x).Some?
    requires Find(Run(st, events).positions, x).Some?
    ensures var before := Find(Run(st, events[..k]).positions, x).value;
            var after := Find(Run(st, events).positions, x).value;
            TrailingStop(after.entry, after.localHigh) >= TrailingStop(before.entry, before.localHigh)
  {
    RunnerLifecycle(st, events[..k], x);
    RunnerLifecycle(st, events, x);
    SeenGrows(st, events, k, x);
    MaxOfPrefix(ObserveAll(st, events[..k], x).seen, ObserveAll(st, events, x).seen);
  }

  // ---------------------------------------------------------------- what goes wrong outside those bounds

  /** A position as the periodic hydration rebuilds it from its row: no action, no runner, no high, no regime. */
  function Hydrated(p: Position): Position {
    p.(action := "BUY", runnerActive := false, localHigh := 0.0, entryRegime := "")
  }

  /**
   Hydration forgets the runner, which would take no partial exit: exactly on a tick of its own past the
   first target, with no signal flip or oscillator exit for a long, the partial exit fires again.
   */
  lemma HydrationRepeatsTp1(p: Position, m: Market)
    requires p.runnerActive
    ensures !Evaluate(p, m).partial
    ensures Evaluate(Hydrated(p), m).partial <==>
              && !m.indexTick && m.cvd >= -5.0 && m.sTotal >= -40.0 && (m.asto <= -50.0 || m.asto >= 50.0)
              && m.price >= p.entry + 1.2 * m.atr
  {
    PartialIff(p, m);
    PartialIff(Hydrated(p), m);
  }

  /**
   And it turns a short into a long for the barrier. Exactly when its profit target is taken for a stop:
   on its own tick, with no signal flip on either side, at a price at or below both the short's first
   target and the long's stop, and short of the long's first target.
   */
  lemma HydratedShortIsStopped(p: Position, m: Market)
    requires p.action == "SELL"
    ensures var away := if m.rv > 0.001 || m.vix > 18.0 then 1.5 * m.atr else m.atr;
            Evaluate(p, m).reason == Some(Tp1Hit) && Evaluate(Hydrated(p), m).reason == Some(SlHit) <==>
              && !p.runnerActive && !m.indexTick && (m.asto <= -50.0 || m.asto >= 50.0)
              && -5.0 <= m.cvd <= 5.0 && -40.0 <= m.sTotal <= 40.0
              && m.price <= p.entry - 1.2 * m.atr && m.price <= p.entry - away
              && m.price < p.entry + 1.2 * m.atr
    ensures m.atr > 0.0 ==>
              var mult := if m.rv > 0.001 || m.vix > 18.0 then 1.5 else 1.2;
              (Evaluate(p, m).reason == Some(Tp1Hit) && Evaluate(Hydrated(p), m).reason == Some(SlHit) <==>
                && !p.runnerActive && !m.indexTick && (m.asto <= -50.0 || m.asto >= 50.0)
                && -5.0 <= m.cvd <= 5.0 && -40.0 <= m.sTotal <= 40.0
                && m.price <= p.entry - mult * m.atr)
  {
    PriceReasonsIff(p, m);
    PriceReasonsIff(Hydrated(p), m);
    hide Evaluate;
  }

  /** A position without a basket stays after its exit, so two ticks that close it sell it twice. */
  lemma SingleLegIsSoldTwice(p: Position, price: real)
    requires p.quantity > 0 && p.parent == ""
    ensures var events := [Close(p.symbol, price), Close(p.symbol, price)];
            Sold(Run(State([p], []), events).sent, p.symbol) == 2 * p.quantity
  {
    var x, st := p.symbol, State([p], []);
    var events := [Close(x, price), Close(x, price)];
    var o := CloseOrder(p, x, price);
    assert events[..1] == [Close(x, price)] && events[..1][..0] == [];
    assert Run(st, events[..1]) == State([p], [o]);
    assert Run(st, events) == State([p], [o] + [o]);
    SoldOne([], o, x);
    assert [] + [o] == [o];
    SoldOne([o], o, x);
  }

  // ---------------------------------------------------------------- the classes

  class PortfolioState {
    var positions: seq<Position>

    constructor ()
      ensures positions == []
    {
      positions := [];
    }

    /** Afterwards the symbol has no entry, and every other symbol has the entry it had. */
    method RemovePosition(x: string)
      modifies this
      ensures positions == Without(old(positions), x)
      ensures Distinct(old(positions)) ==> Distinct(positions)
      ensures forall y :: Find(positions, y) == if y == x then None else Find(old(positions), y)
    {
      WithoutSubset(positions, x);
      forall y | true
        ensures Find(Without(positions, x), y) == if y == x then None else Find(positions, y)
      {
        WithoutFacts(positions, x, y);
      }
      positions := Without(positions, x);
    }

    /** Overwrites the entry of the same symbol, or adds none if there is none; others keep theirs. */
    method UpdatePosition(p: Position)
      modifies this
      ensures positions == Replace(old(positions), p.symbol, p)
      ensures Distinct(old(positions)) ==> Distinct(positions)
      ensures forall y :: Find(positions, y) ==
                if y == p.symbol && Find(old(positions), y).Some? then Some(p) else Find(old(positions), y)
    {
      forall y | true
        ensures Find(Replace(positions, p.symbol, p), y) ==
                  if y == p.symbol && Find(positions, y).Some? then Some(p) else Find(positions, y)
      {
        ReplaceFacts(positions, p.symbol, p, y);
      }
      ReplaceFacts(positions, p.symbol, p, p.symbol);
      positions := Replace(positions, p.symbol, p);
    }

    method GetBasket(parent: string) returns (legs: seq<Position>)
      ensures legs == Basket(positions, parent)
    {
      legs := [];
      for i := 0 to |positions|
        invariant legs + Basket(positions[i..], parent) == Basket(positions, parent)
      {
        var p := positions[i];
        assert positions[i..][1..] == positions[i + 1..];
        if p.parent == parent {
          legs := legs + [p];
        }
      }
    }
  }

  class LiquidationDaemon {
    const portfolio: PortfolioState
    var sent: seq<Order>

    ghost function Value(): State
      reads this, portfolio
    {
      State(portfolio.positions, sent)
    }

    constructor (portfolio: PortfolioState)
      ensures this.portfolio == portfolio && sent == []
    {
      this.portfolio := portfolio;
      sent := [];
    }

    method FireOrder(o: Order)
      modifies this
      ensures sent == old(sent) + [o]
    {
      sent := sent + [o];
    }

    lemma NextLeg(legs: seq<Position>, i: nat, ps: seq<Position>, orders: seq<Order>, x: string, price: real)
      requires i < |legs|
      ensures RemoveAll(ps, legs[i..])
           == RemoveAll(if legs[i].quantity == 0 then ps else Without(ps, legs[i].symbol), legs[i + 1..])
      ensures orders + CloseOrders(legs[i..], x, price)
           == (if legs[i].quantity == 0 then orders else orders + [CloseOrder(legs[i], x, price)])
              + CloseOrders(legs[i + 1..], x, price)
    {
      assert legs[i..][1..] == legs[i + 1..];
    }

    /** Closes and removes the nonzero legs in the order given. */
    method CloseLegs(legs: seq<Position>, x: string, price: real)
      modifies this, portfolio
      ensures portfolio.positions == RemoveAll(old(portfolio.positions), legs)
      ensures sent == old(sent) + CloseOrders(legs, x, price)
    {
      hide Without, CloseOrder;
      for i := 0 to |legs|
        invariant RemoveAll(portfolio.positions, legs[i..]) == RemoveAll(old(portfolio.positions), legs)
        invariant sent + CloseOrders(legs[i..], x, price) == old(sent) + CloseOrders(legs, x, price)
      {
        var leg := legs[i];
        NextLeg(legs, i, portfolio.positions, sent, x, price);
        if leg.quantity != 0 {
          FireOrder(CloseOrder(leg, x, price));
          portfolio.RemovePosition(leg.symbol);
        }
      }
    }

    method AttemptExit(p: Position, price: real)
      modifies this, portfolio
      ensures Value() == Exit(old(Value()), p, price)
    {
      hide Without, Basket, ShortsFirst, RemoveAll, CloseOrders, CloseOrder;
      if p.quantity == 0 {
        portfolio.RemovePosition(p.symbol);
        return;
      }
      if p.parent != "" {
        var legs := portfolio.GetBasket(p.parent);
        if |legs| > 1 {
          CloseLegs(ShortsFirst(legs), p.symbol, price);
          return;
        }
      }
      FireOrder(CloseOrder(p, p.symbol, price));
    }

    method AttemptPartialExit(p: Position, price: real, pct: real)
      requires 0.0 <= pct <= 1.0
      modifies this, portfolio
      ensures Value() == PartialExit(old(Value()), p, price, pct)
    {
      var size := if p.quantity < 0 then -p.quantity else p.quantity;
      var exitQty := ExitQty(size, pct);
      ExitQtyBounds(size, pct);
      if exitQty == 0 || exitQty == size {
        AttemptExit(p, price);
        return;
      }
      FireOrder(Order(p.symbol, Sell, exitQty, price));
      portfolio.UpdatePosition(p.(quantity := size - exitQty));
    }

    /** The dispatch part of a tick for one symbol. */
    method EvaluateBarriers(x: string, m: Market)
      modifies this, portfolio
      ensures Value() == Step(old(Value()), Tick(x, m))
    {
      var found := Find(portfolio.positions, x);
      if found.None? {
        return;
      }
      var verdict := Evaluate(found.value, m);
      var p := Apply(found.value, verdict.updates);
      portfolio.UpdatePosition(p);
      if verdict.reason.Some? {
        if verdict.partial {
          AttemptPartialExit(p, m.price, PARTIAL_PCT);
        } else {
          AttemptExit(p, m.price);
        }
      }
    }

    /** What the drawdown guard does once a basket has breached its limit. */
    method CloseBasket(parent: string)
      modifies this, portfolio
      ensures Value() == ExitEach(old(Value()), Basket(old(portfolio.positions), parent))
    {
      var legs := portfolio.GetBasket(parent);
      for i := 0 to |legs|
        invariant ExitEach(Value(), legs[i..]) == ExitEach(old(Value()), legs)
      {
        assert legs[i..][1..] == legs[i + 1..];
        AttemptExit(legs[i], 0.0);
      }
    }
  }
}
