/**
 Strike selection of core/options/chain_utils.py: a 15-step bisection on delta, the half-even
 rounding of the result to the strike grid, and the iron condor built from four such searches.
 */
module StrikeSelection {
  import opened Reals

  const STEPS := 15

  datatype OptionType = Call | Put

  /** A market: `cdf` is the normal distribution at d1 as a function of the strike, left arbitrary. */
  datatype Market = Market(spot: real, expiry: real, cdf: real -> real)

  /** The delta of core/greeks.py. At expiry it is a step function, before it the distribution. */
  function Delta(m: Market, strike: real, otype: OptionType): real {
    if m.expiry <= 0.0 then
      (match otype
       case Call => if m.spot > strike then 1.0 else 0.0
       case Put => if m.spot < strike then -1.0 else 0.0)
    else
      (match otype
       case Call => m.cdf(strike)
       case Put => m.cdf(strike) - 1.0)
  }

  // ---------------------------------------------------------------- rounding

  /** Python's round: to the nearest integer, ties to the even one. */
  function RoundHalfEven(x: real): int {
    var f := x.Floor;
    var frac := x - f as real;
    if frac < 0.5 then f else if frac > 0.5 then f + 1 else if f % 2 == 0 then f else f + 1
  }

  function SnapStrike(price: real, increment: int): int
    requires increment > 0
  {
    RoundHalfEven(Over(price, increment as real)) * increment
  }

  lemma RoundIsMonotone(x: real, y: real)
    requires x <= y
    ensures RoundHalfEven(x) <= RoundHalfEven(y)
  {
    assert x.Floor <= y.Floor;
  }

  lemma RoundIsNearest(x: real)
    ensures -0.5 <= RoundHalfEven(x) as real - x <= 0.5
  {
  }

  lemma SnapIsMonotone(p: real, q: real, increment: int)
    requires p <= q && increment > 0
    ensures SnapStrike(p, increment) <= SnapStrike(q, increment)
  {
    hide Over, RoundHalfEven;
    var inc := increment as real;
    TimesIncrement(p, q, inc);
    RoundIsMonotone(Over(p, inc), Over(q, inc));
    var a, b := RoundHalfEven(Over(p, inc)), RoundHalfEven(Over(q, inc));
    assert (b - a) * increment >= 0;
  }

  lemma TimesIncrement(p: real, q: real, inc: real)
    requires p <= q && inc > 0.0
    ensures Over(p, inc) <= Over(q, inc)
  {
    hide Over, Times;
    OverTimes(q, inc);
    OverAtMost(p, inc, Over(q, inc));
  }

  lemma SnapIsNearest(p: real, increment: int)
    requires increment > 0
    ensures -(increment as real) / 2.0 <= SnapStrike(p, increment) as real - p <= increment as real / 2.0
  {
    var inc := increment as real;
    var x := Over(p, inc);
    var r := RoundHalfEven(x);
    RoundIsNearest(x);
    hide Over, RoundHalfEven;
    assert (r * increment) as real == Times(r as real, inc);
    assert Times(0.5, inc) == inc / 2.0 && Times(-0.5, inc) == -inc / 2.0;
    hide Times;
    OverTimes(p, inc);
    TimesAdd(r as real, x, inc);
    TimesMono(r as real - x, 0.5, inc);
    TimesMono(-0.5, r as real - x, inc);
  }

  /** The strike is a multiple of the increment: the nearest, and of two equally near the even multiple. */
  lemma SnapIs(p: real, increment: int) returns (k: int)
    requires increment > 0
    ensures SnapStrike(p, increment) == k * increment
    ensures var off, half := (k * increment) as real - p, increment as real / 2.0;
            -half <= off <= half && (off == half || off == -half ==> k % 2 == 0)
  {
    SnapIsNearest(p, increment);
    var inc := increment as real;
    var x := Over(p, inc);
    k := RoundHalfEven(x);
    OverTimes(p, inc);
    if (k * increment) as real - p == inc / 2.0 {
      OffByHalf(x, k, inc, 0.5);
    } else if (k * increment) as real - p == -(inc / 2.0) {
      OffByHalf(x, k, inc, -0.5);
    }
    hide Over;
  }

  lemma OffByHalf(x: real, k: int, inc: real, h: real)
    requires inc > 0.0 && k as real * inc - Times(x, inc) == h * inc
    ensures k as real - x == h
  {
    assert (k as real - x - h) * inc == 0.0;
  }

  // ---------------------------------------------------------------- bisection

  /** Whether the search moves its lower end up to a strike with this delta. */
  predicate GoesUp(delta: real, target: real, otype: OptionType) {
    match otype
    case Call => delta > target
    case Put => !(delta < target)
  }

  function Up(m: Market, target: real, otype: OptionType): real -> bool {
    strike => GoesUp(Delta(m, strike, otype), target, otype)
  }

  /** The last midpoint of `n` bisection steps. */
  function Bisect(up: real -> bool, low: real, high: real, n: nat): real
    requires n > 0
    decreases n
  {
    var mid := (low + high) / 2.0;
    if n == 1 then mid
    else if up(mid) then Bisect(up, mid, high, n - 1)
    else Bisect(up, low, mid, n - 1)
  }

  function Midpoint(m: Market, target: real, otype: OptionType): real {
    Bisect(Up(m, target, otype), m.spot * 0.5, m.spot * 1.5, STEPS)
  }

  function StrikeForDelta(m: Market, target: real, otype: OptionType, increment: int): int
    requires increment > 0
  {
    SnapStrike(Midpoint(m, target, otype), increment)
  }

  lemma BisectStep(up: real -> bool, low: real, high: real, n: nat)
    requires n > 0
    ensures var mid := (low + high) / 2.0;
            Bisect(up, low, high, n) ==
            if n == 1 then mid else if up(mid) then Bisect(up, mid, high, n - 1) else Bisect(up, low, mid, n - 1)
  {
  }

  method FindStrikeForDelta(target: real, m: Market, otype: OptionType, increment: int) returns (strike: int)
    requires increment > 0
    ensures strike == StrikeForDelta(m, target, otype, increment)
  {
    hide Bisect;
    var low, high := m.spot * 0.5, m.spot * 1.5;
    var mid := 0.0;
    ghost var up := Up(m, target, otype);
    for i := 0 to STEPS
      invariant i < STEPS ==> Bisect(up, low, high, STEPS - i) == Midpoint(m, target, otype)
      invariant i == STEPS ==> mid == Midpoint(m, target, otype)
    {
      mid := (low + high) / 2.0;
      BisectStep(up, low, high, STEPS - i);
      var d := Delta(m, mid, otype);
      if (otype == Call && d > target) || (otype == Put && d < target) {
        low := if otype == Call then mid else low;
        high := if otype == Put then mid else high;
      } else {
        high := if otype == Call then mid else high;
        low := if otype == Put then mid else low;
      }
    }
    strike := SnapStrike(mid, increment);
  }

  lemma {:induction false} BisectWithin(up: real -> bool, low: real, high: real, n: nat)
    requires low <= high && n > 0
    ensures low <= Bisect(up, low, high, n) <= high
    decreases n
  {
    if n > 1 {
      var mid := (low + high) / 2.0;
      BisectWithin(up, mid, high, n - 1);
      BisectWithin(up, low, mid, n - 1);
    }
  }

  /** A search that goes up whenever another one does never ends below it. */
  lemma {:induction false} BisectOrdered(a: real -> bool, b: real -> bool, low: real, high: real, n: nat)
    requires low <= high && n > 0
    requires forall k :: a(k) ==> b(k)
    ensures Bisect(a, low, high, n) <= Bisect(b, low, high, n)
    decreases n
  {
    if n > 1 {
      var mid := (low + high) / 2.0;
      if a(mid) {
        BisectOrdered(a, b, mid, high, n - 1);
      } else if b(mid) {
        BisectWithin(a, low, mid, n - 1);
        BisectWithin(b, mid, high, n - 1);
      } else {
        BisectOrdered(a, b, low, mid, n - 1);
      }
    }
  }

  // ---------------------------------------------------------------- the iron condor

  datatype Condor = Condor(putWing: int, putMain: int, callMain: int, callWing: int) {
    predicate Ordered() {
      putWing <= putMain <= callMain <= callWing
    }
  }

  function BuildIronCondor(m: Market, wing: real, spread: real, increment: int): Condor
    requires increment > 0
  {
    Condor(StrikeForDelta(m, -wing, Put, increment), StrikeForDelta(m, -spread, Put, increment),
           StrikeForDelta(m, spread, Call, increment), StrikeForDelta(m, wing, Call, increment))
  }

  /** The four midpoints before rounding, in the same order. */
  ghost predicate MidpointsOrdered(m: Market, wing: real, spread: real) {
    Midpoint(m, -wing, Put) <= Midpoint(m, -spread, Put) <= Midpoint(m, spread, Call) <= Midpoint(m, wing, Call)
  }

  lemma MidpointsAreOrdered(m: Market, wing: real, spread: real)
    requires m.expiry > 0.0 && m.spot >= 0.0 && wing <= spread < 0.5
    ensures MidpointsOrdered(m, wing, spread)
  {
    hide Bisect;
    var low, high := m.spot * 0.5, m.spot * 1.5;
    BisectOrdered(Up(m, -wing, Put), Up(m, -spread, Put), low, high, STEPS);
    BisectOrdered(Up(m, -spread, Put), Up(m, spread, Call), low, high, STEPS);
    BisectOrdered(Up(m, spread, Call), Up(m, wing, Call), low, high, STEPS);
  }

  /**
   Before expiry the condor is ordered, for every distribution function whatsoever: nothing is
   assumed about monotonicity or about the four searches converging.
   */
  lemma CondorIsOrdered(m: Market, wing: real, spread: real, increment: int)
    requires m.expiry > 0.0 && m.spot >= 0.0 && wing <= spread < 0.5 && increment > 0
    ensures BuildIronCondor(m, wing, spread, increment).Ordered()
  {
    hide Bisect, Midpoint, SnapStrike;
    MidpointsAreOrdered(m, wing, spread);
    SnapIsMonotone(Midpoint(m, -wing, Put), Midpoint(m, -spread, Put), increment);
    SnapIsMonotone(Midpoint(m, -spread, Put), Midpoint(m, spread, Call), increment);
    SnapIsMonotone(Midpoint(m, spread, Call), Midpoint(m, wing, Call), increment);
  }

  // ------------------------------------------ when the deltas are separated

  /** A search that always steps the same way ends in the outer eighth of its interval, or further out. */
  lemma {:induction false} BisectConstant(up: real -> bool, low: real, high: real, n: nat)
    requires low < high && n > 2
    ensures (forall k :: up(k)) ==> Bisect(up, low, high, n) >= high - (high - low) / 8.0
    ensures (forall k :: !up(k)) ==> Bisect(up, low, high, n) <= low + (high - low) / 8.0
    decreases n
  {
    var mid := (low + high) / 2.0;
    if n == 3 {
      BisectStep(up, low, high, 3);
      if up(mid) {
        BisectStep(up, mid, high, 2);
      } else {
        BisectStep(up, low, mid, 2);
      }
    } else {
      BisectConstant(up, mid, high, n - 1);
      BisectConstant(up, low, mid, n - 1);
    }
  }

  /** With a flat distribution, two searches that decide differently end three quarters of a spot apart. */
  lemma FlatMarketSeparates(m: Market, t: real, o: OptionType, t': real, o': OptionType, level: real)
    requires m.expiry > 0.0 && m.spot > 0.0 && m.cdf == (k => level)
    requires forall k :: Up(m, t, o)(k) && !Up(m, t', o')(k)
    ensures Midpoint(m, t, o) - Midpoint(m, t', o') >= 0.75 * m.spot
  {
    hide Bisect;
    assert Up(m, t, o)(0.0) && !Up(m, t', o')(0.0);
    BisectConstant(Up(m, t, o), m.spot * 0.5, m.spot * 1.5, STEPS);
    BisectConstant(Up(m, t', o'), m.spot * 0.5, m.spot * 1.5, STEPS);
  }

  /** The condor is ordered for every spot and every distribution. */
  ghost predicate OrderedForEveryMarket(expiry: real, wing: real, spread: real, increment: int)
    requires increment > 0
  {
    forall spot: real, cdf: real -> real ::
      spot > 0.0 ==> BuildIronCondor(Market(spot, expiry, cdf), wing, spread, increment).Ordered()
  }

  /** Midpoints more than an increment apart are still apart, and in the same order, on the strike grid. */
  lemma SnapSeparates(p: real, q: real, increment: int)
    requires increment > 0 && p - q > increment as real
    ensures SnapStrike(p, increment) > SnapStrike(q, increment)
  {
    hide SnapStrike;
    SnapIsNearest(p, increment);
    SnapIsNearest(q, increment);
  }

  /** On a spot of four increments, searches that decide differently end at different strikes. */
  lemma FlatMarketInverts(m: Market, t: real, o: OptionType, t': real, o': OptionType, level: real, increment: int)
    requires m.expiry > 0.0 && increment > 0 && m.spot == 4.0 * increment as real && m.cdf == (k => level)
    requires forall k :: Up(m, t, o)(k) && !Up(m, t', o')(k)
    ensures StrikeForDelta(m, t, o, increment) > StrikeForDelta(m, t', o', increment)
  {
    hide Bisect, SnapStrike, Up;
    FlatMarketSeparates(m, t, o, t', o', level);
    SnapSeparates(Midpoint(m, t, o), Midpoint(m, t', o'), increment);
  }

  /** The condition on the two deltas is exact: any other choice is inverted by some market. */
  lemma {:induction false} OrderedIffDeltasSeparated(expiry: real, wing: real, spread: real, increment: int)
    requires expiry > 0.0 && increment > 0
    ensures OrderedForEveryMarket(expiry, wing, spread, increment) <==> wing <= spread < 0.5
  {
    hide Bisect, Midpoint, StrikeForDelta;
    var spot := 4.0 * increment as real;
    if wing <= spread < 0.5 {
      forall spot: real, cdf: real -> real | spot > 0.0
        ensures BuildIronCondor(Market(spot, expiry, cdf), wing, spread, increment).Ordered()
      {
        CondorIsOrdered(Market(spot, expiry, cdf), wing, spread, increment);
      }
    } else if wing > spread {
      var m := Market(spot, expiry, k => 1.0 - wing);
      FlatMarketInverts(m, -wing, Put, -spread, Put, 1.0 - wing, increment);
      assert !BuildIronCondor(m, wing, spread, increment).Ordered();
    } else {
      var m := Market(spot, expiry, k => 0.5);
      FlatMarketInverts(m, -spread, Put, spread, Call, 0.5, increment);
      assert !BuildIronCondor(m, wing, spread, increment).Ordered();
    }
  }

  // ------------------------------------------ at expiry

  function Pow2(n: nat): real {
    if n == 0 then 1.0 else 2.0 * Pow2(n - 1)
  }

  lemma {:induction false} Pow2Positive(n: nat)
    ensures Pow2(n) >= 1.0
  {
    if n > 0 {
      Pow2Positive(n - 1);
    }
  }

  lemma HalfWidth(w: real, n: nat)
    requires n > 0
    ensures Pow2(n) > 0.0 && Pow2(n - 1) > 0.0
    ensures Over(w / 2.0, Pow2(n - 1)) == Over(w, Pow2(n))
  {
    Pow2Positive(n);
    Pow2Positive(n - 1);
    var p := Pow2(n - 1);
    assert Times(Over(w, 2.0 * p), p) == w / 2.0 by {
      OverTimes(w, 2.0 * p);
    }
    OverUnique(w / 2.0, p, Over(w, 2.0 * p));
  }

  /** A search whose answer lies at one end of its interval approaches that end by halves. */
  lemma {:induction false} BisectToEnd(up: real -> bool, low: real, high: real, n: nat)
    requires low < high && n > 0
    ensures Pow2(n) > 0.0
    ensures (forall k :: low < k < high ==> up(k)) ==> Bisect(up, low, high, n) == high - Over(high - low, Pow2(n))
    ensures (forall k :: low < k < high ==> !up(k)) ==> Bisect(up, low, high, n) == low + Over(high - low, Pow2(n))
    decreases n
  {
    Pow2Positive(n);
    var mid := (low + high) / 2.0;
    if n == 1 {
      assert Over(high - low, Pow2(1)) == (high - low) / 2.0;
    } else {
      hide Over;
      HalfWidth(high - low, n);
      assert high - mid == (high - low) / 2.0 == mid - low;
      BisectToEnd(up, mid, high, n - 1);
      BisectToEnd(up, low, mid, n - 1);
    }
  }

  lemma ExpiryMidpoints(m: Market, target: real)
    requires m.expiry <= 0.0 && m.spot > 0.0 && 0.0 <= target < 1.0
    ensures Midpoint(m, target, Call) == m.spot - m.spot / 32768.0
    ensures Midpoint(m, -target, Put) == m.spot + m.spot / 32768.0
  {
    hide Bisect;
    var s := m.spot;
    var low, high := s * 0.5, s * 1.5;
    var call, put := Up(m, target, Call), Up(m, -target, Put);
    assert (low + high) / 2.0 == s;
    assert !call(s) && put(s);
    BisectStep(call, low, high, STEPS);
    BisectStep(put, low, high, STEPS);
    BisectToEnd(call, low, s, 14);
    BisectToEnd(put, s, high, 14);
    assert Pow2(14) == 16384.0;
    assert Over(s - low, 16384.0) == s / 32768.0 && Over(high - s, 16384.0) == s / 32768.0;
  }

  /**
   At expiry the put searches start by stepping above the spot and the call searches below it, so the
   condor is ordered exactly when the spot is not near a rounding boundary of the strike grid.
   */
  lemma {:induction false} ExpiryCondorOrderedIff(m: Market, wing: real, spread: real, increment: int)
    requires m.expiry <= 0.0 && m.spot > 0.0 && 0.0 <= wing < 1.0 && 0.0 <= spread < 1.0 && increment > 0
    ensures BuildIronCondor(m, wing, spread, increment).Ordered() <==>
              SnapStrike(m.spot + m.spot / 32768.0, increment) == SnapStrike(m.spot - m.spot / 32768.0, increment)
  {
    hide Midpoint, SnapStrike;
    ExpiryMidpoints(m, wing);
    ExpiryMidpoints(m, spread);
    SnapIsMonotone(m.spot - m.spot / 32768.0, m.spot + m.spot / 32768.0, increment);
  }

  /** A NIFTY spot halfway between two strikes, at expiry: the puts are 50 points above the calls. */
  lemma ExpiryCondorInverts(cdf: real -> real)
    ensures BuildIronCondor(Market(22025.0, 0.0, cdf), 0.10, 0.15, 50) == Condor(22050, 22050, 22000, 22000)
  {
    var m := Market(22025.0, 0.0, cdf);
    hide Midpoint;
    ExpiryMidpoints(m, 0.10);
    ExpiryMidpoints(m, 0.15);
    assert SnapStrike(22025.0 + 22025.0 / 32768.0, 50) == 22050;
    assert SnapStrike(22025.0 - 22025.0 / 32768.0, 50) == 22000;
  }

  // ---------------------------------------------------------------- accuracy

  /** Every step keeps a bracket; the last one contains the midpoint at one of its ends. */
  lemma {:induction false} BracketIsKept(up: real -> bool, low: real, high: real, n: nat) returns (lo: real, hi: real)
    requires n > 0 && low <= high && up(low) && !up(high)
    ensures Pow2(n) > 0.0
    ensures low <= lo <= hi <= high && up(lo) && !up(hi) && hi - lo == Over(high - low, Pow2(n))
    ensures Bisect(up, low, high, n) == lo || Bisect(up, low, high, n) == hi
    decreases n
  {
    Pow2Positive(n);
    var mid := (low + high) / 2.0;
    if n == 1 {
      assert Over(high - low, Pow2(1)) == (high - low) / 2.0;
      lo, hi := if up(mid) then mid else low, if up(mid) then high else mid;
    } else {
      hide Over;
      HalfWidth(high - low, n);
      assert high - mid == (high - low) / 2.0 == mid - low;
      if up(mid) {
        lo, hi := BracketIsKept(up, mid, high, n - 1);
      } else {
        lo, hi := BracketIsKept(up, low, mid, n - 1);
      }
    }
  }

  ghost predicate NonIncreasing(m: Market) {
    forall j, k :: j <= k ==> m.cdf(k) <= m.cdf(j)
  }

  /** Below the interval every delta sends the search up, and above it none does. */
  ghost predicate Isolates(m: Market, target: real, otype: OptionType, lo: real, hi: real) {
    && (forall k :: k <= lo ==> GoesUp(Delta(m, k, otype), target, otype))
    && (forall k :: k >= hi ==> !GoesUp(Delta(m, k, otype), target, otype))
  }

  /**
   Accuracy: for a delta that does not increase with the strike and a target bracketed by half and
   one and a half times the spot, the target is crossed inside an interval of width spot/32768, and
   the returned strike is within spot/32768 plus half an increment of all of that interval.
   */
  lemma {:induction false} StrikeIsAccurate(m: Market, target: real, otype: OptionType, increment: int)
    returns (lo: real, hi: real)
    requires m.expiry > 0.0 && m.spot >= 0.0 && increment > 0 && NonIncreasing(m)
    requires GoesUp(Delta(m, m.spot * 0.5, otype), target, otype)
    requires !GoesUp(Delta(m, m.spot * 1.5, otype), target, otype)
    ensures hi - lo == m.spot / 32768.0 && Isolates(m, target, otype, lo, hi)
    ensures var strike := StrikeForDelta(m, target, otype, increment) as real;
            var error := m.spot / 32768.0 + increment as real / 2.0;
            hi - error <= strike <= lo + error
  {
    hide Bisect;
    var low, high := m.spot * 0.5, m.spot * 1.5;
    lo, hi := BracketIsKept(Up(m, target, otype), low, high, STEPS);
    assert Pow2(15) == 32768.0 by {
      assert Pow2(5) == 32.0;
      assert Pow2(10) == 1024.0;
    }
    assert Over(high - low, 32768.0) == m.spot / 32768.0;
    SnapIsNearest(Midpoint(m, target, otype), increment);
  }
}
