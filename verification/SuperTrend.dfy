/**
 The adaptive SuperTrend oscillator of daemons/market_sensor.py: ratcheting bands around the bar's
 midpoint, and what the ratchet keeps between two breakouts.
 */
module SuperTrend {
  import opened Reals
  import opened Sums

  datatype Config = Config(baseMultiplier: real, atrPeriod: nat, sensitivity: real)

  datatype Bar = Bar(high: real, low: real, close: real, zVol: real)

  datatype State = State(atrBuffer: seq<real>, lastUpper: real, lastLower: real, prevClose: real)

  const INITIAL := State([], 0.0, 0.0, 0.0)

  // ---------------------------------------------------------------- one bar

  function TrueRange(s: State, bar: Bar): real {
    if s.prevClose > 0.0 then
      Max(bar.high - bar.low, Max(Abs(bar.high - s.prevClose), Abs(bar.low - s.prevClose)))
    else bar.high - bar.low
  }

  /** A deque with a maximum length: the oldest entry makes room for the new one. */
  function Push(buffer: seq<real>, x: real, cap: nat): seq<real> {
    var grown := buffer + [x];
    if |grown| > cap then grown[|grown| - cap..] else grown
  }

  function Mean(buffer: seq<real>): real {
    if buffer == [] then 1.0 else Over(Sum(buffer), |buffer| as real)
  }

  function Multiplier(c: Config, bar: Bar): real {
    c.baseMultiplier + Times(bar.zVol, c.sensitivity)
  }

  /** Half the distance between the raw bands of a bar. */
  function HalfBand(c: Config, s: State, bar: Bar): real {
    Times(Multiplier(c, bar), Mean(Push(s.atrBuffer, TrueRange(s, bar), c.atrPeriod)))
  }

  function RawUpper(c: Config, s: State, bar: Bar): real {
    (bar.high + bar.low) / 2.0 + HalfBand(c, s, bar)
  }

  function RawLower(c: Config, s: State, bar: Bar): real {
    (bar.high + bar.low) / 2.0 - HalfBand(c, s, bar)
  }

  function Step(c: Config, s: State, bar: Bar): State {
    var upper, lower := RawUpper(c, s, bar), RawLower(c, s, bar);
    State(Push(s.atrBuffer, TrueRange(s, bar), c.atrPeriod),
          if s.lastUpper > 0.0 && bar.close < s.lastUpper then Min(upper, s.lastUpper) else upper,
          if s.lastUpper > 0.0 && bar.close > s.lastLower then Max(lower, s.lastLower) else lower,
          bar.close)
  }

  /** Where the close lies between the stored bands, on a scale from -100 to 100. */
  function Oscillator(s: State, bar: Bar): real {
    var range := s.lastUpper - s.lastLower;
    if range > 0.0 then
      Max(-100.0, Min(100.0, Over(bar.close - (bar.high + bar.low) / 2.0, range / 2.0) * 100.0))
    else 0.0
  }

  class AdaptiveSuperTrendOscillator {
    const config: Config
    var atrBuffer: seq<real>
    var lastUpper: real
    var lastLower: real
    var prevClose: real

    constructor (config: Config)
      ensures this.config == config && Bands() == INITIAL
    {
      this.config := config;
      atrBuffer, lastUpper, lastLower, prevClose := [], 0.0, 0.0, 0.0;
    }

    function Bands(): State
      reads this
    {
      State(atrBuffer, lastUpper, lastLower, prevClose)
    }

    method Compute(bar: Bar) returns (asto: real, regime: int, multiplier: real)
      modifies this
      ensures Bands() == Step(config, old(Bands()), bar)
      ensures asto == Oscillator(Bands(), bar) && -100.0 <= asto <= 100.0
      ensures regime == if Abs(asto) > 70.0 then 1 else 0
      ensures multiplier == Multiplier(config, bar)
    {
      hide Times, Over, Mean, Push, Sum;
      var hl2 := (bar.high + bar.low) / 2.0;
      var tr := bar.high - bar.low;
      if prevClose > 0.0 {
        tr := Max(tr, Max(Abs(bar.high - prevClose), Abs(bar.low - prevClose)));
      }
      atrBuffer := Push(atrBuffer, tr, config.atrPeriod);
      prevClose := bar.close;
      var atr := Mean(atrBuffer);
      multiplier := config.baseMultiplier + Times(bar.zVol, config.sensitivity);
      var upper := hl2 + Times(multiplier, atr);
      var lower := hl2 - Times(multiplier, atr);
      if lastUpper > 0.0 {
        if bar.close < lastUpper {
          upper := Min(upper, lastUpper);
        }
        if bar.close > lastLower {
          lower := Max(lower, lastLower);
        }
      }
      lastUpper, lastLower := upper, lower;
      var range := upper - lower;
      if range > 0.0 {
        asto := Over(bar.close - hl2, range / 2.0) * 100.0;
        asto := Max(-100.0, Min(100.0, asto));
      } else {
        asto := 0.0;
      }
      regime := if Abs(asto) > 70.0 then 1 else 0;
    }
  }

  // ---------------------------------------------------------------- runs

  function After(c: Config, bars: seq<Bar>, n: nat): State
    requires n <= |bars|
  {
    if n == 0 then INITIAL else Step(c, After(c, bars, n - 1), bars[n - 1])
  }

  function RawUpperAt(c: Config, bars: seq<Bar>, i: nat): real
    requires i < |bars|
  {
    RawUpper(c, After(c, bars, i), bars[i])
  }

  function RawLowerAt(c: Config, bars: seq<Bar>, i: nat): real
    requires i < |bars|
  {
    RawLower(c, After(c, bars, i), bars[i])
  }

  /** Bar `i` starts the upper band afresh. */
  predicate UpperRestart(c: Config, bars: seq<Bar>, i: nat)
    requires i < |bars|
  {
    var s := After(c, bars, i);
    s.lastUpper <= 0.0 || bars[i].close >= s.lastUpper
  }

  predicate LowerRestart(c: Config, bars: seq<Bar>, i: nat)
    requires i < |bars|
  {
    var s := After(c, bars, i);
    s.lastUpper <= 0.0 || bars[i].close <= s.lastLower
  }

  /** The stored upper band is the least raw upper band of the bars from `i` up to `n`. */
  ghost predicate UpperIsMinSince(c: Config, bars: seq<Bar>, i: nat, n: nat)
    requires i < n <= |bars|
  {
    && (forall k :: i <= k < n ==> After(c, bars, n).lastUpper <= RawUpperAt(c, bars, k))
    && (exists k :: i <= k < n && After(c, bars, n).lastUpper == RawUpperAt(c, bars, k))
  }

  ghost predicate LowerIsMaxSince(c: Config, bars: seq<Bar>, i: nat, n: nat)
    requires i < n <= |bars|
  {
    && (forall k :: i <= k < n ==> After(c, bars, n).lastLower >= RawLowerAt(c, bars, k))
    && (exists k :: i <= k < n && After(c, bars, n).lastLower == RawLowerAt(c, bars, k))
  }

  /** The upper ratchet, from the bar that last restarted it. */
  lemma {:induction false} UpperRatchet(c: Config, bars: seq<Bar>, i: nat, n: nat)
    requires i < n <= |bars|
    requires UpperRestart(c, bars, i) && forall k :: i < k < n ==> !UpperRestart(c, bars, k)
    ensures UpperIsMinSince(c, bars, i, n)
    decreases n
  {
    hide RawUpper, RawLower;
    if n == i + 1 {
      assert After(c, bars, n).lastUpper == RawUpperAt(c, bars, i);
    } else {
      UpperRatchet(c, bars, i, n - 1);
      var s := After(c, bars, n - 1);
      assert !UpperRestart(c, bars, n - 1);
      assert After(c, bars, n).lastUpper == Min(RawUpperAt(c, bars, n - 1), s.lastUpper);
      var k :| i <= k < n - 1 && s.lastUpper == RawUpperAt(c, bars, k);
      var least := if RawUpperAt(c, bars, n - 1) <= s.lastUpper then n - 1 else k;
      assert After(c, bars, n).lastUpper == RawUpperAt(c, bars, least);
    }
  }

  lemma {:induction false} LowerRatchet(c: Config, bars: seq<Bar>, i: nat, n: nat)
    requires i < n <= |bars|
    requires LowerRestart(c, bars, i) && forall k :: i < k < n ==> !LowerRestart(c, bars, k)
    ensures LowerIsMaxSince(c, bars, i, n)
    decreases n
  {
    hide RawUpper, RawLower;
    if n == i + 1 {
      assert After(c, bars, n).lastLower == RawLowerAt(c, bars, i);
    } else {
      LowerRatchet(c, bars, i, n - 1);
      var s := After(c, bars, n - 1);
      assert !LowerRestart(c, bars, n - 1);
      assert After(c, bars, n).lastLower == Max(RawLowerAt(c, bars, n - 1), s.lastLower);
      var k :| i <= k < n - 1 && s.lastLower == RawLowerAt(c, bars, k);
      var most := if RawLowerAt(c, bars, n - 1) >= s.lastLower then n - 1 else k;
      assert After(c, bars, n).lastLower == RawLowerAt(c, bars, most);
    }
  }

  /** While neither band restarts, each pair of bands lies inside every earlier pair. */
  lemma {:induction false} BandsNest(c: Config, bars: seq<Bar>, i: nat, n: nat)
    requires i <= n <= |bars|
    requires forall k :: i <= k < n ==> !UpperRestart(c, bars, k) && !LowerRestart(c, bars, k)
    ensures After(c, bars, n).lastUpper <= After(c, bars, i).lastUpper
    ensures After(c, bars, n).lastLower >= After(c, bars, i).lastLower
    decreases n
  {
    if i < n {
      hide RawUpper, RawLower;
      BandsNest(c, bars, i, n - 1);
      assert !UpperRestart(c, bars, n - 1) && !LowerRestart(c, bars, n - 1);
    }
  }

  // ------------------------------------------------ what the raw bands are

  /** The largest of a bar's own range and its distances from the close before it, when there is one. */
  ghost predicate IsTrueRange(x: real, bars: seq<Bar>, i: nat)
    requires i < |bars|
  {
    var own := bars[i].high - bars[i].low;
    if i == 0 || bars[i - 1].close <= 0.0 then x == own
    else
      var prev := bars[i - 1].close;
      && x >= own && x >= bars[i].high - prev && x >= prev - bars[i].high
      && x >= bars[i].low - prev && x >= prev - bars[i].low
      && (x == own || x == bars[i].high - prev || x == prev - bars[i].high
          || x == bars[i].low - prev || x == prev - bars[i].low)
  }

  /** The true ranges of the latest of the first `n` bars, in order. */
  ghost predicate AreLatestRanges(kept: seq<real>, bars: seq<Bar>, n: nat)
    requires n <= |bars|
  {
    |kept| <= n && forall k :: 0 <= k < |kept| ==> IsTrueRange(kept[k], bars, n - |kept| + k)
  }

  lemma PushKeepsLatest(kept: seq<real>, x: real, cap: nat, bars: seq<Bar>, n: nat)
    requires n < |bars| && AreLatestRanges(kept, bars, n) && IsTrueRange(x, bars, n)
    ensures AreLatestRanges(Push(kept, x, cap), bars, n + 1)
    ensures |Push(kept, x, cap)| == if |kept| < cap then |kept| + 1 else cap
  {
    hide IsTrueRange;
    var grown, pushed := kept + [x], Push(kept, x, cap);
    forall i | 0 <= i < |grown|
      ensures IsTrueRange(grown[i], bars, n - |kept| + i)
    {
      assert i < |kept| ==> grown[i] == kept[i];
    }
    forall k | 0 <= k < |pushed|
      ensures IsTrueRange(pushed[k], bars, n + 1 - |pushed| + k)
    {
      assert pushed[k] == grown[|grown| - |pushed| + k];
    }
  }

  /** The ranges kept after `n` bars are the true ranges of the latest ones, as many as the period allows. */
  lemma {:induction false} KeptRanges(c: Config, bars: seq<Bar>, n: nat)
    requires n <= |bars|
    ensures var kept := After(c, bars, n).atrBuffer;
            |kept| == (if n < c.atrPeriod then n else c.atrPeriod) && AreLatestRanges(kept, bars, n)
    ensures After(c, bars, n).prevClose == if n == 0 then 0.0 else bars[n - 1].close
    decreases n
  {
    hide After, Push, TrueRange, IsTrueRange, AreLatestRanges;
    if n == 0 {
      NoBars(c, bars);
    } else {
      KeptRanges(c, bars, n - 1);
      TrueRangeIs(c, bars, n - 1);
      NextBar(c, bars, n - 1);
      var s := After(c, bars, n - 1);
      PushKeepsLatest(s.atrBuffer, TrueRange(s, bars[n - 1]), c.atrPeriod, bars, n - 1);
    }
  }

  lemma NoBars(c: Config, bars: seq<Bar>)
    ensures After(c, bars, 0) == INITIAL && AreLatestRanges([], bars, 0)
  {
  }

  lemma NextBar(c: Config, bars: seq<Bar>, n: nat)
    requires n < |bars|
    ensures var s, s' := After(c, bars, n), After(c, bars, n + 1);
            && s'.atrBuffer == Push(s.atrBuffer, TrueRange(s, bars[n]), c.atrPeriod)
            && s'.prevClose == bars[n].close
  {
    hide RawUpper, RawLower, Push, TrueRange;
  }

  lemma TrueRangeIs(c: Config, bars: seq<Bar>, i: nat)
    requires i < |bars| && After(c, bars, i).prevClose == if i == 0 then 0.0 else bars[i - 1].close
    ensures IsTrueRange(TrueRange(After(c, bars, i), bars[i]), bars, i)
  {
    hide After;
  }

  /**
   The raw bands of a bar lie evenly about its midpoint, apart by twice the adaptive multiplier times the
   average of the true ranges of the latest bars, this one included; with no period the average counts as 1.
   */
  lemma RawBandsAre(c: Config, bars: seq<Bar>, i: nat)
    requires i < |bars|
    ensures var ranges := After(c, bars, i + 1).atrBuffer;
            var average := if ranges == [] then 1.0 else Over(Sum(ranges), |ranges| as real);
            && RawUpperAt(c, bars, i) + RawLowerAt(c, bars, i) == bars[i].high + bars[i].low
            && RawUpperAt(c, bars, i) - RawLowerAt(c, bars, i)
                 == 2.0 * Times(c.baseMultiplier + Times(bars[i].zVol, c.sensitivity), average)
  {
    hide Times, Over, Sum, Push, TrueRange;
  }

  /** The oscillator: 0 at the midpoint, 100 half a band above it and more, -100 half a band below and more. */
  lemma OscillatorIs(s: State, bar: Bar)
    ensures var range, off := s.lastUpper - s.lastLower, bar.close - (bar.high + bar.low) / 2.0;
            var asto := Oscillator(s, bar);
            if range <= 0.0 then asto == 0.0
            else if 2.0 * off >= range then asto == 100.0
            else if 2.0 * off <= -range then asto == -100.0
            else Times(asto, range) == 200.0 * off
  {
    var range, off := s.lastUpper - s.lastLower, bar.close - (bar.high + bar.low) / 2.0;
    if range > 0.0 {
      var q := Over(off, range / 2.0);
      OverTimes(off, range / 2.0);
      OverAtLeast(off, range / 2.0, 1.0);
      OverAtMost(off, range / 2.0, -1.0);
      TimesUnit(range / 2.0);
      assert Times(-1.0, range / 2.0) == -range / 2.0;
      HundredTimes(q, range);
      hide Times, Over;
    }
  }

  lemma HundredTimes(q: real, range: real)
    ensures Times(q * 100.0, range) == 200.0 * Times(q, range / 2.0)
  {
  }

  // ------------------------------------------------ positive prices

  ghost predicate Tradable(c: Config, bars: seq<Bar>) {
    forall i :: 0 <= i < |bars| ==>
      0.0 < bars[i].low <= bars[i].high && bars[i].close > 0.0 && Multiplier(c, bars[i]) >= 0.0
  }

  lemma MeanNonNeg(buffer: seq<real>)
    requires forall i :: 0 <= i < |buffer| ==> buffer[i] >= 0.0
    ensures Mean(buffer) >= 0.0
  {
    if buffer != [] {
      hide Times, Over;
      SumNonNegative(buffer);
      TimesUnit(|buffer| as real);
      OverAtLeast(Sum(buffer), |buffer| as real, 0.0);
    }
  }

  lemma {:induction false} TradableRun(c: Config, bars: seq<Bar>, n: nat)
    requires Tradable(c, bars) && n <= |bars|
    ensures forall i :: 0 <= i < |After(c, bars, n).atrBuffer| ==> After(c, bars, n).atrBuffer[i] >= 0.0
    ensures n > 0 ==> After(c, bars, n).lastUpper > 0.0 && After(c, bars, n).prevClose > 0.0
    decreases n
  {
    if n > 0 {
      hide Times, Mean, Multiplier;
      TradableRun(c, bars, n - 1);
      var s, bar := After(c, bars, n - 1), bars[n - 1];
      var buffer := Push(s.atrBuffer, TrueRange(s, bar), c.atrPeriod);
      assert TrueRange(s, bar) >= 0.0;
      MeanNonNeg(buffer);
      TimesNonNeg(Multiplier(c, bar), Mean(buffer));
    }
  }

  /** A close at or above the stored upper band. The first bar counts as one. */
  predicate UpperBreakout(c: Config, bars: seq<Bar>, i: nat)
    requires i < |bars|
  {
    i == 0 || bars[i].close >= After(c, bars, i).lastUpper
  }

  predicate LowerBreakout(c: Config, bars: seq<Bar>, i: nat)
    requires i < |bars|
  {
    i == 0 || bars[i].close <= After(c, bars, i).lastLower
  }

  /**
   The ratchet in the market's own terms: on positive prices with a non-negative multiplier the
   upper band is the least raw upper band since the last close at or above it, and the lower band
   the greatest raw lower band since the last close at or below it.
   */
  lemma RatchetSinceBreakout(c: Config, bars: seq<Bar>, u: nat, l: nat, n: nat)
    requires Tradable(c, bars) && u < n <= |bars| && l < n
    requires UpperBreakout(c, bars, u) && forall k :: u < k < n ==> !UpperBreakout(c, bars, k)
    requires LowerBreakout(c, bars, l) && forall k :: l < k < n ==> !LowerBreakout(c, bars, k)
    ensures UpperIsMinSince(c, bars, u, n) && LowerIsMaxSince(c, bars, l, n)
  {
    hide Step, UpperIsMinSince, LowerIsMaxSince;
    forall k | 0 <= k < |bars|
      ensures UpperRestart(c, bars, k) == UpperBreakout(c, bars, k)
      ensures LowerRestart(c, bars, k) == LowerBreakout(c, bars, k)
    {
      TradableRun(c, bars, k);
    }
    UpperRatchet(c, bars, u, n);
    LowerRatchet(c, bars, l, n);
  }
}
