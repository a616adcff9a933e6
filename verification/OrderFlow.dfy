/**
 Order-flow accumulators of daemons/market_sensor.py: trade classification, cumulative volume delta
 and the draining VPIN buckets. One object holds the entries of one symbol.
 */
module OrderFlow {
  import opened Reals

  datatype Tick = Tick(price: real, bid: real, ask: real, volume: real)

  /**
   The accumulators of one symbol. `emitted` is every VPIN value so far and `drained` the signed
   volume that has left the bucket.
   */
  datatype Flow = Flow(
    vol: real, buy: real, sell: real,
    cvd: real, lastSign: int,
    emitted: seq<real>, drained: real)

  const EMPTY := Flow(0.0, 0.0, 0.0, 0.0, 0, [], 0.0)

  // ---------------------------------------------------------------- classification

  predicate Quoted(t: Tick) {
    t.bid > 0.0 && t.ask > 0.0
  }

  /** Lee-Ready against the mid quote; a trade at the mid repeats the last known sign. */
  function Sign(t: Tick, lastSign: int): int {
    var mid := (t.bid + t.ask) / 2.0;
    if !Quoted(t) then 0 else if t.price > mid then 1 else if t.price < mid then -1 else lastSign
  }

  function NextSign(t: Tick, lastSign: int): int {
    if Quoted(t) && Sign(t, lastSign) != 0 then Sign(t, lastSign) else lastSign
  }

  /** The tick `sign` times its volume. */
  function SignedVolume(t: Tick, lastSign: int): real {
    Times(Sign(t, lastSign) as real, t.volume)
  }

  predicate IsSign(sign: int) {
    sign == -1 || sign == 0 || sign == 1
  }

  lemma SignedVolumeCases(t: Tick, lastSign: int)
    requires IsSign(lastSign)
    ensures IsSign(Sign(t, lastSign))
    ensures SignedVolume(t, lastSign) ==
            if Sign(t, lastSign) == 1 then t.volume else if Sign(t, lastSign) == -1 then -t.volume else 0.0
  {
  }

  /** Classifying the same tick a second time changes nothing and gives the same sign. */
  lemma ClassifyTwice(t: Tick, lastSign: int)
    ensures var next := NextSign(t, lastSign);
            Sign(t, next) == Sign(t, lastSign) && NextSign(t, next) == next
  {
  }

  // ---------------------------------------------------------------- one tick

  function CvdStep(f: Flow, t: Tick): Flow {
    f.(cvd := f.cvd + SignedVolume(t, f.lastSign), lastSign := NextSign(t, f.lastSign))
  }

  /** The volume of a tick joins the bucket on the side of its sign. */
  function Fill(f: Flow, signed: real, volume: real): Flow {
    f.(vol := f.vol + volume,
       buy := if signed > 0.0 then f.buy + volume else f.buy,
       sell := if signed < 0.0 then f.sell + volume else f.sell)
  }

  /** One full bucket is taken out, each side in proportion. */
  function DrainOne(f: Flow, bucket: int): Flow
    requires bucket > 0 && f.vol >= bucket as real
  {
    var b := bucket as real;
    var ratio := Over(b, f.vol);
    var bBuy, bSell := Times(f.buy, ratio), Times(f.sell, ratio);
    f.(vol := f.vol - b, buy := f.buy - bBuy, sell := f.sell - bSell,
       emitted := f.emitted + [Over(Abs(bBuy - bSell), b)], drained := f.drained + (bBuy - bSell))
  }

  function Drain(f: Flow, bucket: int): Flow
    requires bucket > 0
    decreases f.vol
  {
    if f.vol >= bucket as real then Drain(DrainOne(f, bucket), bucket) else f
  }

  function VpinStep(f: Flow, t: Tick, bucket: int): Flow
    requires bucket > 0
  {
    Drain(Fill(f, SignedVolume(t, f.lastSign), t.volume).(lastSign := NextSign(t, f.lastSign)), bucket)
  }

  function TickStep(f: Flow, t: Tick, bucket: int): Flow
    requires bucket > 0
  {
    VpinStep(CvdStep(f, t), t, bucket)
  }

  class SymbolFlow {
    const bucketSize: int
    var currentVol: real
    var buyVol: real
    var sellVol: real
    var cvd: real
    var lastSign: int
    var vpinSeries: seq<real>
    var cvdSeries: seq<real>
    ghost var drained: real

    constructor (bucketSize: int)
      requires bucketSize > 0
      ensures this.bucketSize == bucketSize && State() == EMPTY && cvdSeries == []
    {
      this.bucketSize := bucketSize;
      currentVol, buyVol, sellVol, cvd, lastSign := 0.0, 0.0, 0.0, 0.0, 0;
      vpinSeries, cvdSeries, drained := [], [], 0.0;
    }

    ghost function State(): Flow
      reads this
    {
      Flow(currentVol, buyVol, sellVol, cvd, lastSign, vpinSeries, drained)
    }

    method ClassifyTrade(t: Tick) returns (signed: real)
      modifies this`lastSign
      ensures signed == SignedVolume(t, old(lastSign)) && lastSign == NextSign(t, old(lastSign))
    {
      if t.bid <= 0.0 || t.ask <= 0.0 {
        assert SignedVolume(t, lastSign) == 0.0;
        return 0.0;
      }
      var mid := (t.bid + t.ask) / 2.0;
      var sign := if t.price > mid then 1 else if t.price < mid then -1 else lastSign;
      if sign != 0 {
        lastSign := sign;
      }
      signed := Times(sign as real, t.volume);
    }

    method UpdateCvd(t: Tick)
      modifies this`lastSign, this`cvd, this`cvdSeries
      ensures State() == CvdStep(old(State()), t)
      ensures cvdSeries == old(cvdSeries) + [cvd]
    {
      hide Times;
      var signed := ClassifyTrade(t);
      cvd := cvd + signed;
      cvdSeries := cvdSeries + [cvd];
    }

    method UpdateVpin(t: Tick)
      requires bucketSize > 0
      modifies this`lastSign, this`currentVol, this`buyVol, this`sellVol, this`vpinSeries, this`drained
      ensures State() == VpinStep(old(State()), t, bucketSize)
    {
      hide Times, Over;
      var signed := ClassifyTrade(t);
      currentVol := currentVol + t.volume;
      if signed > 0.0 {
        buyVol := buyVol + t.volume;
      } else if signed < 0.0 {
        sellVol := sellVol + t.volume;
      }
      ghost var goal := Drain(State(), bucketSize);
      while currentVol >= bucketSize as real
        invariant Drain(State(), bucketSize) == goal
        decreases currentVol
      {
        var ratio := Over(bucketSize as real, currentVol);
        var bBuy := Times(buyVol, ratio);
        var bSell := Times(sellVol, ratio);
        vpinSeries := vpinSeries + [Over(Abs(bBuy - bSell), bucketSize as real)];
        currentVol := currentVol - bucketSize as real;
        buyVol := buyVol - bBuy;
        sellVol := sellVol - bSell;
        drained := drained + (bBuy - bSell);
      }
    }

    method OnTick(t: Tick)
      requires bucketSize > 0
      modifies this
      ensures State() == TickStep(old(State()), t, bucketSize)
    {
      UpdateCvd(t);
      UpdateVpin(t);
    }
  }

  // ---------------------------------------------------------------- draining

  /** Both sides are non-negative and fit in the bucket. */
  ghost predicate Balanced(f: Flow) {
    f.buy >= 0.0 && f.sell >= 0.0 && f.buy + f.sell <= f.vol
  }

  function Imbalance(f: Flow): real
    requires f.vol > 0.0
  {
    Over(Abs(f.buy - f.sell), f.vol)
  }

  lemma ImbalanceInUnit(f: Flow)
    requires Balanced(f) && f.vol > 0.0
    ensures 0.0 <= Imbalance(f) <= 1.0
  {
    hide Times, Over;
    var d := Abs(f.buy - f.sell);
    TimesUnit(f.vol);
    OverAtLeast(d, f.vol, 0.0);
    OverAtMost(d, f.vol, 1.0);
  }

  lemma QuotientSwap(d: real, b: real, v: real)
    requires v != 0.0 && b != 0.0
    ensures Over(Times(d, Over(b, v)), b) == Over(d, v)
  {
    hide Times, Over;
    var r := Over(b, v);
    OverTimes(b, v);
    OverTimes(d, v);
    TimesAssoc(Over(d, v), r, v);
    TimesAssoc(Over(d, v), v, r);
    TimesComm(v, r);
    OverUnique(Times(d, r), b, Over(d, v));
  }

  lemma QuotientScale(d: real, v: real, k: real)
    requires v > 0.0 && Times(v, k) > 0.0
    ensures Over(Times(d, k), Times(v, k)) == Over(d, v)
  {
    hide Times, Over;
    OverTimes(d, v);
    TimesAssoc(Over(d, v), v, k);
    OverUnique(Times(d, k), Times(v, k), Over(d, v));
  }

  /** What one drained bucket leaves: every quantity shrunk by the same factor. */
  lemma DrainOneShrinks(f: Flow, bucket: int)
    requires bucket > 0 && f.vol >= bucket as real
    ensures var k := 1.0 - Over(bucket as real, f.vol);
            var f' := DrainOne(f, bucket);
            && 0.0 <= k
            && f'.vol == Times(f.vol, k) && f'.buy == Times(f.buy, k) && f'.sell == Times(f.sell, k)
  {
    hide Times, Over;
    var b := bucket as real;
    var r := Over(b, f.vol);
    TimesUnit(f.vol);
    OverAtMost(b, f.vol, 1.0);
    OverTimes(b, f.vol);
    ShrinkOne(f.vol, r);
    ShrinkOne(f.buy, r);
    ShrinkOne(f.sell, r);
    TimesComm(r, f.vol);
  }

  lemma ShrinkOne(x: real, r: real)
    ensures Times(x, 1.0 - r) == x - Times(x, r)
  {
  }

  /** One bucket: its value is the imbalance, which is also the imbalance of what remains. */
  lemma DrainOneFacts(f: Flow, bucket: int)
    requires bucket > 0 && f.vol >= bucket as real && Balanced(f)
    ensures var f' := DrainOne(f, bucket);
            && Balanced(f') && f'.vol >= 0.0
            && f'.emitted == f.emitted + [Imbalance(f)]
            && f'.drained + (f'.buy - f'.sell) == f.drained + (f.buy - f.sell)
            && (f'.vol > 0.0 ==> Imbalance(f') == Imbalance(f))
  {
    hide Times, Over;
    var b := bucket as real;
    var r := Over(b, f.vol);
    var k := 1.0 - r;
    var f' := DrainOne(f, bucket);
    DrainOneShrinks(f, bucket);
    TimesNonNeg(f.buy, k);
    TimesNonNeg(f.sell, k);
    TimesAdd(f.buy, f.sell, k);
    TimesMono(f.buy + f.sell, f.vol, k);
    OverAtLeast(b, f.vol, 0.0);
    TimesUnit(f.vol);
    TimesAdd(f.buy, f.sell, r);
    AbsTimes(f.buy - f.sell, r);
    QuotientSwap(Abs(f.buy - f.sell), b, f.vol);
    if f'.vol > 0.0 {
      TimesAdd(f.buy, f.sell, k);
      AbsTimes(f.buy - f.sell, k);
      QuotientScale(Abs(f.buy - f.sell), f.vol, k);
    }
  }

  /**
   A full drain: it empties whole buckets only, conserves the net signed volume, and every bucket it
   emits carries one and the same value.
   */
  lemma {:induction false} DrainFacts(f: Flow, bucket: int)
    requires bucket > 0 && f.vol >= 0.0 && Balanced(f)
    ensures var f' := Drain(f, bucket);
            && Balanced(f') && 0.0 <= f'.vol < bucket as real
            && f.emitted <= f'.emitted
            && f.vol == Buckets(bucket, |f'.emitted| - |f.emitted|) + f'.vol
            && f'.drained + (f'.buy - f'.sell) == f.drained + (f.buy - f.sell)
            && f'.cvd == f.cvd && f'.lastSign == f.lastSign
            && (forall i :: |f.emitted| <= i < |f'.emitted| ==> f.vol > 0.0 && f'.emitted[i] == Imbalance(f))
    decreases f.vol
  {
    hide DrainOne, Imbalance;
    if f.vol >= bucket as real {
      var g := DrainOne(f, bucket);
      DrainOneFacts(f, bucket);
      DrainOneFrame(f, bucket);
      DrainFacts(g, bucket);
      var f' := Drain(f, bucket);
      assert |g.emitted| == |f.emitted| + 1;
      BucketsSucc(bucket, |f'.emitted| - |g.emitted|);
      assert f'.emitted[|f.emitted|] == g.emitted[|f.emitted|];
    }
  }

  /** The volume of `n` buckets. */
  function Buckets(bucket: int, n: int): real {
    (bucket * n) as real
  }

  lemma BucketsSucc(bucket: int, n: int)
    ensures Buckets(bucket, n + 1) == Buckets(bucket, n) + bucket as real
    ensures Buckets(bucket, 0) == 0.0
  {
  }

  lemma DrainOneFrame(f: Flow, bucket: int)
    requires bucket > 0 && f.vol >= bucket as real
    ensures DrainOne(f, bucket).vol == f.vol - bucket as real
    ensures DrainOne(f, bucket).cvd == f.cvd && DrainOne(f, bucket).lastSign == f.lastSign
  {
  }

  // ---------------------------------------------------------------- whole runs

  function Run(ticks: seq<Tick>, bucket: int): Flow
    requires bucket > 0
  {
    if ticks == [] then EMPTY
    else TickStep(Run(ticks[..|ticks| - 1], bucket), ticks[|ticks| - 1], bucket)
  }

  function TotalVolume(ticks: seq<Tick>): real {
    if ticks == [] then 0.0 else TotalVolume(ticks[..|ticks| - 1]) + ticks[|ticks| - 1].volume
  }

  ghost predicate Conserved(f: Flow, total: real, bucket: int) {
    && Balanced(f) && 0.0 <= f.vol < bucket as real
    && IsSign(f.lastSign)
    && total == Buckets(bucket, |f.emitted|) + f.vol
    && f.cvd == f.drained + (f.buy - f.sell)
    && (forall i :: 0 <= i < |f.emitted| ==> 0.0 <= f.emitted[i] <= 1.0)
  }

  /** The bucket just before it is drained by this tick. */
  function Filled(f: Flow, t: Tick): Flow {
    Fill(CvdStep(f, t), SignedVolume(t, f.lastSign), t.volume)
  }

  lemma TickIsDrainOfFilled(f: Flow, t: Tick, bucket: int)
    requires bucket > 0
    ensures TickStep(f, t, bucket) == Drain(Filled(f, t), bucket)
  {
    hide Times, Drain;
    ClassifyTwice(t, f.lastSign);
    var g := CvdStep(f, t);
    assert SignedVolume(t, g.lastSign) == SignedVolume(t, f.lastSign);
    assert Fill(g, SignedVolume(t, g.lastSign), t.volume).(lastSign := NextSign(t, g.lastSign)) == Filled(f, t);
  }

  /** Before the drain, the bucket is balanced and the cumulative delta has moved with it. */
  lemma FilledFacts(f: Flow, t: Tick)
    requires Balanced(f) && IsSign(f.lastSign) && t.volume >= 0.0
    ensures var g := Filled(f, t);
            && Balanced(g) && g.vol == f.vol + t.volume && IsSign(g.lastSign)
            && g.cvd - (g.buy - g.sell) == f.cvd - (f.buy - f.sell)
            && g.emitted == f.emitted && g.drained == f.drained
  {
    hide Times;
    SignedVolumeCases(t, f.lastSign);
  }

  lemma TickConserves(f: Flow, t: Tick, total: real, bucket: int)
    requires bucket > 0 && Conserved(f, total, bucket) && t.volume >= 0.0
    ensures Conserved(TickStep(f, t, bucket), total + t.volume, bucket)
  {
    hide Times, Over, Drain, Filled, TickStep;
    TickIsDrainOfFilled(f, t, bucket);
    FilledFacts(f, t);
    var g := Filled(f, t);
    DrainFacts(g, bucket);
    var f' := Drain(g, bucket);
    if g.vol > 0.0 {
      ImbalanceInUnit(g);
    }
    AddBuckets(bucket, |f.emitted|, |f'.emitted| - |f.emitted|);
  }

  lemma AddBuckets(bucket: int, m: int, n: int)
    ensures Buckets(bucket, m + n) == Buckets(bucket, m) + Buckets(bucket, n)
  {
  }

  /**
   VPIN and CVD conservation over every run of ticks with non-negative volume: the volume seen is
   whole buckets plus a residual below one bucket, the residual holds its two sides, every emitted
   value is a fraction, and the cumulative delta is what has drained plus what is still inside.
   */
  lemma {:induction false} RunConserves(ticks: seq<Tick>, bucket: int)
    requires bucket > 0 && forall i :: 0 <= i < |ticks| ==> ticks[i].volume >= 0.0
    ensures Conserved(Run(ticks, bucket), TotalVolume(ticks), bucket)
    decreases |ticks|
  {
    hide TickStep;
    if ticks != [] {
      var n := |ticks|;
      RunConserves(ticks[..n - 1], bucket);
      TickConserves(Run(ticks[..n - 1], bucket), ticks[n - 1], TotalVolume(ticks[..n - 1]), bucket);
    } else {
      BucketsSucc(bucket, 0);
    }
  }

  // ---------------------------------------------------------------- the tick rule over runs

  /** A trade with both quotes and a price off their middle. */
  ghost predicate Decisive(t: Tick) {
    t.bid > 0.0 && t.ask > 0.0 && 2.0 * t.price != t.bid + t.ask
  }

  /** Which side of the middle of the quotes a trade was on. */
  ghost function Aggressor(t: Tick): int {
    if 2.0 * t.price > t.bid + t.ask then 1 else -1
  }

  /** The side of the latest decisive trade, and 0 when there has been none. */
  ghost function LatestSide(ticks: seq<Tick>): int {
    var n := |ticks|;
    if n == 0 then 0
    else if Decisive(ticks[n - 1]) then Aggressor(ticks[n - 1])
    else LatestSide(ticks[..n - 1])
  }

  /** What `LatestSide` means: the side of the one decisive trade with none after it. */
  lemma {:induction false} LatestSideIs(ticks: seq<Tick>, i: int)
    requires -1 <= i < |ticks| && forall j :: i < j < |ticks| ==> !Decisive(ticks[j])
    requires i >= 0 ==> Decisive(ticks[i])
    ensures LatestSide(ticks) == if i < 0 then 0 else Aggressor(ticks[i])
  {
    var n := |ticks|;
    if i < n - 1 {
      LatestSideIs(ticks[..n - 1], i);
    }
  }

  /** The remembered sign is that side, over every run. */
  lemma {:induction false} RemembersLatestSide(ticks: seq<Tick>, bucket: int)
    requires bucket > 0 && forall i :: 0 <= i < |ticks| ==> ticks[i].volume >= 0.0
    ensures Run(ticks, bucket).lastSign == LatestSide(ticks)
    decreases |ticks|
  {
    var n := |ticks|;
    if n > 0 {
      RemembersLatestSide(ticks[..n - 1], bucket);
      RunConserves(ticks[..n - 1], bucket);
      TickLastSign(Run(ticks[..n - 1], bucket), ticks[n - 1], bucket);
    }
  }

  lemma TickLastSign(f: Flow, t: Tick, bucket: int)
    requires bucket > 0 && Balanced(f) && 0.0 <= f.vol && IsSign(f.lastSign) && t.volume >= 0.0
    ensures TickStep(f, t, bucket).lastSign == if Decisive(t) then Aggressor(t) else f.lastSign
  {
    hide Times, Drain;
    TickIsDrainOfFilled(f, t, bucket);
    FilledFacts(f, t);
    DrainFacts(Filled(f, t), bucket);
  }

  /** The signed volume of a trade after the given ones: nothing without quotes, else by its side or the tick rule. */
  ghost function SignedBy(ticks: seq<Tick>, t: Tick): real {
    var side := if Decisive(t) then Aggressor(t) else LatestSide(ticks);
    if t.bid <= 0.0 || t.ask <= 0.0 || side == 0 then 0.0 else if side > 0 then t.volume else -t.volume
  }

  /** The sum of the signed volumes of the ticks. */
  ghost function NetFlow(ticks: seq<Tick>): real {
    var n := |ticks|;
    if n == 0 then 0.0 else NetFlow(ticks[..n - 1]) + SignedBy(ticks[..n - 1], ticks[n - 1])
  }

  /**
   After any ticks, a quoted trade at the mid is signed by the latest earlier quoted trade off the mid, any
   other quoted trade by its own side, and an unquoted one not at all.
   */
  lemma TradeIsSignedBy(ticks: seq<Tick>, t: Tick, bucket: int)
    requires bucket > 0 && forall i :: 0 <= i < |ticks| ==> ticks[i].volume >= 0.0
    ensures SignedVolume(t, Run(ticks, bucket).lastSign) == SignedBy(ticks, t)
  {
    RemembersLatestSide(ticks, bucket);
    LatestIsSign(ticks);
    SignedVolumeCases(t, LatestSide(ticks));
    hide Times, SignedVolume, Run, LatestSide;
  }

  lemma {:induction false} LatestIsSign(ticks: seq<Tick>)
    ensures IsSign(LatestSide(ticks))
  {
    var n := |ticks|;
    if n > 0 {
      LatestIsSign(ticks[..n - 1]);
    }
  }

  /** So the cumulative delta of a run is the net flow of its ticks. */
  lemma {:induction false} CvdIsNetFlow(ticks: seq<Tick>, bucket: int)
    requires bucket > 0 && forall i :: 0 <= i < |ticks| ==> ticks[i].volume >= 0.0
    ensures Run(ticks, bucket).cvd == NetFlow(ticks)
    decreases |ticks|
  {
    var n := |ticks|;
    if n > 0 {
      var init, t := ticks[..n - 1], ticks[n - 1];
      CvdIsNetFlow(init, bucket);
      TradeIsSignedBy(init, t, bucket);
      RunConserves(init, bucket);
      TickCvd(Run(init, bucket), t, bucket);
      hide TickStep, SignedVolume, SignedBy;
    }
  }

  lemma TickCvd(f: Flow, t: Tick, bucket: int)
    requires bucket > 0 && Balanced(f) && 0.0 <= f.vol && IsSign(f.lastSign) && t.volume >= 0.0
    ensures TickStep(f, t, bucket).cvd == f.cvd + SignedVolume(t, f.lastSign)
  {
    hide Times, Drain, SignedVolume;
    TickIsDrainOfFilled(f, t, bucket);
    FilledFacts(f, t);
    DrainFacts(Filled(f, t), bucket);
  }

  /** All buckets that one tick drains carry the imbalance of the bucket as that tick left it. */
  lemma TickEmitsOneValue(f: Flow, t: Tick, bucket: int)
    requires bucket > 0 && Balanced(f) && IsSign(f.lastSign) && t.volume >= 0.0
    ensures var f' := TickStep(f, t, bucket);
            var g := Filled(f, t);
            && f.emitted <= f'.emitted
            && (|f'.emitted| > |f.emitted| <==> g.vol >= bucket as real)
            && (forall i :: |f.emitted| <= i < |f'.emitted| ==> g.vol > 0.0 && f'.emitted[i] == Imbalance(g))
  {
    hide Times, Over, Drain, Filled, TickStep, Buckets;
    TickIsDrainOfFilled(f, t, bucket);
    FilledFacts(f, t);
    var g := Filled(f, t);
    DrainFacts(g, bucket);
    BucketsAtLeastOne(bucket, |Drain(g, bucket).emitted| - |f.emitted|);
  }

  lemma BucketsAtLeastOne(bucket: int, n: int)
    requires bucket > 0 && n >= 0
    ensures Buckets(bucket, n) >= (if n == 0 then 0.0 else bucket as real)
    ensures n == 0 ==> Buckets(bucket, n) == 0.0
  {
    if n > 0 {
      assert bucket * n >= bucket * 1;
    }
  }
}
