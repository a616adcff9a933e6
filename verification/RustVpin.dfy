/**
 The second VPIN engine, rust_extensions/tick_engine/src/modules/vpin.rs, and how its emissions
 compare with those of the draining buckets when both are fed the same signs.
 */
module RustVpin {
  import opened Reals
  import opened Basics
  import opened OrderFlow

  const SERIES_CAP := 100

  /** The counters of the engine, and every value it has returned. */
  datatype Engine = Engine(vol: int, buy: int, sell: int, emitted: seq<real>)

  const FRESH := Engine(0, 0, 0, [])

  function Accumulate(e: Engine, sign: int, volume: int): Engine {
    e.(vol := e.vol + volume,
       buy := if sign > 0 then e.buy + volume else e.buy,
       sell := if sign < 0 then e.sell + volume else e.sell)
  }

  /** The whole bucket is emitted and reset, however far it is overfilled. */
  function EngineStep(e: Engine, sign: int, volume: int, size: int): (Engine, Option<real>)
    requires size > 0
  {
    var a := Accumulate(e, sign, volume);
    if a.vol >= size then
      var value := Over(AbsInt(a.buy - a.sell) as real, a.vol as real);
      (Engine(0, 0, 0, e.emitted + [value]), Some(value))
    else (a, None)
  }

  /** The last hundred values of a sequence. */
  function LastCap(values: seq<real>): seq<real> {
    if |values| > SERIES_CAP then values[|values| - SERIES_CAP..] else values
  }

  lemma LastCapIsLastHundred(values: seq<real>)
    ensures var kept := LastCap(values);
            |kept| == (if |values| < 100 then |values| else 100) && kept == values[|values| - |kept|..]
  {
  }

  lemma LastCapSnoc(values: seq<real>, v: real)
    ensures var grown := LastCap(values) + [v];
            LastCap(values + [v]) == if |grown| > SERIES_CAP then grown[1..] else grown
  {
  }

  class VpinEngine {
    const bucketSize: int
    var currentVol: int
    var currentBuyVol: int
    var currentSellVol: int
    var series: seq<real>
    ghost var emitted: seq<real>

    constructor (bucketSize: int)
      ensures this.bucketSize == bucketSize && State() == FRESH && series == []
    {
      this.bucketSize := bucketSize;
      currentVol, currentBuyVol, currentSellVol, series, emitted := 0, 0, 0, [], [];
    }

    ghost function State(): Engine
      reads this
    {
      Engine(currentVol, currentBuyVol, currentSellVol, emitted)
    }

    /** The retained series is the last hundred of all values emitted. */
    ghost predicate Valid()
      reads this
    {
      && bucketSize > 0
      && series == LastCap(emitted)
    }

    method Update(sign: int, volume: int) returns (vpin: Option<real>)
      requires Valid()
      modifies this
      ensures Valid()
      ensures (State(), vpin) == EngineStep(old(State()), sign, volume, bucketSize)
    {
      hide Over, LastCap;
      currentVol := currentVol + volume;
      if sign > 0 {
        currentBuyVol := currentBuyVol + volume;
      } else if sign < 0 {
        currentSellVol := currentSellVol + volume;
      }
      if currentVol >= bucketSize {
        var net := currentBuyVol - currentSellVol;
        var value := Over((if net < 0 then -net else net) as real, currentVol as real);
        LastCapSnoc(emitted, value);
        series := series + [value];
        emitted := emitted + [value];
        if |series| > SERIES_CAP {
          series := series[1..];
        }
        currentVol, currentBuyVol, currentSellVol := 0, 0, 0;
        return Some(value);
      }
      vpin := None;
    }
  }

  // ---------------------------------------------------------------- signs

  /** The engine's own classification: a trade at the mid has no sign. */
  function RustSign(t: Tick): int {
    var mid := (t.bid + t.ask) / 2.0;
    if t.bid <= 0.0 || t.ask <= 0.0 then 0 else if t.price > mid then 1 else if t.price < mid then -1 else 0
  }

  /** The two classifiers disagree exactly on a quoted trade at the mid with a known last sign. */
  lemma SignsDisagreeIff(t: Tick, lastSign: int)
    ensures RustSign(t) != Sign(t, lastSign) <==>
              Quoted(t) && t.price == (t.bid + t.ask) / 2.0 && lastSign != 0
  {
  }

  // ---------------------------------------------------------------- one tick, same sign

  /** The draining bucket fed a sign directly. */
  function DrainStep(f: Flow, sign: int, volume: int, size: int): Flow
    requires size > 0
  {
    Drain(Fill(f, sign as real, volume as real), size)
  }

  ghost predicate SameBucket(f: Flow, e: Engine) {
    f.vol == e.vol as real && f.buy == e.buy as real && f.sell == e.sell as real
  }

  ghost predicate InBucket(e: Engine, size: int) {
    e.buy >= 0 && e.sell >= 0 && e.buy + e.sell <= e.vol && e.vol < size
  }

  lemma SameFill(f: Flow, e: Engine, sign: int, volume: int)
    requires SameBucket(f, e)
    ensures SameBucket(Fill(f, sign as real, volume as real), Accumulate(e, sign, volume))
  {
  }

  lemma SameImbalance(f: Flow, e: Engine)
    requires SameBucket(f, e) && e.vol > 0
    ensures Imbalance(f) == Over(AbsInt(e.buy - e.sell) as real, e.vol as real)
  {
    hide Over;
    assert Abs(f.buy - f.sell) == AbsInt(e.buy - e.sell) as real;
  }

  /**
   From equal buckets and with the same sign, both engines emit on the same ticks, and whatever the
   draining bucket emits equals the one value the other engine returns. They still agree afterwards,
   in state and in number of emissions, exactly when the tick did not overfill the bucket.
   */
  lemma SameTick(f: Flow, e: Engine, sign: int, volume: int, size: int)
    requires size > 0 && SameBucket(f, e) && InBucket(e, size) && IsSign(sign) && volume >= 0
    ensures var f' := DrainStep(f, sign, volume, size);
            var (e', vpin) := EngineStep(e, sign, volume, size);
            && f.emitted <= f'.emitted
            && (vpin.Some? <==> |f'.emitted| > |f.emitted|)
            && (forall i :: |f.emitted| <= i < |f'.emitted| ==> vpin == Some(f'.emitted[i]))
            && InBucket(e', size)
            && (SameBucket(f', e') && |f'.emitted| - |f.emitted| == |e'.emitted| - |e.emitted| <==>
                e.vol + volume <= size)
  {
    hide Times, Over, Drain, Imbalance, Buckets;
    var g := Fill(f, sign as real, volume as real);
    var a := Accumulate(e, sign, volume);
    SameFill(f, e, sign, volume);
    DrainFacts(g, size);
    var f' := Drain(g, size);
    var n := |f'.emitted| - |f.emitted|;
    BucketsAtLeastOne(size, n);
    BucketsSucc(size, 0);
    if a.vol > 0 {
      SameImbalance(g, a);
    }
    if a.vol < size {
      DrainNone(g, size);
    } else {
      OneBucketIff(size, n, a.vol as real, f'.vol);
    }
  }

  lemma DrainNone(f: Flow, size: int)
    requires size > 0 && f.vol < size as real
    ensures Drain(f, size) == f
  {
  }

  lemma OneBucketIff(size: int, n: int, total: real, rest: real)
    requires size > 0 && n >= 0 && 0.0 <= rest < size as real && total >= size as real
    requires total == Buckets(size, n) + rest
    ensures n == 1 && rest == 0.0 <==> total == size as real
  {
    if n >= 2 {
      MulAtLeast(size, 2, n);
    }
  }

  lemma MulAtLeast(k: int, a: int, b: int)
    requires k >= 0 && a <= b
    ensures k * a <= k * b
  {
    assert k * (b - a) >= 0;
  }

  // ---------------------------------------------------------------- runs of the same signs

  datatype Trade = Trade(sign: int, volume: int)

  ghost predicate WellSigned(feed: seq<Trade>) {
    forall i :: 0 <= i < |feed| ==> IsSign(feed[i].sign) && feed[i].volume >= 0
  }

  function RunDrain(f: Flow, feed: seq<Trade>, size: int): Flow
    requires size > 0
    decreases |feed|
  {
    if feed == [] then f else RunDrain(DrainStep(f, feed[0].sign, feed[0].volume, size), feed[1..], size)
  }

  function RunEngine(e: Engine, feed: seq<Trade>, size: int): Engine
    requires size > 0
    decreases |feed|
  {
    if feed == [] then e else RunEngine(EngineStep(e, feed[0].sign, feed[0].volume, size).0, feed[1..], size)
  }

  /** No tick of the feed takes the engine's bucket beyond its size. */
  ghost predicate NeverOverfills(e: Engine, feed: seq<Trade>, size: int)
    requires size > 0
    decreases |feed|
  {
    feed == [] ||
    (e.vol + feed[0].volume <= size
     && NeverOverfills(EngineStep(e, feed[0].sign, feed[0].volume, size).0, feed[1..], size))
  }

  /** On a feed that never overfills a bucket the two emission sequences are the same. */
  lemma {:induction false} SameEmissions(f: Flow, e: Engine, feed: seq<Trade>, size: int)
    requires size > 0 && SameBucket(f, e) && InBucket(e, size) && f.emitted == e.emitted
    requires WellSigned(feed) && NeverOverfills(e, feed, size)
    ensures RunDrain(f, feed, size).emitted == RunEngine(e, feed, size).emitted
    ensures SameBucket(RunDrain(f, feed, size), RunEngine(e, feed, size))
    decreases |feed|
  {
    if feed != [] {
      hide Times, Over, DrainStep;
      var t := feed[0];
      SameTick(f, e, t.sign, t.volume, size);
      var f' := DrainStep(f, t.sign, t.volume, size);
      var (e', vpin) := EngineStep(e, t.sign, t.volume, size);
      assert f'.emitted == e'.emitted;
      SameEmissions(f', e', feed[1..], size);
    }
  }

  /** The same bucket and the same values emitted. */
  ghost predicate Together(f: Flow, e: Engine) {
    SameBucket(f, e) && f.emitted == e.emitted
  }

  ghost predicate AlwaysTogether(f: Flow, e: Engine, feed: seq<Trade>, size: int)
    requires size > 0
  {
    forall k :: 0 <= k <= |feed| ==> Together(RunDrain(f, feed[..k], size), RunEngine(e, feed[..k], size))
  }

  lemma TogetherHead(f: Flow, e: Engine, feed: seq<Trade>, size: int)
    requires size > 0 && feed != [] && Together(f, e)
    ensures var f' := DrainStep(f, feed[0].sign, feed[0].volume, size);
            var e' := EngineStep(e, feed[0].sign, feed[0].volume, size).0;
            && (AlwaysTogether(f, e, feed, size) <==> AlwaysTogether(f', e', feed[1..], size))
            && (AlwaysTogether(f, e, feed, size) ==> Together(f', e'))
  {
    hide DrainStep, EngineStep, Together;
    var f' := DrainStep(f, feed[0].sign, feed[0].volume, size);
    var e' := EngineStep(e, feed[0].sign, feed[0].volume, size).0;
    forall k | 0 < k <= |feed|
      ensures RunDrain(f, feed[..k], size) == RunDrain(f', feed[1..][..k - 1], size)
      ensures RunEngine(e, feed[..k], size) == RunEngine(e', feed[1..][..k - 1], size)
    {
      assert feed[..k][1..] == feed[1..][..k - 1];
    }
    assert RunDrain(f, feed[..0], size) == f && RunEngine(e, feed[..0], size) == e;
    assert RunDrain(f', feed[1..][..0], size) == f' && RunEngine(e', feed[1..][..0], size) == e';
    if AlwaysTogether(f', e', feed[1..], size) {
      forall k | 0 <= k <= |feed|
        ensures Together(RunDrain(f, feed[..k], size), RunEngine(e, feed[..k], size))
      {
        if k > 0 {
          assert Together(RunDrain(f', feed[1..][..k - 1], size), RunEngine(e', feed[1..][..k - 1], size));
        }
      }
    }
    if AlwaysTogether(f, e, feed, size) {
      forall k | 0 <= k <= |feed[1..]|
        ensures Together(RunDrain(f', feed[1..][..k], size), RunEngine(e', feed[1..][..k], size))
      {
        assert Together(RunDrain(f, feed[..k + 1], size), RunEngine(e, feed[..k + 1], size));
      }
      assert Together(RunDrain(f', feed[1..][..0], size), RunEngine(e', feed[1..][..0], size));
    }
  }

  /** The engines have the same bucket and the same values after every tick exactly when none overfills. */
  lemma {:induction false} TogetherIff(f: Flow, e: Engine, feed: seq<Trade>, size: int)
    requires size > 0 && Together(f, e) && InBucket(e, size) && WellSigned(feed)
    ensures AlwaysTogether(f, e, feed, size) <==> NeverOverfills(e, feed, size)
    decreases |feed|
  {
    hide Times, Over, DrainStep;
    if feed == [] {
      assert RunDrain(f, feed[..0], size) == f && RunEngine(e, feed[..0], size) == e;
    } else {
      hide AlwaysTogether;
      var t := feed[0];
      SameTick(f, e, t.sign, t.volume, size);
      TogetherHead(f, e, feed, size);
      var f' := DrainStep(f, t.sign, t.volume, size);
      var (e', vpin) := EngineStep(e, t.sign, t.volume, size);
      if e.vol + t.volume <= size {
        assert f'.emitted == e'.emitted;
        TogetherIff(f', e', feed[1..], size);
      }
    }
  }

  // ---------------------------------------------------------------- runs of the same ticks

  /** The feed the engine makes of ticks with whole volumes. */
  function RustFeed(ticks: seq<Tick>): seq<Trade> {
    seq(|ticks|, i requires 0 <= i < |ticks| => Trade(RustSign(ticks[i]), ticks[i].volume.Floor))
  }

  ghost predicate WholeVolumes(ticks: seq<Tick>) {
    forall i :: 0 <= i < |ticks| ==> ticks[i].volume >= 0.0 && ticks[i].volume == ticks[i].volume.Floor as real
  }

  /** No tick is a quoted trade at the mid after a known sign: see `SignsDisagreeIff`. */
  ghost predicate SignsAgree(ticks: seq<Tick>, size: int)
    requires size > 0
  {
    forall i :: 0 <= i < |ticks| ==> RustSign(ticks[i]) == Sign(ticks[i], Run(ticks[..i], size).lastSign)
  }

  /** The bucket and the emissions of a flow, without its cumulative delta and last sign. */
  function Bare(f: Flow): Flow {
    f.(cvd := 0.0, lastSign := 0)
  }

  lemma {:induction false} DrainBare(f: Flow, size: int)
    requires size > 0
    ensures Bare(Drain(f, size)) == Drain(Bare(f), size)
    decreases f.vol
  {
    if f.vol >= size as real {
      hide Times, Over;
      assert Bare(DrainOne(f, size)) == DrainOne(Bare(f), size);
      DrainBare(DrainOne(f, size), size);
    }
  }

  /** A tick of the Python path is a drain step fed its sign. */
  lemma TickIsDrainStep(f: Flow, t: Tick, volume: int, size: int)
    requires size > 0 && IsSign(f.lastSign) && volume >= 0 && t.volume == volume as real
    ensures Bare(TickStep(f, t, size)) == DrainStep(Bare(f), Sign(t, f.lastSign), volume, size)
  {
    hide Times, Drain;
    TickIsDrainOfFilled(f, t, size);
    DrainBare(Filled(f, t), size);
    SignedVolumeCases(t, f.lastSign);
    assert Bare(Filled(f, t)) == Fill(Bare(f), Sign(t, f.lastSign) as real, volume as real);
  }

  lemma {:induction false} RunDrainSnoc(f: Flow, feed: seq<Trade>, t: Trade, size: int)
    requires size > 0
    ensures RunDrain(f, feed + [t], size) == DrainStep(RunDrain(f, feed, size), t.sign, t.volume, size)
    decreases |feed|
  {
    hide DrainStep;
    if feed == [] {
      assert feed + [t] == [t] && [t][1..] == [];
    } else {
      assert (feed + [t])[1..] == feed[1..] + [t];
      RunDrainSnoc(DrainStep(f, feed[0].sign, feed[0].volume, size), feed[1..], t, size);
    }
  }

  lemma PrefixAgrees(ticks: seq<Tick>, size: int, k: nat)
    requires size > 0 && WholeVolumes(ticks) && SignsAgree(ticks, size) && k <= |ticks|
    ensures WholeVolumes(ticks[..k]) && SignsAgree(ticks[..k], size)
  {
    hide Run, Sign, RustSign;
    assert forall i :: 0 <= i < k ==> ticks[..k][..i] == ticks[..i];
  }

  lemma RunLastSign(ticks: seq<Tick>, size: int)
    requires size > 0 && WholeVolumes(ticks)
    ensures IsSign(Run(ticks, size).lastSign)
  {
    RunConserves(ticks, size);
  }

  /** Where the signs agree, the Python path on ticks is the draining bucket on the engine's feed. */
  lemma {:induction false} RunIsRunDrain(ticks: seq<Tick>, size: int)
    requires size > 0 && WholeVolumes(ticks) && SignsAgree(ticks, size)
    ensures Bare(Run(ticks, size)) == RunDrain(EMPTY, RustFeed(ticks), size)
    decreases |ticks|
  {
    hide TickStep, DrainStep, RustSign, Sign, Bare, RustFeed, IsSign, Run, RunDrain;
    var n := |ticks|;
    if n == 0 {
      NoTicks(size);
      assert ticks == [];
    } else {
      var init, t := ticks[..n - 1], ticks[n - 1];
      PrefixAgrees(ticks, size, n - 1);
      RunIsRunDrain(init, size);
      RunLastSign(init, size);
      FeedSnoc(init, t);
      assert ticks == init + [t];
      var trade := Trade(RustSign(t), t.volume.Floor);
      RunDrainSnoc(EMPTY, RustFeed(init), trade, size);
      TickIsDrainStep(Run(init, size), t, t.volume.Floor, size);
      assert RustSign(ticks[n - 1]) == Sign(ticks[n - 1], Run(ticks[..n - 1], size).lastSign);
      RunOneMore(init, t, size);
    }
  }

  lemma RunOneMore(ticks: seq<Tick>, t: Tick, size: int)
    requires size > 0
    ensures Run(ticks + [t], size) == TickStep(Run(ticks, size), t, size)
  {
    hide TickStep;
    assert (ticks + [t])[..|ticks|] == ticks;
  }

  lemma NoTicks(size: int)
    requires size > 0
    ensures Bare(Run([], size)) == RunDrain(EMPTY, RustFeed([]), size)
  {
  }

  lemma FeedSnoc(ticks: seq<Tick>, t: Tick)
    ensures RustFeed(ticks + [t]) == RustFeed(ticks) + [Trade(RustSign(t), t.volume.Floor)]
  {
    hide RustSign;
  }

  lemma FeedIsWellSigned(ticks: seq<Tick>)
    requires WholeVolumes(ticks)
    ensures WellSigned(RustFeed(ticks))
  {
  }

  /**
   End to end, on the same ticks: where the two classifiers agree, the Python path and the Rust engine
   hold the same bucket and have emitted the same values after every tick exactly when none overfills it.
   */
  lemma SameTicksSameEmissionsIff(ticks: seq<Tick>, size: int)
    requires size > 0 && WholeVolumes(ticks) && SignsAgree(ticks, size)
    ensures (forall k :: 0 <= k <= |ticks| ==>
               Together(Run(ticks[..k], size), RunEngine(FRESH, RustFeed(ticks[..k]), size)))
            <==> NeverOverfills(FRESH, RustFeed(ticks), size)
  {
    var feed := RustFeed(ticks);
    FeedIsWellSigned(ticks);
    TogetherIff(EMPTY, FRESH, feed, size);
    forall k | 0 <= k <= |ticks|
      ensures Together(Run(ticks[..k], size), RunEngine(FRESH, RustFeed(ticks[..k]), size)) <==>
              Together(RunDrain(EMPTY, feed[..k], size), RunEngine(FRESH, feed[..k], size))
    {
      var prefix := ticks[..k];
      PrefixAgrees(ticks, size, k);
      RunIsRunDrain(prefix, size);
      assert RustFeed(prefix) == feed[..k];
    }
    hide Run, RunDrain, RunEngine, RustFeed, NeverOverfills, SignsAgree, WholeVolumes, Together;
  }

  function FeedVolume(feed: seq<Trade>): int {
    if feed == [] then 0 else feed[0].volume + FeedVolume(feed[1..])
  }

  /** Every value the resetting engine returns costs at least one bucket of volume. */
  lemma {:induction false} EngineSpendsBuckets(e: Engine, feed: seq<Trade>, size: int)
    requires size > 0 && WellSigned(feed) && InBucket(e, size)
    ensures var e' := RunEngine(e, feed, size);
            && InBucket(e', size) && |e'.emitted| >= |e.emitted|
            && e.vol + FeedVolume(feed) >= size * (|e'.emitted| - |e.emitted|)
    decreases |feed|
  {
    if feed != [] {
      hide Over;
      var t := feed[0];
      var e1 := EngineStep(e, t.sign, t.volume, size).0;
      EngineSpendsBuckets(e1, feed[1..], size);
      var k := |RunEngine(e, feed, size).emitted| - |e1.emitted|;
      if |e1.emitted| > |e.emitted| {
        assert size * (k + 1) == size * k + size;
      }
    }
  }

  /** The draining bucket spends exactly one bucket of volume for each value. */
  lemma {:induction false} DrainSpendsBuckets(f: Flow, feed: seq<Trade>, size: int)
    requires size > 0 && WellSigned(feed) && Balanced(f) && 0.0 <= f.vol < size as real
    ensures var f' := RunDrain(f, feed, size);
            && 0.0 <= f'.vol < size as real && |f'.emitted| >= |f.emitted|
            && f.vol + FeedVolume(feed) as real == Buckets(size, |f'.emitted| - |f.emitted|) + f'.vol
    decreases |feed|
  {
    BucketsSucc(size, 0);
    if feed != [] {
      hide Times, Over, Drain, Buckets;
      var t := feed[0];
      var g := Fill(f, t.sign as real, t.volume as real);
      DrainFacts(g, size);
      var f1 := DrainStep(f, t.sign, t.volume, size);
      DrainSpendsBuckets(f1, feed[1..], size);
      AddBuckets(size, |f1.emitted| - |f.emitted|, |RunDrain(f1, feed[1..], size).emitted| - |f1.emitted|);
    }
  }

  /**
   On every feed the resetting engine emits at most as often as the draining one, which emits once
   for each whole bucket of volume.
   */
  lemma EngineNeverEmitsMore(feed: seq<Trade>, size: int)
    requires size > 0 && WellSigned(feed)
    ensures |RunEngine(FRESH, feed, size).emitted| <= |RunDrain(EMPTY, feed, size).emitted|
    ensures |RunDrain(EMPTY, feed, size).emitted| == FeedVolume(feed) / size
  {
    EngineSpendsBuckets(FRESH, feed, size);
    DrainSpendsBuckets(EMPTY, feed, size);
    var m := |RunEngine(FRESH, feed, size).emitted|;
    var n := |RunDrain(EMPTY, feed, size).emitted|;
    CountByVolume(FeedVolume(feed), size, n, m);
  }

  lemma CountByVolume(total: int, size: int, n: int, m: int)
    requires size > 0 && size * n <= total < size * n + size && size * m <= total
    ensures n == total / size && m <= n
  {
    var q := total / size;
    QuotientBounds(total, size, q);
    CancelLess(size, q, n + 1);
    CancelLess(size, n, q + 1);
    CancelLess(size, m, n + 1);
  }

  lemma QuotientBounds(total: int, size: int, q: int)
    requires size > 0 && q == total / size
    ensures size * q <= total < size * (q + 1)
  {
  }

  lemma CancelLess(k: int, a: int, b: int)
    requires k > 0 && k * a < k * b
    ensures a < b
  {
    if b <= a {
      MulAtLeast(k, b, a);
    }
  }
}
