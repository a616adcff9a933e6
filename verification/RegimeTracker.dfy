/**
 The regime tracker of daemons/meta_router.py: a smoothed Bayesian filter over three regimes, and
 gate 5 of the veto matrix, which reads it.
 */
module RegimeTracker {
  import opened Reals

  /** Regime labels. The filter knows the first three; a label outside them still reaches it. */
  datatype Label = Ranging | Trending | Volatile | Outside(name: string)

  const REGIMES: seq<Label> := [Ranging, Trending, Volatile]
  const REGIME_SMOOTHING := 0.05
  const UNCERTAINTY_THRESHOLD := 0.60

  /** One number for each regime the filter knows. */
  datatype Dist = Dist(ranging: real, trending: real, volatile: real) {
    function At(r: Label): real {
      match r
      case Ranging => ranging
      case Trending => trending
      case Volatile => volatile
      case Outside(_) => 0.0
    }

    function Plus(r: Label, x: real): Dist {
      match r
      case Ranging => this.(ranging := ranging + x)
      case Trending => this.(trending := trending + x)
      case Volatile => this.(volatile := volatile + x)
      case Outside(_) => this
    }

    function Total(): real {
      ranging + trending + volatile
    }

    ghost predicate IsProbability() {
      ranging >= 0.0 && trending >= 0.0 && volatile >= 0.0 && Total() == 1.0
    }
  }

  const ZERO := Dist(0.0, 0.0, 0.0)
  const INITIAL := Dist(0.5, 0.3, 0.2)

  function Transition(from: Label): Dist {
    match from
    case Ranging => Dist(0.8, 0.15, 0.05)
    case Trending => Dist(0.2, 0.7, 0.1)
    case Volatile => Dist(0.1, 0.2, 0.7)
    case Outside(_) => ZERO
  }

  // ---------------------------------------------------------------- one update

  /** The prediction step: the transition matrix applied to the current posterior. */
  function Prior(p: Dist): Dist {
    Dist(0.8 * p.ranging + 0.2 * p.trending + 0.1 * p.volatile,
         0.15 * p.ranging + 0.7 * p.trending + 0.2 * p.volatile,
         0.05 * p.ranging + 0.1 * p.trending + 0.7 * p.volatile)
  }

  function Likelihood(r: Label, observation: Label, confidence: real): real {
    if r == observation then confidence else (1.0 - confidence) / 2.0
  }

  /** A prior weighted by one likelihood for each regime, plus the smoothing constant. */
  function Smooth(q: Dist, a: real, b: real, c: real): Dist {
    Dist(Times(q.ranging, a) + REGIME_SMOOTHING, Times(q.trending, b) + REGIME_SMOOTHING,
         Times(q.volatile, c) + REGIME_SMOOTHING)
  }

  function Normalise(raw: Dist, fallback: Dist): Dist {
    var total := raw.Total();
    if total > 0.0 then Dist(Over(raw.ranging, total), Over(raw.trending, total), Over(raw.volatile, total))
    else fallback
  }

  function Raw(p: Dist, observation: Label, confidence: real): Dist {
    Smooth(Prior(p), Likelihood(Ranging, observation, confidence), Likelihood(Trending, observation, confidence),
           Likelihood(Volatile, observation, confidence))
  }

  function Posterior(p: Dist, observation: Label, confidence: real): Dist {
    Normalise(Raw(p, observation, confidence), p)
  }

  /** The part of the prior that the first `n` regimes contribute to `to`. */
  function Inflow(p: Dist, n: nat, to: Label): real
    requires n <= |REGIMES|
  {
    (if n > 0 then p.ranging * Transition(Ranging).At(to) else 0.0)
    + (if n > 1 then p.trending * Transition(Trending).At(to) else 0.0)
    + (if n > 2 then p.volatile * Transition(Volatile).At(to) else 0.0)
  }

  class Tracker {
    var posteriors: map<string, Dist>

    constructor (assets: set<string>)
      ensures posteriors == map a | a in assets :: Dist(0.5, 0.3, 0.2)
    {
      posteriors := map a | a in assets :: INITIAL;
    }

    /** The prediction double loop over the transition matrix. */
    method Predict(p: Dist) returns (prior: Dist)
      ensures prior == Prior(p)
    {
      prior := ZERO;
      for i := 0 to 3
        invariant prior == Dist(Inflow(p, i, Ranging), Inflow(p, i, Trending), Inflow(p, i, Volatile))
      {
        var from := REGIMES[i];
        for j := 0 to 3
          invariant prior == Dist(Inflow(p, if j > 0 then i + 1 else i, Ranging),
                                  Inflow(p, if j > 1 then i + 1 else i, Trending),
                                  Inflow(p, if j > 2 then i + 1 else i, Volatile))
        {
          prior := prior.Plus(REGIMES[j], p.At(from) * Transition(from).At(REGIMES[j]));
        }
      }
    }

    /** The likelihood loop: each prior weighted by the observation, plus smoothing. */
    method Weigh(prior: Dist, observation: Label, confidence: real) returns (raw: Dist)
      ensures raw == Smooth(prior, Likelihood(Ranging, observation, confidence),
                            Likelihood(Trending, observation, confidence),
                            Likelihood(Volatile, observation, confidence))
    {
      hide Times;
      raw := ZERO;
      ghost var target := Smooth(prior, Likelihood(Ranging, observation, confidence),
                                 Likelihood(Trending, observation, confidence),
                                 Likelihood(Volatile, observation, confidence));
      for i := 0 to 3
        invariant raw == Dist(if i > 0 then target.ranging else 0.0, if i > 1 then target.trending else 0.0,
                              if i > 2 then target.volatile else 0.0)
      {
        var r := REGIMES[i];
        var likelihood := if r == observation then confidence else (1.0 - confidence) / 2.0;
        raw := raw.Plus(r, Times(prior.At(r), likelihood) + REGIME_SMOOTHING);
      }
    }

    method Update(asset: string, observation: Label, confidence: real)
      modifies this
      ensures posteriors ==
              if asset in old(posteriors)
              then old(posteriors)[asset := Posterior(old(posteriors)[asset], observation, confidence)]
              else old(posteriors)
    {
      hide Times, Over, Smooth, Prior;
      if asset !in posteriors {
        return;
      }
      var prior := Predict(posteriors[asset]);
      var raw := Weigh(prior, observation, confidence);
      var total := raw.ranging + raw.trending + raw.volatile;
      if total > 0.0 {
        posteriors := posteriors[asset :=
          Dist(Over(raw.ranging, total), Over(raw.trending, total), Over(raw.volatile, total))];
      }
    }
  }

  // ---------------------------------------------------------------- what one update is

  /** Prediction from certainty of each regime, and of a mixture the mixture of the predictions. */
  lemma PredictionRows(p: Dist)
    ensures Prior(Dist(1.0, 0.0, 0.0)) == Dist(0.8, 0.15, 0.05)
    ensures Prior(Dist(0.0, 1.0, 0.0)) == Dist(0.2, 0.7, 0.1)
    ensures Prior(Dist(0.0, 0.0, 1.0)) == Dist(0.1, 0.2, 0.7)
    ensures forall r: Label :: Prior(p).At(r) == p.ranging * Prior(Dist(1.0, 0.0, 0.0)).At(r)
                                               + p.trending * Prior(Dist(0.0, 1.0, 0.0)).At(r)
                                               + p.volatile * Prior(Dist(0.0, 0.0, 1.0)).At(r)
  {
  }

  /** Without observations the regimes settle at 14, 11 and 6 parts of 31, and nowhere else. */
  lemma StationaryIff(p: Dist)
    requires p.IsProbability()
    ensures Prior(p) == p <==> p == Dist(14.0 / 31.0, 11.0 / 31.0, 6.0 / 31.0)
  {
  }

  /**
   Bayes' rule with smoothing: each posterior is the prior times the confidence for the regime observed, or
   times half of the doubt for another, plus 0.05, as a part of the sum of the three.
   */
  lemma PosteriorIsBayes(p: Dist, observation: Label, confidence: real)
    requires p.IsProbability() && 0.0 <= confidence <= 1.0
    ensures var q, post := Prior(p), Posterior(p, observation, confidence);
            var a := Times(q.ranging, if observation == Ranging then confidence else (1.0 - confidence) / 2.0) + 0.05;
            var b := Times(q.trending, if observation == Trending then confidence else (1.0 - confidence) / 2.0) + 0.05;
            var c := Times(q.volatile, if observation == Volatile then confidence else (1.0 - confidence) / 2.0) + 0.05;
            && a + b + c > 0.0
            && post.ranging == Over(a, a + b + c)
            && post.trending == Over(b, a + b + c)
            && post.volatile == Over(c, a + b + c)
  {
    PriorIsProbability(p);
    var q, l := Prior(p), (1.0 - confidence) / 2.0;
    TimesNonNeg(q.ranging, if observation == Ranging then confidence else l);
    TimesNonNeg(q.trending, if observation == Trending then confidence else l);
    TimesNonNeg(q.volatile, if observation == Volatile then confidence else l);
    hide Times, Over, Prior;
  }

  // ---------------------------------------------------------------- arithmetic of one update

  /** One prediction step keeps a probability, and floods no regime. */
  lemma PriorIsProbability(p: Dist)
    requires p.IsProbability()
    ensures Prior(p).IsProbability()
    ensures forall r: Label :: 0.0 <= Prior(p).At(r) <= 0.8
    ensures forall r: Label | !r.Outside? :: Prior(p).At(r) >= 0.05 + 0.65 * p.At(r)
  {
  }

  lemma SmoothBounds(q: Dist, a: real, b: real, c: real)
    requires q.IsProbability() && 0.0 <= a <= 1.0 && 0.0 <= b <= 1.0 && 0.0 <= c <= 1.0
    ensures var raw := Smooth(q, a, b, c);
            raw.ranging >= 0.05 && raw.trending >= 0.05 && raw.volatile >= 0.05 && raw.Total() <= 1.15
  {
    hide Times;
    Weighted(q.ranging, a);
    Weighted(q.trending, b);
    Weighted(q.volatile, c);
  }

  lemma OneIn23(a: real, b: real)
    requires b > 0.0 && 23.0 * a >= b
    ensures Over(a, b) >= 1.0 / 23.0
  {
    OverAtLeast(a, b, 1.0 / 23.0);
  }

  lemma NormaliseBounds(raw: Dist, fallback: Dist)
    requires raw.ranging >= 0.05 && raw.trending >= 0.05 && raw.volatile >= 0.05 && raw.Total() <= 1.15
    ensures var post := Normalise(raw, fallback);
            && post.IsProbability()
            && post.ranging >= 1.0 / 23.0 && post.trending >= 1.0 / 23.0 && post.volatile >= 1.0 / 23.0
  {
    hide Times, Over;
    var total := raw.Total();
    OneIn23(raw.ranging, total);
    OneIn23(raw.trending, total);
    OneIn23(raw.volatile, total);
    OverAdd(raw.ranging, raw.trending, total);
    OverAdd(raw.ranging + raw.trending, raw.volatile, total);
    TimesUnit(total);
    OverUnique(total, total, 1.0);
  }

  /** The posterior stays a probability, and smoothing keeps every regime alive: at least 1/23. */
  lemma PosteriorIsProbability(p: Dist, observation: Label, confidence: real)
    requires p.IsProbability() && 0.0 <= confidence <= 1.0
    ensures var post := Posterior(p, observation, confidence);
            && post.IsProbability()
            && post.ranging >= 1.0 / 23.0 && post.trending >= 1.0 / 23.0 && post.volatile >= 1.0 / 23.0
  {
    hide Smooth, Normalise, Prior;
    PriorIsProbability(p);
    SmoothBounds(Prior(p), Likelihood(Ranging, observation, confidence), Likelihood(Trending, observation, confidence),
                 Likelihood(Volatile, observation, confidence));
    NormaliseBounds(Raw(p, observation, confidence), p);
  }

  /** The share of a regime with prior x and likelihood c, when the other two have likelihood l. */
  function Share(x: real, c: real, l: real): real
    requires 0.0 <= x <= 1.0 && 0.0 <= c && 0.0 <= l
  {
    TimesNonNeg(x, c);
    TimesNonNeg(1.0 - x, l);
    Over(Times(x, c) + 0.05, Times(x, c) + Times(1.0 - x, l) + 0.15)
  }

  lemma ShareOfSmooth(x: real, y: real, z: real, c: real, l: real, t: real)
    requires 0.0 <= x && 0.0 <= y && 0.0 <= z && x + y + z == 1.0 && 0.0 <= c && 0.0 <= l
    requires t == Times(x, c) + 0.05 + (Times(y, l) + 0.05) + (Times(z, l) + 0.05)
    ensures t > 0.0 && Over(Times(x, c) + 0.05, t) == Share(x, c, l)
  {
    hide Times, Over;
    TimesAdd(y, z, l);
    assert y + z == 1.0 - x;
    TimesNonNeg(x, c);
    TimesNonNeg(1.0 - x, l);
  }

  lemma SmoothRanging(q: Dist, c: real, l: real, fallback: Dist)
    requires q.IsProbability() && 0.0 <= c && 0.0 <= l
    ensures Normalise(Smooth(q, c, l, l), fallback).ranging == Share(q.ranging, c, l)
  {
    hide Share, Times, Over;
    ShareOfSmooth(q.ranging, q.trending, q.volatile, c, l, Smooth(q, c, l, l).Total());
  }

  lemma SmoothTrending(q: Dist, c: real, l: real, fallback: Dist)
    requires q.IsProbability() && 0.0 <= c && 0.0 <= l
    ensures Normalise(Smooth(q, l, c, l), fallback).trending == Share(q.trending, c, l)
  {
    hide Share, Times, Over;
    ShareOfSmooth(q.trending, q.ranging, q.volatile, c, l, Smooth(q, l, c, l).Total());
  }

  lemma SmoothVolatile(q: Dist, c: real, l: real, fallback: Dist)
    requires q.IsProbability() && 0.0 <= c && 0.0 <= l
    ensures Normalise(Smooth(q, l, l, c), fallback).volatile == Share(q.volatile, c, l)
  {
    hide Share, Times, Over;
    ShareOfSmooth(q.volatile, q.ranging, q.trending, c, l, Smooth(q, l, l, c).Total());
  }

  lemma SmoothShare(q: Dist, r: Label, c: real, l: real, a: real, b: real, v: real, fallback: Dist)
    requires q.IsProbability() && !r.Outside? && 0.0 <= c && 0.0 <= l
    requires a == (if r == Ranging then c else l) && b == (if r == Trending then c else l)
    requires v == (if r == Volatile then c else l)
    ensures Normalise(Smooth(q, a, b, v), fallback).At(r) == Share(q.At(r), c, l)
  {
    hide Share, Smooth, Normalise;
    match r
    case Ranging => SmoothRanging(q, c, l, fallback);
    case Trending => SmoothTrending(q, c, l, fallback);
    case Volatile => SmoothVolatile(q, c, l, fallback);
  }

  /** The posterior of a known regime that was just reported. */
  lemma AgreeingPosterior(p: Dist, r: Label, confidence: real)
    requires p.IsProbability() && !r.Outside? && 0.0 <= confidence <= 1.0
    ensures 0.0 <= Prior(p).At(r) <= 1.0
    ensures Posterior(p, r, confidence).At(r) == Share(Prior(p).At(r), confidence, (1.0 - confidence) / 2.0)
  {
    hide Share, Smooth, Normalise, Prior;
    PriorIsProbability(p);
    SmoothShare(Prior(p), r, confidence, (1.0 - confidence) / 2.0, Likelihood(Ranging, r, confidence),
                Likelihood(Trending, r, confidence), Likelihood(Volatile, r, confidence), p);
  }

  // ---------------------------------------------------------------- runs

  datatype Report = Report(observation: Label, confidence: real)

  function Run(p: Dist, reports: seq<Report>): Dist
    decreases |reports|
  {
    if reports == [] then p
    else Run(Posterior(p, reports[0].observation, reports[0].confidence), reports[1..])
  }

  ghost predicate Confident(reports: seq<Report>, r: Label) {
    forall i :: 0 <= i < |reports| ==> reports[i].observation == r && 0.7 <= reports[i].confidence <= 1.0
  }

  /** The rungs a regime climbs: from probability x at least to k at least with one agreeing report. */
  ghost predicate Rung(x: real, k: real) {
    (x == 0.0 && k == 0.25) || (x == 0.25 && k == 0.47) || (x == 0.47 && k == 0.6) || (x == 0.6 && k == 0.6)
  }

  lemma Constants(b: real)
    ensures Times(0.25, b) == 0.25 * b && Times(0.47, b) == 0.47 * b && Times(0.6, b) == 0.6 * b
    ensures Times(b, 0.7) == 0.7 * b && Times(b, 0.15) == 0.15 * b
  {
  }

  lemma ShareClimbs(q: real, c: real, l: real, x: real, k: real)
    requires 0.05 + 0.65 * x <= q && 0.0 <= q <= 1.0 && 0.7 <= c <= 1.0 && Rung(x, k)
    requires 0.0 <= l <= 0.15
    ensures Share(q, c, l) >= k
  {
    hide Times, Over;
    var a, rest := Times(q, c), Times(1.0 - q, l);
    TimesMono(0.7, c, q);
    TimesMono(l, 0.15, 1.0 - q);
    TimesNonNeg(1.0 - q, l);
    Constants(q);
    Constants(1.0 - q);
    assert a >= 0.7 * q && 0.0 <= rest <= 0.15 * (1.0 - q);
    var b := a + rest + 0.15;
    Constants(b);
    OverAtLeast(a + 0.05, b, k);
  }

  lemma Evidence(p: Dist, r: Label, confidence: real, x: real, k: real)
    requires p.IsProbability() && !r.Outside? && 0.7 <= confidence <= 1.0
    requires p.At(r) >= x && Rung(x, k)
    ensures Posterior(p, r, confidence).At(r) >= k
  {
    hide Posterior, Share, Prior, Rung;
    AgreeingPosterior(p, r, confidence);
    PriorIsProbability(p);
    ShareClimbs(Prior(p).At(r), confidence, (1.0 - confidence) / 2.0, x, k);
  }

  lemma {:induction false} EvidenceIsKept(p: Dist, r: Label, reports: seq<Report>)
    requires p.IsProbability() && !r.Outside? && Confident(reports, r) && p.At(r) >= 0.6
    ensures Run(p, reports).IsProbability() && Run(p, reports).At(r) >= 0.6
    decreases |reports|
  {
    if reports != [] {
      var c := reports[0].confidence;
      assert reports[0].observation == r;
      PosteriorIsProbability(p, r, c);
      Evidence(p, r, c, 0.6, 0.6);
      EvidenceIsKept(Posterior(p, r, c), r, reports[1..]);
    }
  }

  /**
   Bounded response: from any probability at all, three or more consecutive reports of the same
   regime at confidence 0.7 or better leave that regime at 0.60 or better.
   */
  lemma ThreeReportsConvince(p: Dist, r: Label, reports: seq<Report>)
    requires p.IsProbability() && !r.Outside? && Confident(reports, r) && |reports| >= 3
    ensures Run(p, reports).IsProbability() && Run(p, reports).At(r) >= UNCERTAINTY_THRESHOLD
  {
    var c0, c1, c2 := reports[0].confidence, reports[1].confidence, reports[2].confidence;
    var p1 := Posterior(p, r, c0);
    PosteriorIsProbability(p, r, c0);
    Evidence(p, r, c0, 0.0, 0.25);
    var p2 := Posterior(p1, r, c1);
    PosteriorIsProbability(p1, r, c1);
    Evidence(p1, r, c1, 0.25, 0.47);
    var p3 := Posterior(p2, r, c2);
    PosteriorIsProbability(p2, r, c2);
    Evidence(p2, r, c2, 0.47, 0.6);
    var t1 := reports[1..];
    var t2 := t1[1..];
    var t3 := t2[1..];
    assert t1[0] == reports[1] && t2[0] == reports[2];
    assert reports[0].observation == r && t1[0].observation == r && t2[0].observation == r;
    assert Confident(t3, r) by {
      forall i | 0 <= i < |t3|
        ensures t3[i].observation == r && 0.7 <= t3[i].confidence <= 1.0
      {
        assert t3[i] == reports[i + 3];
      }
    }
    EvidenceIsKept(p3, r, t3);
    assert Run(p, reports) == Run(p1, t1) == Run(p2, t2) == Run(p3, t3);
  }

  lemma ShareStaysLow(q: real, k: real)
    requires (0.0 <= q <= 0.05 && k == 0.26) || (0.0 <= q <= 0.256 && k == 0.53)
    ensures Share(q, 0.7, 0.15) <= k
  {
    Constants(q);
    Constants(1.0 - q);
    var b := 0.7 * q + 0.15 * (1.0 - q) + 0.15;
    assert Times(0.26, b) == 0.26 * b && Times(0.53, b) == 0.53 * b;
    hide Times, Over;
    OverAtMost(0.7 * q + 0.05, b, k);
  }

  /** Two reports are not enough: from certainty of Ranging, Volatile is still below the threshold. */
  lemma TwoReportsDoNotConvince()
    ensures var p := Dist(1.0, 0.0, 0.0);
            Posterior(Posterior(p, Volatile, 0.7), Volatile, 0.7).At(Volatile) < UNCERTAINTY_THRESHOLD
  {
    hide Posterior, Share;
    var p := Dist(1.0, 0.0, 0.0);
    var p' := Posterior(p, Volatile, 0.7);
    AgreeingPosterior(p, Volatile, 0.7);
    ShareStaysLow(0.05, 0.26);
    PosteriorIsProbability(p, Volatile, 0.7);
    AgreeingPosterior(p', Volatile, 0.7);
    assert Prior(p').volatile <= 0.1 + 0.6 * p'.volatile;
    ShareStaysLow(Prior(p').volatile, 0.53);
  }

  // ---------------------------------------------------------------- labels outside the model

  function Affine(x: real, l: real): real
    requires l >= 0.0
  {
    Over(Times(x, l) + 0.05, l + 0.15)
  }

  lemma UniformShare(x: real, l: real)
    requires 0.0 <= x <= 1.0 && 0.0 <= l
    ensures Share(x, l, l) == Affine(x, l)
  {
    hide Times, Over;
    TimesAdd(1.0, x, l);
    TimesUnit(l);
  }

  /** After an outside label the posterior of a regime is an affine function of its prior. */
  lemma OutsidePosterior(p: Dist, observation: Label, confidence: real, r: Label, l: real)
    requires p.IsProbability() && observation.Outside? && 0.0 <= confidence <= 1.0 && !r.Outside?
    requires l == (1.0 - confidence) / 2.0
    ensures Posterior(p, observation, confidence).At(r) == Affine(Prior(p).At(r), l)
  {
    hide Share, Smooth, Normalise, Prior;
    PriorIsProbability(p);
    SmoothShare(Prior(p), r, l, l, l, l, l, p);
    UniformShare(Prior(p).At(r), l);
  }

  lemma AffineAtMost(x: real, l: real, k: real)
    requires x <= 0.8 && 0.0 <= l
    ensures 0.8 * l + 0.05 <= Times(k, l + 0.15) ==> Affine(x, l) <= k
    ensures 0.8 * l + 0.05 < Times(k, l + 0.15) ==> Affine(x, l) < k
  {
    assert Times(0.8, l) == 0.8 * l;
    hide Times, Over;
    TimesMono(x, 0.8, l);
    OverAtMost(Times(x, l) + 0.05, l + 0.15, k);
    OverAtLeast(Times(x, l) + 0.05, l + 0.15, k);
  }

  lemma OutsideAtMost(p: Dist, observation: Label, confidence: real, r: Label, k: real)
    requires p.IsProbability() && observation.Outside? && 0.0 <= confidence <= 1.0 && !r.Outside?
    ensures var l := (1.0 - confidence) / 2.0;
            && (0.8 * l + 0.05 <= Times(k, l + 0.15) ==> Posterior(p, observation, confidence).At(r) <= k)
            && (0.8 * l + 0.05 < Times(k, l + 0.15) ==> Posterior(p, observation, confidence).At(r) < k)
  {
    hide Posterior, Affine, Prior, Times;
    var l := (1.0 - confidence) / 2.0;
    OutsidePosterior(p, observation, confidence, r, l);
    PriorIsProbability(p);
    AffineAtMost(Prior(p).At(r), l, k);
  }

  /** At the default confidence of 0.7 an outside label leaves every regime at 17/30 or less. */
  lemma OutsideBoundAtDefault(p: Dist, observation: Label, r: Label)
    requires p.IsProbability() && observation.Outside? && !r.Outside?
    ensures Posterior(p, observation, 0.7).At(r) <= 17.0 / 30.0
  {
    assert Times(17.0 / 30.0, 0.15 + 0.15) == 0.17;
    hide Posterior, Times;
    OutsideAtMost(p, observation, 0.7, r, 17.0 / 30.0);
  }

  ghost predicate OutsideAlwaysUncertain(observation: Label, confidence: real) {
    forall p: Dist, r: Label | p.IsProbability() && !r.Outside? ::
      Posterior(p, observation, confidence).At(r) < UNCERTAINTY_THRESHOLD
  }

  /**
   Exactly when an outside label wipes out all certainty, whatever was believed before: when it is
   reported with confidence above 0.6.
   */
  lemma OutsideAlwaysUncertainIff(observation: Label, confidence: real)
    requires observation.Outside? && 0.0 <= confidence <= 1.0
    ensures OutsideAlwaysUncertain(observation, confidence) <==> confidence > 0.6
  {
    var l := (1.0 - confidence) / 2.0;
    assert Times(0.6, l + 0.15) == 0.6 * l + 0.09;
    if confidence > 0.6 {
      hide Posterior, Times;
      forall p: Dist, r: Label | p.IsProbability() && !r.Outside?
        ensures Posterior(p, observation, confidence).At(r) < UNCERTAINTY_THRESHOLD
      {
        OutsideAtMost(p, observation, confidence, r, 0.6);
      }
    } else {
      var p := Dist(1.0, 0.0, 0.0);
      assert Times(0.8, l) == 0.8 * l;
      hide Posterior, Times, Over;
      OutsidePosterior(p, observation, confidence, Ranging, l);
      OverAtLeast(0.8 * l + 0.05, l + 0.15, 0.6);
      assert Posterior(p, observation, confidence).At(Ranging) >= UNCERTAINTY_THRESHOLD;
    }
  }

  // ---------------------------------------------------------------- forgetting the start

  function Distance(p: Dist, q: Dist): real {
    Abs(p.ranging - q.ranging) + Abs(p.trending - q.trending) + Abs(p.volatile - q.volatile)
  }

  /** The transition matrix alone contracts differences of probabilities by 0.7. */
  lemma PriorContracts(p: Dist, q: Dist)
    requires p.IsProbability() && q.IsProbability()
    ensures Distance(Prior(p), Prior(q)) <= 0.7 * Distance(p, q)
  {
  }

  lemma TenThirteenths(l: real, d: real)
    requires 0.0 <= l <= 0.5 && d >= 0.0
    ensures 0.0 <= Over(l, l + 0.15)
    ensures Times(d, Over(l, l + 0.15)) <= 10.0 / 13.0 * d
  {
    OverAtLeast(l, l + 0.15, 0.0);
    OverAtMost(l, l + 0.15, 10.0 / 13.0);
    TimesMono(Over(l, l + 0.15), 10.0 / 13.0, d);
  }

  lemma AffineDifference(x: real, y: real, l: real)
    requires 0.0 <= l
    ensures Affine(x, l) - Affine(y, l) == Times(x - y, Over(l, l + 0.15))
  {
    hide Times, Over;
    var b := l + 0.15;
    OverAdd(Times(x, l) + 0.05, Times(y, l) + 0.05, b);
    TimesAdd(x, y, l);
    OverTimes(l, b);
    TimesAssoc(x - y, Over(l, b), b);
    OverUnique(Times(x - y, l), b, Times(x - y, Over(l, b)));
    assert Times(x, l) + 0.05 - (Times(y, l) + 0.05) == Times(x - y, l);
  }

  lemma ScaledDifference(x: real, y: real, l: real)
    requires 0.0 <= l <= 0.5
    ensures Abs(Affine(x, l) - Affine(y, l)) <= 10.0 / 13.0 * Abs(x - y)
  {
    hide Times, Over, Affine;
    AffineDifference(x, y, l);
    TenThirteenths(l, Abs(x - y));
    AbsTimes(x - y, Over(l, l + 0.15));
  }

  lemma OutsideContractsAt(p: Dist, q: Dist, observation: Label, confidence: real, r: Label)
    requires p.IsProbability() && q.IsProbability()
    requires observation.Outside? && 0.0 <= confidence <= 1.0 && !r.Outside?
    ensures Abs(Posterior(p, observation, confidence).At(r) - Posterior(q, observation, confidence).At(r))
            <= 10.0 / 13.0 * Abs(Prior(p).At(r) - Prior(q).At(r))
  {
    hide Posterior, Affine, Prior, Times;
    var l := (1.0 - confidence) / 2.0;
    OutsidePosterior(p, observation, confidence, r, l);
    OutsidePosterior(q, observation, confidence, r, l);
    ScaledDifference(Prior(p).At(r), Prior(q).At(r), l);
  }

  lemma {:induction false} OutsideContracts(p: Dist, q: Dist, report: Report)
    requires p.IsProbability() && q.IsProbability()
    requires report.observation.Outside? && 0.0 <= report.confidence <= 1.0
    ensures Distance(Posterior(p, report.observation, report.confidence),
                     Posterior(q, report.observation, report.confidence)) <= 7.0 / 13.0 * Distance(p, q)
  {
    hide Posterior, Prior, Affine, Times, Over, Abs;
    var a, b := Prior(p), Prior(q);
    var o, c, l := report.observation, report.confidence, (1.0 - report.confidence) / 2.0;
    var p', q' := Posterior(p, o, c), Posterior(q, o, c);
    assert Abs(p'.At(Ranging) - q'.At(Ranging)) <= 10.0 / 13.0 * Abs(a.At(Ranging) - b.At(Ranging)) by {
      OutsideContractsAt(p, q, o, c, Ranging);
    }
    assert Abs(p'.At(Trending) - q'.At(Trending)) <= 10.0 / 13.0 * Abs(a.At(Trending) - b.At(Trending)) by {
      OutsideContractsAt(p, q, o, c, Trending);
    }
    assert Abs(p'.At(Volatile) - q'.At(Volatile)) <= 10.0 / 13.0 * Abs(a.At(Volatile) - b.At(Volatile)) by {
      OutsideContractsAt(p, q, o, c, Volatile);
    }
    PriorContracts(p, q);
  }

  /**
   The filter forgets its start: two trackers fed the same outside reports approach each other
   geometrically, however far apart they began.
   */
  lemma {:induction false} FilterForgets(p: Dist, q: Dist, reports: seq<Report>)
    requires p.IsProbability() && q.IsProbability()
    requires forall i :: 0 <= i < |reports| ==> reports[i].observation.Outside? && 0.0 <= reports[i].confidence <= 1.0
    ensures Distance(Run(p, reports), Run(q, reports)) <= Times(Distance(p, q), Power(7.0 / 13.0, |reports|))
    decreases |reports|
  {
    hide Posterior, Distance, Times;
    if reports == [] {
      TimesUnit(Distance(p, q));
    } else {
      var e := reports[0];
      var p', q' := Posterior(p, e.observation, e.confidence), Posterior(q, e.observation, e.confidence);
      PosteriorIsProbability(p, e.observation, e.confidence);
      PosteriorIsProbability(q, e.observation, e.confidence);
      OutsideContracts(p, q, e);
      FilterForgets(p', q', reports[1..]);
      PowerNonNeg(7.0 / 13.0, |reports| - 1);
      ChainDecay(Distance(p', q'), Distance(p, q), |reports|);
    }
  }

  lemma ChainDecay(d': real, d: real, n: nat)
    requires n > 0 && d' <= 7.0 / 13.0 * d && Power(7.0 / 13.0, n - 1) >= 0.0
    ensures Times(d', Power(7.0 / 13.0, n - 1)) <= Times(d, Power(7.0 / 13.0, n))
  {
    var k := Power(7.0 / 13.0, n - 1);
    assert 7.0 / 13.0 * d == Times(d, 7.0 / 13.0);
    hide Times;
    TimesMono(d', Times(d, 7.0 / 13.0), k);
    TimesAssoc(d, 7.0 / 13.0, k);
  }

  /** So n outside reports leave any two starting points within twice (7/13) to the n of each other. */
  lemma {:induction false} FilterForgetsAnyStart(p: Dist, q: Dist, reports: seq<Report>)
    requires p.IsProbability() && q.IsProbability()
    requires forall i :: 0 <= i < |reports| ==> reports[i].observation.Outside? && 0.0 <= reports[i].confidence <= 1.0
    ensures Distance(Run(p, reports), Run(q, reports)) <= 2.0 * Power(7.0 / 13.0, |reports|)
  {
    var k := Power(7.0 / 13.0, |reports|);
    DistanceAtMostTwo(p, q);
    assert Times(2.0, k) == 2.0 * k;
    hide Distance, Power, Times;
    FilterForgets(p, q, reports);
    PowerNonNeg(7.0 / 13.0, |reports|);
    TimesMono(Distance(p, q), 2.0, k);
  }

  lemma DistanceAtMostTwo(p: Dist, q: Dist)
    requires p.IsProbability() && q.IsProbability()
    ensures 0.0 <= Distance(p, q) <= 2.0
  {
  }

  // ---------------------------------------------------------------- gate 5

  datatype Verdict = Pass | LockViolation | DeterministicOverride | UncertaintyVeto

  /** The regime with the highest posterior; on a tie the earlier one in dictionary order. */
  function HighestProbRegime(p: Dist): (Label, real) {
    if p.ranging >= p.trending && p.ranging >= p.volatile then (Ranging, p.ranging)
    else if p.trending >= p.volatile then (Trending, p.trending)
    else (Volatile, p.volatile)
  }

  function Gate5(allowed: seq<Label>, current: Label, p: Dist): Verdict {
    var (best, prob) := HighestProbRegime(p);
    if allowed == [] then Pass
    else if current !in allowed && best !in allowed then LockViolation
    else if current !in allowed && best in allowed then DeterministicOverride
    else if prob < UNCERTAINTY_THRESHOLD then UncertaintyVeto
    else Pass
  }

  /** The best regime is the earliest, in the order of the dictionary, whose posterior no other exceeds. */
  lemma HighestIsFirstMaximum(p: Dist)
    ensures var (best, prob) := HighestProbRegime(p);
            && prob == p.At(best)
            && (best == Ranging <==> p.ranging >= p.trending && p.ranging >= p.volatile)
            && (best == Trending <==> p.trending > p.ranging && p.trending >= p.volatile)
            && (best == Volatile <==> p.volatile > p.ranging && p.volatile > p.trending)
  {
  }

  /** Each outcome of gate 5, for a strategy whose lock allows the given regimes. */
  lemma GateDecides(allowed: seq<Label>, current: Label, p: Dist)
    ensures var (best, prob), verdict := HighestProbRegime(p), Gate5(allowed, current, p);
            && (verdict == LockViolation <==> allowed != [] && current !in allowed && best !in allowed)
            && (verdict == DeterministicOverride <==> current !in allowed && best in allowed)
            && (verdict == UncertaintyVeto <==> current in allowed && prob < 0.60)
            && (verdict == Pass <==> allowed == [] || (current in allowed && prob >= 0.60))
  {
  }

  /**
   The router feeds the tracker the very label gate 5 then checks. A strategy whose lock allows a
   regime the tracker does not model is therefore vetoed in that regime by every sufficiently
   confident report, whatever the history.
   */
  lemma AllowedOutsideRegimeIsAlwaysVetoed(p: Dist, allowed: seq<Label>, current: Label, confidence: real)
    requires p.IsProbability() && current.Outside? && current in allowed && 0.6 < confidence <= 1.0
    ensures Gate5(allowed, current, Posterior(p, current, confidence)) == UncertaintyVeto
  {
    OutsideAlwaysUncertainIff(current, confidence);
    var post := Posterior(p, current, confidence);
    var (best, prob) := HighestProbRegime(post);
    assert prob == post.At(best) && !best.Outside?;
  }

  /** Three confident reports of an allowed regime that the tracker models get through gate 5. */
  lemma AllowedRegimePassesAfterThree(p: Dist, allowed: seq<Label>, r: Label, reports: seq<Report>)
    requires p.IsProbability() && !r.Outside? && r in allowed && Confident(reports, r) && |reports| >= 3
    ensures Gate5(allowed, r, Run(p, reports)) == Pass
    ensures HighestProbRegime(Run(p, reports)).0 == r
  {
    ThreeReportsConvince(p, r, reports);
  }
}
