/**
 The three request limiters: the API bucket of daemons/order_reconciler.py, the limiter of
 daemons/unified_bridge.py, which both refill before they look, and the limiter of
 daemons/shoonya_gateway.py, which looks first and refills only after it has slept. Every stretch of
 code between two awaits is one event, so any interleaving of callers is a sequence of events.
 */
module TokenBuckets {
  import opened Reals

  datatype Limits = Limits(cap: real, rate: real) {
    ghost predicate Valid() {
      cap >= 0.0 && rate >= 0.0
    }
  }

  datatype Bucket = Bucket(tokens: real, lastRefill: real)

  /** What one await-free section does at time `at`. */
  datatype Event =
    | Peek(at: real)               // refill only
    | Attempt(at: real, n: real)   // refill, then take n if there are n
    | Enter(at: real)              // take one if there is one, with no refill

  function Refill(l: Limits, b: Bucket, now: real): Bucket {
    var filled := b.tokens + Times(now - b.lastRefill, l.rate);
    Bucket(if filled < l.cap then filled else l.cap, now)
  }

  /** The bucket after an event, and how many tokens the event took. */
  function Step(l: Limits, b: Bucket, e: Event): (Bucket, real) {
    match e
    case Peek(at) => (Refill(l, b, at), 0.0)
    case Attempt(at, n) =>
      var filled := Refill(l, b, at);
      if filled.tokens >= n then (filled.(tokens := filled.tokens - n), n) else (filled, 0.0)
    case Enter(_) =>
      if b.tokens < 1.0 then (b, 0.0) else (b.(tokens := b.tokens - 1.0), 1.0)
  }

  function Run(l: Limits, b: Bucket, events: seq<Event>): Bucket
    decreases |events|
  {
    if events == [] then b else Run(l, Step(l, b, events[0]).0, events[1..])
  }

  /** The tokens taken by the events of a run that fall in the closed interval from `s` to `t`. */
  function TakenIn(l: Limits, b: Bucket, events: seq<Event>, s: real, t: real): real
    decreases |events|
  {
    if events == [] then 0.0
    else
      var (next, taken) := Step(l, b, events[0]);
      (if s <= events[0].at <= t then taken else 0.0) + TakenIn(l, next, events[1..], s, t)
  }

  /** Nobody asks for a negative number of tokens. */
  ghost predicate Requests(events: seq<Event>) {
    forall i :: 0 <= i < |events| && events[i].Attempt? ==> events[i].n >= 0.0
  }

  /** Times never step back. */
  ghost predicate Timely(b: Bucket, events: seq<Event>) {
    && (forall i :: 0 <= i < |events| ==> b.lastRefill <= events[i].at)
    && (forall i, j :: 0 <= i < j < |events| ==> events[i].at <= events[j].at)
    && Requests(events)
  }

  /** No time is more than `d` below `peak` or an earlier one. */
  ghost predicate SetBack(peak: real, events: seq<Event>, d: real) {
    && (forall i :: 0 <= i < |events| ==> events[i].at >= peak - d)
    && (forall i, j :: 0 <= i < j < |events| ==> events[j].at >= events[i].at - d)
  }

  ghost predicate Eager(events: seq<Event>) {
    forall i :: 0 <= i < |events| ==> !events[i].Enter?
  }

  ghost predicate Level(l: Limits, b: Bucket) {
    0.0 <= b.tokens <= l.cap
  }

  // ---------------------------------------------------------------- what every step keeps

  lemma StepKeepsLevel(l: Limits, b: Bucket, e: Event)
    requires l.Valid() && Level(l, b) && b.lastRefill <= e.at
    requires e.Attempt? ==> e.n >= 0.0
    ensures Level(l, Step(l, b, e).0) && Step(l, b, e).1 >= 0.0
    ensures b.lastRefill <= Step(l, b, e).0.lastRefill <= e.at
  {
    hide Times;
    TimesNonNeg(e.at - b.lastRefill, l.rate);
  }

  /**
   What could still be granted by time `t` if nothing capped the bucket. A step lowers it by at least
   what the step takes.
   */
  function Supply(l: Limits, b: Bucket, t: real): real {
    b.tokens + Times(t - b.lastRefill, l.rate)
  }

  lemma StepSpendsSupply(l: Limits, b: Bucket, e: Event, t: real)
    ensures Step(l, b, e).1 + Supply(l, Step(l, b, e).0, t) <= Supply(l, b, t)
  {
    hide Times;
    TimesAdd(t - e.at, e.at - b.lastRefill, l.rate);
    assert t - e.at + (e.at - b.lastRefill) == t - b.lastRefill;
  }

  lemma TimelyTail(l: Limits, b: Bucket, events: seq<Event>)
    requires l.Valid() && Level(l, b) && Timely(b, events) && events != []
    ensures Level(l, Step(l, b, events[0]).0) && Timely(Step(l, b, events[0]).0, events[1..])
  {
    StepKeepsLevel(l, b, events[0]);
  }

  /** The tokens never go negative and never exceed the capacity, over any run. */
  lemma {:induction false} RunKeepsLevel(l: Limits, b: Bucket, events: seq<Event>)
    requires l.Valid() && Level(l, b) && Timely(b, events)
    ensures Level(l, Run(l, b, events))
    decreases |events|
  {
    if events != [] {
      TimelyTail(l, b, events);
      RunKeepsLevel(l, Step(l, b, events[0]).0, events[1..]);
    }
  }

  /**
   The same on a clock set back by at most `d`: a refill at an earlier reading takes tokens away, so the
   level can fall below zero, by at most what `d` refills. No clock takes it above the capacity.
   */
  lemma {:induction false} RunKeepsFloor(l: Limits, b: Bucket, peak: real, events: seq<Event>, d: real)
    requires l.Valid() && d >= 0.0 && Requests(events) && SetBack(peak, events, d)
    requires b.tokens <= l.cap && peak - d <= b.lastRefill <= peak
    requires b.tokens + Times(peak - b.lastRefill, l.rate) >= 0.0
    ensures -Times(d, l.rate) <= Run(l, b, events).tokens <= l.cap
    decreases |events|
  {
    hide Times;
    if events == [] {
      TimesMono(peak - b.lastRefill, d, l.rate);
    } else {
      var e := events[0];
      var next := Step(l, b, e).0;
      var peak' := if e.at > peak && !e.Enter? then e.at else peak;
      TimesNonNeg(peak' - next.lastRefill, l.rate);
      TimesAdd(peak' - e.at, e.at - b.lastRefill, l.rate);
      assert peak' - e.at + (e.at - b.lastRefill) == peak' - b.lastRefill;
      TimesMono(peak - b.lastRefill, peak' - b.lastRefill, l.rate);
      RunKeepsFloor(l, next, peak', events[1..], d);
    }
  }

  /** That floor is reached: drain the bucket, then look at it with the clock set back by `d`. */
  lemma FloorIsReached(l: Limits, t0: real, d: real)
    requires l.Valid() && d >= 0.0
    ensures var b, events := Bucket(l.cap, t0), [Attempt(t0, l.cap), Peek(t0 - d)];
            && Requests(events) && SetBack(t0, events, d)
            && Run(l, b, events).tokens == -Times(d, l.rate)
  {
    var b, events := Bucket(l.cap, t0), [Attempt(t0, l.cap), Peek(t0 - d)];
    TimesUnit(l.rate);
    TimesNonNeg(d, l.rate);
    TimesAdd(0.0, d, l.rate);
    assert Times(t0 - d - t0, l.rate) == -Times(d, l.rate);
    hide Times;
    assert events[1..] == [Peek(t0 - d)] && events[1..][1..] == [];
    assert Step(l, b, events[0]).0 == Bucket(0.0, t0);
    assert Run(l, Bucket(0.0, t0), [Peek(t0 - d)]) == Run(l, Refill(l, Bucket(0.0, t0), t0 - d), []);
  }

  /** Tokens never go negative on any run from creation whose clock is set back by at most `d`. */
  ghost predicate NeverNegative(l: Limits, d: real) {
    forall t0: real, events: seq<Event> ::
      Requests(events) && SetBack(t0, events, d) ==> Run(l, Bucket(l.cap, t0), events).tokens >= 0.0
  }

  /** Exactly when they never do: when setting the clock back by `d` is worth no tokens at all. */
  lemma NeverNegativeIff(l: Limits, d: real)
    requires l.Valid() && d >= 0.0
    ensures NeverNegative(l, d) <==> Times(d, l.rate) == 0.0
    ensures NeverNegative(l, d) <==> d == 0.0 || l.rate == 0.0
  {
    if Times(d, l.rate) == 0.0 {
      TimesUnit(l.rate);
      forall t0: real, events: seq<Event> | Requests(events) && SetBack(t0, events, d)
        ensures Run(l, Bucket(l.cap, t0), events).tokens >= 0.0
      {
        RunKeepsFloor(l, Bucket(l.cap, t0), t0, events, d);
      }
    } else {
      TimesNonNeg(d, l.rate);
      FloorIsReached(l, 0.0, d);
      var events := [Attempt(0.0, l.cap), Peek(0.0 - d)];
      assert Run(l, Bucket(l.cap, 0.0), events).tokens < 0.0;
    }
    NoProduct(d, l.rate);
  }

  lemma NoProduct(x: real, y: real)
    ensures Times(x, y) == 0.0 <==> x == 0.0 || y == 0.0
  {
  }

  /** The API bucket reads the wall clock: at its rate, three seconds back leave it ten tokens in debt. */
  lemma SetBackPutsBucketInDebt()
    ensures var l := Limits(180.0, 200.0 / 60.0);
            Run(l, Bucket(180.0, 0.0), [Attempt(0.0, 180.0), Peek(-3.0)]).tokens == -10.0
  {
    FloorIsReached(Limits(180.0, 200.0 / 60.0), 0.0, 3.0);
  }

  lemma {:induction false} NothingLater(l: Limits, b: Bucket, events: seq<Event>, s: real, t: real)
    requires forall i :: 0 <= i < |events| ==> t < events[i].at
    ensures TakenIn(l, b, events, s, t) == 0.0
    decreases |events|
  {
    if events != [] {
      NothingLater(l, Step(l, b, events[0]).0, events[1..], s, t);
    }
  }

  /** Whatever is taken up to `t` comes out of the supply for `t`. */
  lemma {:induction false} TakenWithinSupply(l: Limits, b: Bucket, events: seq<Event>, s: real, t: real)
    requires l.Valid() && Level(l, b) && Timely(b, events) && b.lastRefill <= t
    ensures TakenIn(l, b, events, s, t) <= Supply(l, b, t)
    decreases |events|
  {
    hide Times;
    TimesNonNeg(t - b.lastRefill, l.rate);
    if events != [] {
      if events[0].at <= t {
        TimelyTail(l, b, events);
        StepSpendsSupply(l, b, events[0], t);
        TakenWithinSupply(l, Step(l, b, events[0]).0, events[1..], s, t);
      } else {
        NothingLater(l, b, events, s, t);
      }
    }
  }

  // ---------------------------------------------------------------- the bounds

  /** Right after a refill inside the window, the capacity bounds everything still to come. */
  lemma FromRefill(l: Limits, b: Bucket, events: seq<Event>, s: real, t: real)
    requires l.Valid() && Level(l, b) && Timely(b, events)
    requires events != [] && !events[0].Enter? && s <= events[0].at <= t
    ensures TakenIn(l, b, events, s, t) <= l.cap + Times(t - events[0].at, l.rate) <= l.cap + Times(t - s, l.rate)
  {
    hide Times;
    var (next, taken) := Step(l, b, events[0]);
    TimelyTail(l, b, events);
    TakenWithinSupply(l, next, events[1..], s, t);
    assert taken + next.tokens <= l.cap;
    TimesMono(t - events[0].at, t - s, l.rate);
  }

  /** On any clock, what a refilling limiter takes up to `t` is nothing, or comes out of the supply for `t`. */
  lemma {:induction false} TakenOnAnyClock(l: Limits, b: Bucket, events: seq<Event>, s: real, t: real)
    requires l.Valid() && Eager(events) && Requests(events)
    ensures TakenIn(l, b, events, s, t) <= 0.0 || TakenIn(l, b, events, s, t) <= Supply(l, b, t)
    decreases |events|
  {
    hide Times;
    if events != [] {
      var e := events[0];
      StepSpendsSupply(l, b, e, t);
      TakenOnAnyClock(l, Step(l, b, e).0, events[1..], s, t);
      if e.at <= t {
        TimesNonNeg(t - e.at, l.rate);
      }
    }
  }

  /**
   The limiters that refill first: over every window of every run, at most the capacity plus what the
   window itself refills, whatever the bucket held before and whatever way the clock jumps.
   */
  lemma {:induction false} EagerWindow(l: Limits, b: Bucket, events: seq<Event>, s: real, t: real)
    requires l.Valid() && Eager(events) && Requests(events) && s <= t
    ensures TakenIn(l, b, events, s, t) <= l.cap + Times(t - s, l.rate)
    decreases |events|
  {
    hide Times;
    TimesNonNeg(t - s, l.rate);
    if events != [] {
      var e := events[0];
      var next := Step(l, b, e).0;
      if s <= e.at <= t {
        TakenOnAnyClock(l, next, events[1..], s, t);
        TimesMono(t - e.at, t - s, l.rate);
        TimesNonNeg(t - e.at, l.rate);
      } else {
        EagerWindow(l, next, events[1..], s, t);
      }
    }
  }

  /**
   A full bucket made at `t0` grants at most `cap + rate * (t - t0)` by `t`: refilled either way on a clock
   that does not step back, and on any clock by the limiters that refill first.
   */
  lemma SinceCreation(l: Limits, t0: real, events: seq<Event>, s: real, t: real)
    requires l.Valid() && t0 <= t
    requires Timely(Bucket(l.cap, t0), events) || (Eager(events) && Requests(events))
    ensures TakenIn(l, Bucket(l.cap, t0), events, s, t) <= l.cap + Times(t - t0, l.rate)
  {
    if Timely(Bucket(l.cap, t0), events) {
      TakenWithinSupply(l, Bucket(l.cap, t0), events, s, t);
    } else {
      TakenOnAnyClock(l, Bucket(l.cap, t0), events, s, t);
      TimesNonNeg(t - t0, l.rate);
    }
  }

  /** Until the first refill in the window, only the tokens already there can be taken. */
  lemma {:induction false} BeforeRefill(l: Limits, b: Bucket, events: seq<Event>, s: real, t: real)
    requires l.Valid() && Level(l, b) && Timely(b, events) && s <= t
    requires forall i :: 0 <= i < |events| ==> s <= events[i].at
    ensures TakenIn(l, b, events, s, t) <= b.tokens + l.cap + Times(t - s, l.rate)
    decreases |events|
  {
    hide Times;
    TimesNonNeg(t - s, l.rate);
    if events != [] {
      if events[0].at > t {
        NothingLater(l, b, events, s, t);
      } else if events[0].Enter? {
        TimelyTail(l, b, events);
        BeforeRefill(l, Step(l, b, events[0]).0, events[1..], s, t);
      } else {
        FromRefill(l, b, events, s, t);
      }
    }
  }

  /** The limiter that looks before it refills: up to twice the capacity, and no more. */
  lemma {:induction false} LazyWindow(l: Limits, b: Bucket, events: seq<Event>, s: real, t: real)
    requires l.Valid() && Level(l, b) && Timely(b, events) && s <= t
    ensures TakenIn(l, b, events, s, t) <= 2.0 * l.cap + Times(t - s, l.rate)
    decreases |events|
  {
    if events != [] && events[0].at < s {
      TimelyTail(l, b, events);
      LazyWindow(l, Step(l, b, events[0]).0, events[1..], s, t);
    } else {
      BeforeRefill(l, b, events, s, t);
    }
  }

  function Repeat<T>(x: T, n: nat): seq<T> {
    seq(n, _ => x)
  }

  /** A burst of entries drains the bucket one by one. */
  lemma {:induction false} EntryBurst(l: Limits, b: Bucket, at: real, n: nat, rest: seq<Event>, s: real, t: real)
    requires b.tokens >= n as real && s <= at <= t
    ensures TakenIn(l, b, Repeat(Enter(at), n) + rest, s, t)
         == n as real + TakenIn(l, b.(tokens := b.tokens - n as real), rest, s, t)
    decreases n
  {
    var events := Repeat(Enter(at), n) + rest;
    if n == 0 {
      assert events == rest;
    } else {
      assert events[1..] == Repeat(Enter(at), n - 1) + rest;
      EntryBurst(l, b.(tokens := b.tokens - 1.0), at, n - 1, rest, s, t);
    }
  }

  lemma {:induction false} AttemptBurst(l: Limits, b: Bucket, at: real, n: nat, s: real, t: real)
    requires b.lastRefill == at && l.cap >= b.tokens >= n as real && s <= at <= t
    ensures TakenIn(l, b, Repeat(Attempt(at, 1.0), n), s, t) == n as real
    decreases n
  {
    var events := Repeat(Attempt(at, 1.0), n);
    if n > 0 {
      assert Times(at - b.lastRefill, l.rate) == 0.0;
      assert events[1..] == Repeat(Attempt(at, 1.0), n - 1);
      AttemptBurst(l, b.(tokens := b.tokens - 1.0), at, n - 1, s, t);
    }
  }

  /**
   Twice the whole tokens of the capacity are reached: after an idle spell long enough to refill the
   bucket, `n` entries and, a moment `d` later, `n` retries all succeed.
   */
  lemma LazyWindowIsTight(l: Limits, t0: real, s: real, d: real, n: nat)
    requires l.Valid() && t0 <= s && d >= 0.0
    requires 0.0 < n as real <= l.cap && Times(s + d - t0, l.rate) >= n as real
    ensures var events := Repeat(Enter(s), n) + Repeat(Attempt(s + d, 1.0), n);
            && Timely(Bucket(l.cap, t0), events) && OfGateway(events)
            && TakenIn(l, Bucket(l.cap, t0), events, s, s + d) == 2.0 * n as real
  {
    hide Times;
    var retries := Repeat(Attempt(s + d, 1.0), n);
    EntryBurst(l, Bucket(l.cap, t0), s, n, retries, s, s + d);
    var drained := Bucket(l.cap - n as real, t0);
    assert Refill(l, drained, s + d) == Bucket(l.cap, s + d);
    assert retries[1..] == Repeat(Attempt(s + d, 1.0), n - 1);
    AttemptBurst(l, Bucket(l.cap - 1.0, s + d), s + d, n - 1, s, s + d);
  }

  /** So the eager bound is false of the gateway's limiter at its default of one request a second. */
  lemma LazyLimiterOverruns()
    ensures var l := Limits(1.0, 1.0);
            var events := [Enter(10.0), Attempt(10.1, 1.0)];
            TakenIn(l, Bucket(1.0, 0.0), events, 10.0, 10.1) > l.cap + Times(10.1 - 10.0, l.rate)
  {
    LazyWindowIsTight(Limits(1.0, 1.0), 0.0, 10.0, 0.1, 1);
    assert Repeat(Enter(10.0), 1) + Repeat(Attempt(10.1, 1.0), 1) == [Enter(10.0), Attempt(10.1, 1.0)];
  }

  // ---------------------------------------------------------------- when the eager bound holds

  /** The events of the gateway's limiter: look first, and one token at a time. */
  ghost predicate OfGateway(events: seq<Event>) {
    forall i :: 0 <= i < |events| ==> events[i].Enter? || (events[i].Attempt? && events[i].n == 1.0)
  }

  ghost predicate EagerBound(l: Limits, b: Bucket, events: seq<Event>, s: real, t: real) {
    TakenIn(l, b, events, s, t) <= l.cap + Times(t - s, l.rate)
  }

  /** The eager bound over every window of every run, of whatever events, from every bucket. */
  ghost predicate AlwaysEager(l: Limits) {
    forall b: Bucket, events: seq<Event>, s: real, t: real ::
      Level(l, b) && Timely(b, events) && s <= t ==> EagerBound(l, b, events, s, t)
  }

  /** The same for the runs of the gateway's limiter from its creation. */
  ghost predicate GatewayEager(l: Limits) {
    forall t0: real, events: seq<Event>, s: real, t: real ::
      OfGateway(events) && Timely(Bucket(l.cap, t0), events) && s <= t ==>
        EagerBound(l, Bucket(l.cap, t0), events, s, t)
  }

  /** A bucket that never holds a whole token gives nothing on entry. */
  lemma {:induction false} SmallBucketIsEager(l: Limits, b: Bucket, events: seq<Event>, s: real, t: real)
    requires l.Valid() && l.cap < 1.0 && Level(l, b) && Timely(b, events) && s <= t
    ensures EagerBound(l, b, events, s, t)
    decreases |events|
  {
    hide Times;
    TimesNonNeg(t - s, l.rate);
    if events != [] {
      if events[0].at > t {
        NothingLater(l, b, events, s, t);
      } else if events[0].at >= s && !events[0].Enter? {
        FromRefill(l, b, events, s, t);
      } else {
        TimelyTail(l, b, events);
        SmallBucketIsEager(l, Step(l, b, events[0]).0, events[1..], s, t);
      }
    }
  }

  /** A bucket that is never refilled gives at most what it holds. */
  lemma UnfilledBucketIsEager(l: Limits, b: Bucket, events: seq<Event>, s: real, t: real)
    requires l.Valid() && l.rate == 0.0 && Level(l, b) && Timely(b, events) && s <= t
    ensures EagerBound(l, b, events, s, t)
  {
    hide Times;
    TimesUnit(t - s);
    TimesUnit(t - b.lastRefill);
    if b.lastRefill <= t {
      TakenWithinSupply(l, b, events, s, t);
    } else {
      NothingLater(l, b, events, s, t);
    }
  }

  /** Otherwise an idle spell, then entries and retries for every whole token, take too much at once. */
  lemma GatewayOverruns(l: Limits)
    requires l.Valid() && l.cap >= 1.0 && l.rate > 0.0
    ensures !GatewayEager(l)
  {
    var n: nat := l.cap.Floor;
    var s := Over(n as real, l.rate);
    OverTimes(n as real, l.rate);
    OverAtLeast(n as real, l.rate, 0.0);
    hide Times, Over;
    TimesUnit(l.rate);
    LazyWindowIsTight(l, 0.0, s, 0.0, n);
    var events := Repeat(Enter(s), n) + Repeat(Attempt(s + 0.0, 1.0), n);
    assert !EagerBound(l, Bucket(l.cap, 0.0), events, s, s);
  }

  /**
   Exactly when a limiter that looks before it refills keeps the eager bound: when its capacity is below
   one token, so that entries take nothing, or it is never refilled.
   */
  lemma EagerBoundIff(l: Limits)
    requires l.Valid()
    ensures AlwaysEager(l) <==> l.cap < 1.0 || l.rate == 0.0
    ensures GatewayEager(l) <==> l.cap < 1.0 || l.rate == 0.0
  {
    hide Times, TakenIn;
    if l.cap < 1.0 || l.rate == 0.0 {
      forall b: Bucket, events: seq<Event>, s: real, t: real | Level(l, b) && Timely(b, events) && s <= t
        ensures EagerBound(l, b, events, s, t)
      {
        if l.cap < 1.0 {
          SmallBucketIsEager(l, b, events, s, t);
        } else {
          UnfilledBucketIsEager(l, b, events, s, t);
        }
      }
    } else {
      GatewayOverruns(l);
    }
  }

  // ---------------------------------------------------------------- one caller waiting

  /** Where a caller's attempts leave the bucket, how many there were, and whether the last one succeeded. */
  datatype Outcome = Outcome(bucket: Bucket, tries: nat, ok: bool)

  /** Attempts at successive readings of the clock until one succeeds or the readings end. */
  function Wait(l: Limits, b: Bucket, clock: seq<real>, n: real): Outcome
    decreases |clock|
  {
    if clock == [] then Outcome(b, 0, false)
    else
      var filled := Refill(l, b, clock[0]);
      if filled.tokens >= n then Outcome(filled.(tokens := filled.tokens - n), 1, true)
      else
        var later := Wait(l, filled, clock[1..], n);
        Outcome(later.bucket, 1 + later.tries, later.ok)
  }

  function Attempts(clock: seq<real>, n: real): seq<Event> {
    seq(|clock|, i requires 0 <= i < |clock| => Attempt(clock[i], n))
  }

  ghost predicate Readings(b: Bucket, clock: seq<real>) {
    && (forall i :: 0 <= i < |clock| ==> b.lastRefill <= clock[i])
    && (forall i, j :: 0 <= i < j < |clock| ==> clock[i] <= clock[j])
  }

  /** A caller's wait is a run of attempts, so the bounds above cover it; it takes `n` once or nothing. */
  lemma {:induction false} WaitIsARun(l: Limits, b: Bucket, clock: seq<real>, n: real, s: real, t: real)
    requires forall i :: 0 <= i < |clock| ==> s <= clock[i] <= t
    ensures var w := Wait(l, b, clock, n);
            && w.tries <= |clock|
            && w.bucket == Run(l, b, Attempts(clock[..w.tries], n))
            && TakenIn(l, b, Attempts(clock[..w.tries], n), s, t) == if w.ok then n else 0.0
    decreases |clock|
  {
    var w := Wait(l, b, clock, n);
    if clock != [] {
      var e := Attempt(clock[0], n);
      var (next, taken) := Step(l, b, e);
      if taken != n || next == Refill(l, b, clock[0]) {
        WaitIsARun(l, next, clock[1..], n, s, t);
      }
      var events := Attempts(clock[..w.tries], n);
      assert w.tries > 0 && events[0] == e;
      assert clock[..w.tries][1..] == clock[1..][..w.tries - 1];
      assert events[1..] == Attempts(clock[1..][..w.tries - 1], n);
    }
  }

  /** Some reading of the clock finds a supply of `n`. */
  ghost predicate SuppliedAt(l: Limits, b: Bucket, clock: seq<real>, n: real) {
    exists i :: 0 <= i < |clock| && n <= Supply(l, b, clock[i])
  }

  lemma RefillKeepsSupply(l: Limits, b: Bucket, now: real, t: real)
    requires Refill(l, b, now).tokens < l.cap
    ensures Supply(l, Refill(l, b, now), t) == Supply(l, b, t)
  {
    hide Times;
    TimesAdd(t - now, now - b.lastRefill, l.rate);
    assert t - now + (now - b.lastRefill) == t - b.lastRefill;
  }

  /**
   A caller alone at the bucket is served exactly when the bucket can ever hold that much and some reading
   finds the supply, from any bucket and on any clock. Asking for more than the capacity waits for ever.
   */
  lemma {:induction false} ServedIff(l: Limits, b: Bucket, clock: seq<real>, n: real)
    ensures Wait(l, b, clock, n).ok <==> n <= l.cap && SuppliedAt(l, b, clock, n)
    decreases |clock|
  {
    hide Times;
    if clock != [] {
      var filled := Refill(l, b, clock[0]);
      if filled.tokens >= n {
        assert n <= Supply(l, b, clock[0]);
      } else {
        ServedIff(l, filled, clock[1..], n);
        if n <= l.cap {
          forall i | 0 < i < |clock|
            ensures Supply(l, b, clock[i]) == Supply(l, filled, clock[1..][i - 1])
          {
            RefillKeepsSupply(l, b, clock[0], clock[i]);
          }
          SuppliedLater(l, b, filled, clock, n);
        }
      }
    }
  }

  lemma SuppliedLater(l: Limits, b: Bucket, b': Bucket, clock: seq<real>, n: real)
    requires clock != [] && n > Supply(l, b, clock[0])
    requires forall i :: 0 < i < |clock| ==> Supply(l, b, clock[i]) == Supply(l, b', clock[1..][i - 1])
    ensures SuppliedAt(l, b, clock, n) <==> SuppliedAt(l, b', clock[1..], n)
  {
    hide Supply;
    if SuppliedAt(l, b, clock, n) {
      var i :| 0 <= i < |clock| && n <= Supply(l, b, clock[i]);
      assert n <= Supply(l, b', clock[1..][i - 1]);
    }
    if SuppliedAt(l, b', clock[1..], n) {
      var i :| 0 <= i < |clock[1..]| && n <= Supply(l, b', clock[1..][i]);
      assert n <= Supply(l, b, clock[i + 1]);
    }
  }

  /** On a clock that does not step back, it is the last reading that decides. */
  lemma ServedByLastIff(l: Limits, b: Bucket, clock: seq<real>, n: real)
    requires l.rate >= 0.0 && Readings(b, clock) && clock != []
    ensures Wait(l, b, clock, n).ok <==> n <= l.cap && n <= Supply(l, b, clock[|clock| - 1])
  {
    ServedIff(l, b, clock, n);
    hide Times, Wait;
    var last := clock[|clock| - 1];
    forall i | 0 <= i < |clock|
      ensures Supply(l, b, clock[i]) <= Supply(l, b, last)
    {
      TimesMono(clock[i] - b.lastRefill, last - b.lastRefill, l.rate);
    }
  }

  // ---------------------------------------------------------------- the classes

  class APIBucket {
    var tokens: real
    const maxTokens: real
    const refillRate: real
    var lastRefill: real

    function Lim(): Limits {
      Limits(maxTokens, refillRate)
    }

    function Value(): Bucket
      reads this
    {
      Bucket(tokens, lastRefill)
    }

    constructor (now: real, maxTokens: real, refillPerSec: real)
      ensures Lim() == Limits(maxTokens, refillPerSec) && Value() == Bucket(maxTokens, now)
    {
      this.tokens, this.maxTokens, this.refillRate, this.lastRefill := maxTokens, maxTokens, refillPerSec, now;
    }

    method RefillNow(now: real)
      modifies this
      ensures Value() == Refill(Lim(), old(Value()), now)
    {
      var elapsed := now - lastRefill;
      var filled := tokens + Times(elapsed, refillRate);
      tokens := if filled < maxTokens then filled else maxTokens;
      lastRefill := now;
    }

    /** Says whether an attempt now would succeed, and takes nothing. */
    method CanConsume(now: real, n: real) returns (ok: bool)
      modifies this
      ensures Value() == Step(Lim(), old(Value()), Peek(now)).0
      ensures ok == Wait(Lim(), old(Value()), [now], n).ok
    {
      RefillNow(now);
      ok := tokens >= n;
    }

    method Consume(now: real, n: real) returns (ok: bool)
      modifies this
      ensures Value() == Step(Lim(), old(Value()), Attempt(now, n)).0
      ensures ok <==> Refill(Lim(), old(Value()), now).tokens >= n
    {
      RefillNow(now);
      if tokens >= n {
        tokens := tokens - n;
        return true;
      }
      return false;
    }

    /** Tries at each reading of the clock; between two readings the caller sleeps. */
    method WaitAndConsume(clock: seq<real>, n: real) returns (tries: nat, ok: bool)
      modifies this
      ensures Outcome(Value(), tries, ok) == Wait(Lim(), old(Value()), clock, n)
    {
      tries, ok := 0, false;
      while !ok && tries < |clock|
        invariant tries <= |clock|
        invariant !ok ==>
                    var later := Wait(Lim(), Value(), clock[tries..], n);
                    Wait(Lim(), old(Value()), clock, n) == Outcome(later.bucket, tries + later.tries, later.ok)
        invariant ok ==> Wait(Lim(), old(Value()), clock, n) == Outcome(Value(), tries, true)
        decreases !ok, |clock| - tries
      {
        assert clock[tries..][1..] == clock[tries + 1..];
        ok := Consume(clock[tries], n);
        tries := tries + 1;
      }
    }
  }

  /** The bridge's limiter refills on entry and after each sleep, and takes one token. */
  class BridgeRateLimiter {
    const rate: real
    const per: real
    var tokens: real
    var lastRefill: real

    function Lim(): Limits
      requires per != 0.0
    {
      Limits(rate, Over(rate, per))
    }

    function Value(): Bucket
      reads this
    {
      Bucket(tokens, lastRefill)
    }

    constructor (now: real, rate: real, per: real)
      requires per != 0.0
      ensures this.per == per && Lim() == Limits(rate, Over(rate, per)) && Value() == Bucket(rate, now)
    {
      this.rate, this.per, this.tokens, this.lastRefill := rate, per, rate, now;
    }

    method Acquire(clock: seq<real>) returns (tries: nat, ok: bool)
      requires per != 0.0 && clock != []
      modifies this
      ensures Outcome(Value(), tries, ok) == Wait(Lim(), old(Value()), clock, 1.0)
    {
      hide Times, Over;
      var elapsed := clock[0] - lastRefill;
      var filled := tokens + Times(elapsed, Over(rate, per));
      tokens := if filled < rate then filled else rate;
      lastRefill := clock[0];
      tries := 1;
      while tokens < 1.0 && tries < |clock|
        invariant 1 <= tries <= |clock|
        invariant if tokens >= 1.0
                  then Wait(Lim(), old(Value()), clock, 1.0) ==
                       Outcome(Value().(tokens := tokens - 1.0), tries, true)
                  else var later := Wait(Lim(), Value(), clock[tries..], 1.0);
                       Wait(Lim(), old(Value()), clock, 1.0) ==
                       Outcome(later.bucket, tries + later.tries, later.ok)
        decreases |clock| - tries
      {
        assert clock[tries..][1..] == clock[tries + 1..];
        elapsed := clock[tries] - lastRefill;
        filled := tokens + Times(elapsed, Over(rate, per));
        tokens := if filled < rate then filled else rate;
        lastRefill := clock[tries];
        tries := tries + 1;
      }
      ok := tokens >= 1.0;
      if ok {
        tokens := tokens - 1.0;
      }
    }
  }

  /** The gateway's limiter looks first, and refills only after a sleep. */
  class GatewayRateLimiter {
    const rate: real
    const per: real
    var tokens: real
    var lastRefill: real

    function Lim(): Limits
      requires per != 0.0
    {
      Limits(rate, Over(rate, per))
    }

    function Value(): Bucket
      reads this
    {
      Bucket(tokens, lastRefill)
    }

    constructor (now: real, rate: real, per: real)
      requires per != 0.0
      ensures this.per == per && Lim() == Limits(rate, Over(rate, per)) && Value() == Bucket(rate, now)
    {
      this.rate, this.per, this.tokens, this.lastRefill := rate, per, rate, now;
    }

    method Acquire(at: real, clock: seq<real>) returns (tries: nat, ok: bool)
      requires per != 0.0
      modifies this
      ensures old(tokens) >= 1.0 ==> ok && tries == 0 && Value() == Step(Lim(), old(Value()), Enter(at)).0
      ensures old(tokens) < 1.0 ==> Outcome(Value(), tries, ok) == Wait(Lim(), old(Value()), clock, 1.0)
    {
      hide Times, Over;
      tries := 0;
      while tokens < 1.0 && tries < |clock|
        invariant tries <= |clock|
        invariant old(tokens) >= 1.0 ==> tries == 0 && Value() == old(Value())
        invariant old(tokens) < 1.0 ==>
                    if tokens >= 1.0
                    then Wait(Lim(), old(Value()), clock, 1.0) ==
                         Outcome(Value().(tokens := tokens - 1.0), tries, true)
                    else var later := Wait(Lim(), Value(), clock[tries..], 1.0);
                         Wait(Lim(), old(Value()), clock, 1.0) ==
                         Outcome(later.bucket, tries + later.tries, later.ok)
        decreases |clock| - tries
      {
        assert clock[tries..][1..] == clock[tries + 1..];
        var elapsed := clock[tries] - lastRefill;
        var filled := tokens + Times(elapsed, Over(rate, per));
        tokens := if filled < rate then filled else rate;
        lastRefill := clock[tries];
        tries := tries + 1;
      }
      ok := tokens >= 1.0;
      if ok {
        tokens := tokens - 1.0;
      }
    }
  }
}
