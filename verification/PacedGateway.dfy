/**
 The limiter of daemons/shoonya_gateway.py with its sleeps: a caller that finds no token looks again only
 after a nap. Exactly when such runs keep the bound of the limiters that refill first.
 */
module PacedGateway {
  import opened Reals
  import opened TokenBuckets

  /** A caller of the gateway's limiter looks on arrival, and again when the sleep begun at `since` ends. */
  datatype Call = Arrive(at: real) | Retry(at: real, since: real)

  function AsEvent(c: Call): Event {
    match c
    case Arrive(at) => Enter(at)
    case Retry(at, _) => Attempt(at, 1.0)
  }

  function AsEvents(calls: seq<Call>): seq<Event> {
    seq(|calls|, i requires 0 <= i < |calls| => AsEvent(calls[i]))
  }

  /** Who is asleep after a call, by the time each fell asleep: a caller that gets no token sleeps. */
  function AsleepAfter(asleep: multiset<real>, c: Call, taken: real): multiset<real> {
    var others := if c.Retry? then asleep - multiset{c.since} else asleep;
    if taken == 0.0 then others + multiset{c.at} else others
  }

  /** Every retry is by a caller that has slept for at least `nap`. */
  ghost predicate Paced(l: Limits, b: Bucket, asleep: multiset<real>, calls: seq<Call>, nap: real)
    decreases |calls|
  {
    calls == [] ||
    (var c := calls[0];
     var (next, taken) := Step(l, b, AsEvent(c));
     && (c.Retry? ==> c.since in asleep && c.since + nap <= c.at)
     && Paced(l, next, AsleepAfter(asleep, c, taken), calls[1..], nap))
  }

  /** The eager bound over every window of every run of such calls from creation. */
  ghost predicate PacedEager(l: Limits, nap: real) {
    forall t0: real, calls: seq<Call>, s: real, t: real ::
      && Paced(l, Bucket(l.cap, t0), multiset{}, calls, nap)
      && Timely(Bucket(l.cap, t0), AsEvents(calls)) && s <= t ==>
        EagerBound(l, Bucket(l.cap, t0), AsEvents(calls), s, t)
  }

  lemma CallsTail(l: Limits, b: Bucket, calls: seq<Call>)
    requires l.Valid() && Level(l, b) && Timely(b, AsEvents(calls)) && calls != []
    ensures AsEvents(calls) != [] && AsEvents(calls)[0] == AsEvent(calls[0])
    ensures AsEvents(calls)[1..] == AsEvents(calls[1..])
    ensures var next := Step(l, b, AsEvent(calls[0])).0; Level(l, next) && Timely(next, AsEvents(calls[1..]))
  {
    TimelyTail(l, b, AsEvents(calls));
  }

  lemma SleepsBeginLate(asleep: multiset<real>, c: Call, taken: real, first: real)
    requires c.at >= first && forall x :: x in asleep ==> x >= first
    ensures forall x :: x in AsleepAfter(asleep, c, taken) ==> x >= first
  {
  }

  /** When every sleep began at `first` or later, no retry comes before `first + nap`. */
  lemma {:induction false} RetriesComeLate(
      l: Limits, b: Bucket, asleep: multiset<real>, calls: seq<Call>, nap: real, first: real)
    requires l.Valid() && Level(l, b) && Timely(b, AsEvents(calls)) && Paced(l, b, asleep, calls, nap)
    requires nap >= 0.0 && forall x :: x in asleep ==> x >= first
    requires forall i :: 0 <= i < |calls| ==> calls[i].at >= first
    ensures forall i :: 0 <= i < |calls| && calls[i].Retry? ==> calls[i].at >= first + nap
    decreases |calls|
  {
    hide Times, Step, Timely, AsEvents, AsleepAfter;
    if calls != [] {
      var (next, taken) := Step(l, b, AsEvent(calls[0]));
      CallsTail(l, b, calls);
      SleepsBeginLate(asleep, calls[0], taken, first);
      RetriesComeLate(l, next, AsleepAfter(asleep, calls[0], taken), calls[1..], nap, first);
      forall i | 0 <= i < |calls| && calls[i].Retry?
        ensures calls[i].at >= first + nap
      {
        if i > 0 {
          assert calls[i] == calls[1..][i - 1];
        }
      }
    }
  }

  /** A bucket below one token, of capacity below two, gives only at retries, and stays below one token. */
  lemma {:induction false} DrainedIsEager(l: Limits, b: Bucket, events: seq<Event>, from: real, s: real, t: real)
    requires l.Valid() && l.cap < 2.0 && Level(l, b) && b.tokens < 1.0
    requires Timely(b, events) && OfGateway(events)
    requires forall i :: 0 <= i < |events| && events[i].Attempt? ==> events[i].at >= from
    ensures TakenIn(l, b, events, s, t) <= if t < Max(s, from) then 0.0 else l.cap + Times(t - Max(s, from), l.rate)
    decreases |events|
  {
    hide Times;
    if t >= Max(s, from) {
      TimesNonNeg(t - Max(s, from), l.rate);
    }
    if events != [] {
      var e := events[0];
      if e.Attempt? && s <= e.at <= t {
        FromRefill(l, b, events, s, t);
        TimesMono(t - e.at, t - Max(s, from), l.rate);
      } else {
        TimelyTail(l, b, events);
        DrainedIsEager(l, Step(l, b, e).0, events[1..], from, s, t);
      }
    }
  }

  lemma RetriesAsEvents(calls: seq<Call>, from: real)
    requires forall i :: 0 <= i < |calls| && calls[i].Retry? ==> calls[i].at >= from
    ensures var events := AsEvents(calls);
            OfGateway(events) && forall i :: 0 <= i < |events| && events[i].Attempt? ==> events[i].at >= from
  {
  }

  /** The token of the first entry and what the retries take after a nap. */
  lemma FirstAndRest(l: Limits, nap: real, s: real, t: real, first: real, one: real, rest: real)
    requires l.Valid() && l.cap >= 1.0 && nap >= 0.0 && Times(nap, l.rate) >= 1.0 && s <= t
    requires one == if s <= first <= t then 1.0 else 0.0
    requires rest <= if t < Max(s, first + nap) then 0.0 else l.cap + Times(t - Max(s, first + nap), l.rate)
    ensures one + rest <= l.cap + Times(t - s, l.rate)
  {
    hide Times;
    TimesNonNeg(t - s, l.rate);
    if t >= Max(s, first + nap) {
      TimesMono(t - Max(s, first + nap), t - s, l.rate);
      if s <= first {
        TimesAdd(t - first - nap, nap, l.rate);
        assert t - first - nap + nap == t - first;
        TimesMono(t - first, t - s, l.rate);
      }
    }
  }

  /** The first call of a paced run is an entry, and it takes a token. */
  lemma FirstCallEnters(l: Limits, t0: real, calls: seq<Call>, nap: real)
    requires l.cap >= 1.0 && calls != [] && Paced(l, Bucket(l.cap, t0), multiset{}, calls, nap)
    ensures calls[0] == Arrive(calls[0].at)
    ensures Step(l, Bucket(l.cap, t0), AsEvent(calls[0])) == (Bucket(l.cap - 1.0, t0), 1.0)
    ensures Paced(l, Bucket(l.cap - 1.0, t0), multiset{}, calls[1..], nap)
  {
    hide Times;
    assert calls[0].Arrive?;
    var (next, taken) := Step(l, Bucket(l.cap, t0), AsEvent(calls[0]));
    assert AsleepAfter(multiset{}, calls[0], taken) == multiset{};
  }

  lemma CallsComeAfterFirst(b: Bucket, calls: seq<Call>)
    requires Timely(b, AsEvents(calls))
    ensures forall i :: 0 <= i < |calls| ==> calls[i].at >= calls[0].at
  {
    forall i | 0 <= i < |calls|
      ensures calls[i].at >= calls[0].at
    {
      assert AsEvents(calls)[i].at >= AsEvents(calls)[0].at;
    }
  }

  /** With room for one token only, and a nap that refills it, no entry after the first finds one. */
  lemma SlowRetriesAreEager(l: Limits, t0: real, calls: seq<Call>, nap: real, s: real, t: real)
    requires l.Valid() && 1.0 <= l.cap < 2.0 && nap >= 0.0 && Times(nap, l.rate) >= 1.0 && s <= t
    requires Paced(l, Bucket(l.cap, t0), multiset{}, calls, nap) && Timely(Bucket(l.cap, t0), AsEvents(calls))
    ensures EagerBound(l, Bucket(l.cap, t0), AsEvents(calls), s, t)
  {
    hide Times, OfGateway, Step, Paced, Timely, AsEvents;
    if calls == [] {
      TimesNonNeg(t - s, l.rate);
      assert AsEvents(calls) == [] by { NoEvents(); }
    } else {
      var b, next, first := Bucket(l.cap, t0), Bucket(l.cap - 1.0, t0), calls[0].at;
      FirstCallEnters(l, t0, calls, nap);
      CallsComeAfterFirst(b, calls);
      CallsTail(l, b, calls);
      RetriesComeLate(l, next, multiset{}, calls[1..], nap, first);
      RetriesAsEvents(calls[1..], first + nap);
      DrainedIsEager(l, next, AsEvents(calls[1..]), first + nap, s, t);
      var one := if s <= first <= t then 1.0 else 0.0;
      FirstAndRest(l, nap, s, t, first, one, TakenIn(l, next, AsEvents(calls[1..]), s, t));
    }
  }

  lemma NoEvents()
    ensures AsEvents([]) == []
  {
  }

  /** A run of paced calls that takes `total` in the window. */
  ghost predicate Grants(
      l: Limits, b: Bucket, asleep: multiset<real>, calls: seq<Call>, nap: real, s: real, t: real, total: real)
  {
    Paced(l, b, asleep, calls, nap) && TakenIn(l, b, AsEvents(calls), s, t) == total
  }

  lemma OneCallGrants(l: Limits, b: Bucket, asleep: multiset<real>, c: Call, rest: seq<Call>, nap: real,
                      s: real, t: real, total: real)
    requires c.Retry? ==> c.since in asleep && c.since + nap <= c.at
    requires var (next, taken) := Step(l, b, AsEvent(c));
             Grants(l, next, AsleepAfter(asleep, c, taken), rest, nap, s, t, total)
    ensures var taken := Step(l, b, AsEvent(c)).1;
            Grants(l, b, asleep, [c] + rest, nap, s, t, total + (if s <= c.at <= t then taken else 0.0))
  {
    var calls := [c] + rest;
    hide Step;
    assert calls[1..] == rest && AsEvents(calls)[1..] == AsEvents(rest) && AsEvents(calls)[0] == AsEvent(c);
  }

  lemma RepeatHead(c: Call, k: nat, rest: seq<Call>)
    ensures Repeat(c, k) + rest == if k == 0 then rest else [c] + (Repeat(c, k - 1) + rest)
  {
  }

  /** Entries outside the window that take a token each. */
  lemma {:induction false} EntriesTake(l: Limits, b: Bucket, asleep: multiset<real>, at: real, k: nat,
                                       rest: seq<Call>, nap: real, s: real, t: real, total: real)
    requires b.tokens >= k as real && !(s <= at <= t)
    requires Grants(l, b.(tokens := b.tokens - k as real), asleep, rest, nap, s, t, total)
    ensures Grants(l, b, asleep, Repeat(Arrive(at), k) + rest, nap, s, t, total)
    decreases k
  {
    hide Grants, Repeat;
    RepeatHead(Arrive(at), k, rest);
    if k > 0 {
      assert Step(l, b, Enter(at)) == (b.(tokens := b.tokens - 1.0), 1.0);
      assert b.tokens - 1.0 - (k - 1) as real == b.tokens - k as real;
      hide Step;
      EntriesTake(l, b.(tokens := b.tokens - 1.0), asleep, at, k - 1, rest, nap, s, t, total);
      OneCallGrants(l, b, asleep, Arrive(at), Repeat(Arrive(at), k - 1) + rest, nap, s, t, total);
    }
  }

  /** `k` more callers asleep since `at`. */
  function Queue(asleep: multiset<real>, at: real, k: nat): multiset<real> {
    asleep[at := asleep[at] + k]
  }

  lemma QueueFacts(asleep: multiset<real>, at: real, k: nat)
    ensures Queue(asleep, at, 0) == asleep
    ensures Queue(asleep + multiset{at}, at, k) == Queue(asleep, at, k + 1)
    ensures AsleepAfter(asleep, Arrive(at), 0.0) == asleep + multiset{at}
  {
  }

  /** Entries that find no token fall asleep. */
  lemma {:induction false} EntriesSleep(l: Limits, b: Bucket, asleep: multiset<real>, at: real, k: nat,
                                        rest: seq<Call>, nap: real, s: real, t: real, total: real)
    requires b.tokens < 1.0
    requires Grants(l, b, Queue(asleep, at, k), rest, nap, s, t, total)
    ensures Grants(l, b, asleep, Repeat(Arrive(at), k) + rest, nap, s, t, total)
    decreases k
  {
    RepeatHead(Arrive(at), k, rest);
    QueueFacts(asleep, at, if k == 0 then 0 else k - 1);
    assert Step(l, b, Enter(at)) == (b, 0.0);
    hide Grants, Step, Repeat, Queue, AsleepAfter;
    if k > 0 {
      EntriesSleep(l, b, asleep + multiset{at}, at, k - 1, rest, nap, s, t, total);
      OneCallGrants(l, b, asleep, Arrive(at), Repeat(Arrive(at), k - 1) + rest, nap, s, t, total);
    }
  }

  /** Retries right after a refill that take a token each. */
  lemma {:induction false} RetriesTake(l: Limits, b: Bucket, asleep: multiset<real>, at: real, since: real, k: nat,
                                       nap: real)
    requires b.lastRefill == at && l.cap >= b.tokens >= k as real
    requires asleep[since] >= k && since + nap <= at
    ensures Grants(l, b, asleep, Repeat(Retry(at, since), k), nap, at, at, k as real)
    decreases k
  {
    if k > 0 {
      var fewer := Repeat(Retry(at, since), k - 1);
      assert Repeat(Retry(at, since), k) == [Retry(at, since)] + fewer;
      TimesUnit(l.rate);
      hide Times, Grants;
      assert Step(l, b, Attempt(at, 1.0)) == (b.(tokens := b.tokens - 1.0), 1.0);
      RetriesTake(l, b.(tokens := b.tokens - 1.0), asleep - multiset{since}, at, since, k - 1, nap);
      OneCallGrants(l, b, asleep, Retry(at, since), fewer, nap, at, at, (k - 1) as real);
    }
  }

  /** With room for two tokens, a bucket left over from one retry is entered, and refilled, at once. */
  function TwoRoomRun(l: Limits, nap: real, n: nat): seq<Call>
    requires l.rate != 0.0
  {
    var idle := Over(l.cap, l.rate);
    var once, twice := nap + idle, nap + idle + idle;
    Repeat(Arrive(0.0), n) + (Repeat(Arrive(0.0), n + 1)
      + ([Retry(once, 0.0)] + ([Arrive(twice)] + Repeat(Retry(twice, 0.0), n))))
  }

  /** The calls after the queue: one refill, one entry after another idle spell, and the last retries. */
  lemma TwoRoomTail(l: Limits, b: Bucket, asleep: multiset<real>, nap: real, n: nat, once: real, twice: real)
    requires l.cap >= 2.0 && 0.0 < n as real <= l.cap && asleep[0.0] == n + 1 && nap <= once < twice
    requires b.tokens + Times(once - b.lastRefill, l.rate) >= l.cap && Times(twice - once, l.rate) == l.cap
    ensures Grants(l, b, asleep, [Retry(once, 0.0)] + ([Arrive(twice)] + Repeat(Retry(twice, 0.0), n)), nap,
                   twice, twice, (n + 1) as real)
  {
    var left, entered := Bucket(l.cap - 1.0, once), Bucket(l.cap - 2.0, once);
    var last, queue := Repeat(Retry(twice, 0.0), n), asleep - multiset{0.0};
    hide Times, Grants, Repeat;
    assert Step(l, b, Attempt(once, 1.0)) == (left, 1.0);
    assert Step(l, left, Enter(twice)) == (entered, 1.0);
    LastRetries(l, entered, queue, twice, n, nap);
    OneCallGrants(l, left, queue, Arrive(twice), last, nap, twice, twice, n as real);
    OneCallGrants(l, b, asleep, Retry(once, 0.0), [Arrive(twice)] + last, nap, twice, twice, (n + 1) as real);
  }

  /** An idle spell refills the whole bucket. */
  lemma IdleRefills(l: Limits, nap: real)
    requires l.Valid() && l.cap > 0.0 && l.rate > 0.0 && nap >= 0.0
    ensures var idle := Over(l.cap, l.rate);
            idle > 0.0 && Times(idle, l.rate) == l.cap && Times(nap + idle, l.rate) >= l.cap
  {
    var idle := Over(l.cap, l.rate);
    OverTimes(l.cap, l.rate);
    OverAtLeast(l.cap, l.rate, 0.0);
    TimesUnit(l.rate);
    TimesAdd(nap, idle, l.rate);
    TimesNonNeg(nap, l.rate);
    hide Times, Over;
  }

  lemma TwoRoomGrants(l: Limits, nap: real, n: nat)
    requires l.Valid() && l.cap >= 2.0 && l.rate > 0.0 && nap >= 0.0
    requires n as real <= l.cap < n as real + 1.0
    ensures var twice := nap + Over(l.cap, l.rate) + Over(l.cap, l.rate);
            Grants(l, Bucket(l.cap, 0.0), multiset{}, TwoRoomRun(l, nap, n), nap, twice, twice, (n + 1) as real)
  {
    hide Times, Over, Grants, Repeat, Step, Queue;
    var idle := Over(l.cap, l.rate);
    var once, twice := nap + idle, nap + idle + idle;
    IdleRefills(l, nap);
    assert once - 0.0 == once && twice - once == idle;
    var drained := Bucket(l.cap - n as real, 0.0);
    var tail := [Retry(once, 0.0)] + ([Arrive(twice)] + Repeat(Retry(twice, 0.0), n));
    QueueOfNone(n + 1);
    TwoRoomTail(l, drained, Queue(multiset{}, 0.0, n + 1), nap, n, once, twice);
    EntriesSleep(l, drained, multiset{}, 0.0, n + 1, tail, nap, twice, twice, (n + 1) as real);
    var queued := Repeat(Arrive(0.0), n + 1) + tail;
    EntriesTake(l, Bucket(l.cap, 0.0), multiset{}, 0.0, n, queued, nap, twice, twice, (n + 1) as real);
  }

  lemma QueueOfNone(k: nat)
    ensures Queue(multiset{}, 0.0, k)[0.0] == k
  {
  }

  /** The first of several retries refills the bucket for all of them. */
  lemma LastRetries(l: Limits, b: Bucket, asleep: multiset<real>, at: real, n: nat, nap: real)
    requires n > 0 && n as real <= l.cap && asleep[0.0] >= n && nap <= at
    requires Refill(l, b, at) == Bucket(l.cap, at)
    ensures Grants(l, b, asleep, Repeat(Retry(at, 0.0), n), nap, at, at, n as real)
  {
    var fewer := Repeat(Retry(at, 0.0), n - 1);
    assert Repeat(Retry(at, 0.0), n) == [Retry(at, 0.0)] + fewer;
    assert Step(l, b, Attempt(at, 1.0)) == (Bucket(l.cap - 1.0, at), 1.0);
    hide Grants, Refill, Step, Times, Repeat;
    RetriesTake(l, Bucket(l.cap - 1.0, at), asleep - multiset{0.0}, at, 0.0, n - 1, nap);
    OneCallGrants(l, b, asleep, Retry(at, 0.0), fewer, nap, at, at, (n - 1) as real);
  }

  lemma TwoRoomTimely(l: Limits, nap: real, n: nat)
    requires l.Valid() && l.rate > 0.0 && nap >= 0.0
    ensures Timely(Bucket(l.cap, 0.0), AsEvents(TwoRoomRun(l, nap, n)))
  {
    var idle := Over(l.cap, l.rate);
    var once, twice := nap + idle, nap + idle + idle;
    OverAtLeast(l.cap, l.rate, 0.0);
    TimesUnit(l.rate);
    hide Over;
    var calls := TwoRoomRun(l, nap, n);
    assert forall i :: 0 <= i < |calls| ==>
      calls[i].at == if i < 2 * n + 1 then 0.0 else if i == 2 * n + 1 then once else twice;
  }

  lemma TwoRoomOverruns(l: Limits, nap: real)
    requires l.Valid() && l.cap >= 2.0 && l.rate > 0.0 && nap >= 0.0
    ensures !PacedEager(l, nap)
  {
    var n: nat := l.cap.Floor;
    var twice := nap + Over(l.cap, l.rate) + Over(l.cap, l.rate);
    TwoRoomGrants(l, nap, n);
    TwoRoomTimely(l, nap, n);
    TimesUnit(l.rate);
    hide Times, Over, TwoRoomRun;
    assert !EagerBound(l, Bucket(l.cap, 0.0), AsEvents(TwoRoomRun(l, nap, n)), twice, twice);
  }

  function ShortNapRun(s: real, first: real, second: real): seq<Call> {
    [Arrive(s)] + ([Arrive(s)] + ([Arrive(s)] + ([Retry(first, s)] + ([Retry(second, s)] + []))))
  }

  lemma ShortNapGrants(l: Limits, nap: real, s: real, first: real, second: real)
    requires 1.0 <= l.cap < 2.0 && nap >= 0.0 && first == s + nap <= second
    requires l.cap - 1.0 + Times(first - 0.0, l.rate) >= l.cap
    requires l.cap - 1.0 + Times(second - first, l.rate) == 1.0
    ensures Grants(l, Bucket(l.cap, 0.0), multiset{}, ShortNapRun(s, first, second), nap, s, second, 3.0)
  {
    var c4 := [Retry(second, s)] + [];
    var c3 := [Retry(first, s)] + c4;
    var c2 := [Arrive(s)] + c3;
    var full, empty, rest := Bucket(l.cap, 0.0), Bucket(0.0, second), l.cap - 1.0;
    hide Times, Grants;
    assert Step(l, full, Enter(s)) == (Bucket(rest, 0.0), 1.0);
    assert Step(l, Bucket(rest, 0.0), Enter(s)) == (Bucket(rest, 0.0), 0.0);
    assert Step(l, Bucket(rest, 0.0), Attempt(first, 1.0)) == (Bucket(rest, first), 1.0);
    assert Step(l, Bucket(rest, first), Attempt(second, 1.0)) == (empty, 1.0);
    assert AsleepAfter(multiset{}, Arrive(s), 0.0) == multiset{s};
    assert AsleepAfter(multiset{s}, Arrive(s), 0.0) == multiset{s, s};
    assert AsleepAfter(multiset{s, s}, Retry(first, s), 1.0) == multiset{s};
    assert AsleepAfter(multiset{s}, Retry(second, s), 1.0) == multiset{};
    hide Step, AsleepAfter;
    NoCalls(l, empty, multiset{}, nap, s, second);
    OneCallGrants(l, Bucket(rest, first), multiset{s}, Retry(second, s), [], nap, s, second, 0.0);
    OneCallGrants(l, Bucket(rest, 0.0), multiset{s, s}, Retry(first, s), c4, nap, s, second, 1.0);
    OneCallGrants(l, Bucket(rest, 0.0), multiset{s}, Arrive(s), c3, nap, s, second, 2.0);
    OneCallGrants(l, Bucket(rest, 0.0), multiset{}, Arrive(s), c2, nap, s, second, 2.0);
    OneCallGrants(l, full, multiset{}, Arrive(s), [Arrive(s)] + c2, nap, s, second, 2.0);
  }

  lemma ShortNapTimely(cap: real, s: real, first: real, second: real)
    requires 0.0 <= s <= first <= second
    ensures Timely(Bucket(cap, 0.0), AsEvents(ShortNapRun(s, first, second)))
  {
  }

  /** With a nap too short to refill one token, two retries after an idle spell take more than the bound. */
  lemma ShortNapOverruns(l: Limits, nap: real)
    requires l.Valid() && 1.0 <= l.cap < 2.0 && l.rate > 0.0 && nap >= 0.0 && Times(nap, l.rate) < 1.0
    ensures !PacedEager(l, nap)
  {
    var s, wait := Over(l.cap, l.rate), Over(2.0 - l.cap, l.rate);
    var first, second := s + nap, s + nap + wait;
    OverTimes(l.cap, l.rate);
    OverTimes(2.0 - l.cap, l.rate);
    OverAtLeast(l.cap, l.rate, 0.0);
    OverAtLeast(2.0 - l.cap, l.rate, 0.0);
    TimesUnit(l.rate);
    TimesAdd(s, nap, l.rate);
    TimesAdd(nap, wait, l.rate);
    TimesNonNeg(nap, l.rate);
    hide Times, Over, Grants, Timely, ShortNapRun, PacedEager;
    assert first - 0.0 == first && second - first == wait && second - s == nap + wait;
    ShortNapGrants(l, nap, s, first, second);
    ShortNapTimely(l.cap, s, first, second);
    ThreeTooMany(l, ShortNapRun(s, first, second), nap, s, second);
  }

  lemma NoCalls(l: Limits, b: Bucket, asleep: multiset<real>, nap: real, s: real, t: real)
    ensures Grants(l, b, asleep, [], nap, s, t, 0.0)
  {
  }

  lemma ThreeTooMany(l: Limits, calls: seq<Call>, nap: real, s: real, t: real)
    requires Grants(l, Bucket(l.cap, 0.0), multiset{}, calls, nap, s, t, 3.0) && s <= t
    requires Timely(Bucket(l.cap, 0.0), AsEvents(calls)) && l.cap + Times(t - s, l.rate) < 3.0
    ensures !PacedEager(l, nap)
  {
    hide Times;
    assert !EagerBound(l, Bucket(l.cap, 0.0), AsEvents(calls), s, t);
  }

  /**
   Exactly when the gateway's limiter keeps the eager bound, with sleeps of at least `nap` between two
   looks: when it never holds a whole token, is never refilled, or holds less than two and refills one
   in every nap. Its default of one request a second naps for a tenth of a second, and does not.
   */
  lemma {:induction false} PacedBoundIff(l: Limits, nap: real)
    requires l.Valid() && nap >= 0.0
    ensures PacedEager(l, nap) <==>
              l.cap < 1.0 || l.rate == 0.0 || (l.cap < 2.0 && Times(nap, l.rate) >= 1.0)
  {
    hide Times, Paced, Timely, EagerBound;
    if l.cap < 1.0 || l.rate == 0.0 {
      EagerBoundIff(l);
      AlwaysIsPaced(l, nap);
    } else if l.cap >= 2.0 {
      TwoRoomOverruns(l, nap);
    } else if Times(nap, l.rate) < 1.0 {
      ShortNapOverruns(l, nap);
    } else {
      forall t0: real, calls: seq<Call>, s: real, t: real |
        && Paced(l, Bucket(l.cap, t0), multiset{}, calls, nap)
        && Timely(Bucket(l.cap, t0), AsEvents(calls)) && s <= t
        ensures EagerBound(l, Bucket(l.cap, t0), AsEvents(calls), s, t)
      {
        SlowRetriesAreEager(l, t0, calls, nap, s, t);
      }
    }
  }

  lemma AlwaysIsPaced(l: Limits, nap: real)
    requires l.Valid() && AlwaysEager(l)
    ensures PacedEager(l, nap)
  {
    hide Times, Paced, Timely, EagerBound;
  }
}
