/**
 The regulatory circuit breaker of daemons/meta_router.py: a sliding-window limiter over a queue of
 admission times, and what it guarantees over whole runs of clock readings.
 */
module Throttle {

  const BATCH_LIMIT := 10
  const WINDOW_SEC := 1.05

  /** Old admissions are dropped from the front until one is recent enough. */
  function Cleanup(queue: seq<real>, now: real): (kept: seq<real>)
    ensures |kept| <= |queue|
    decreases |queue|
  {
    if queue != [] && now - queue[0] > WINDOW_SEC then Cleanup(queue[1..], now) else queue
  }

  function Check(queue: seq<real>, now: real): (seq<real>, bool) {
    var kept := Cleanup(queue, now);
    if |kept| >= BATCH_LIMIT then (kept, false) else (kept + [now], true)
  }

  class RegulatoryCircuitBreaker {
    var opQueue: seq<real>

    constructor ()
      ensures opQueue == []
    {
      opQueue := [];
    }

    method CheckThrottle(now: real) returns (ok: bool)
      modifies this
      ensures (opQueue, ok) == Check(old(opQueue), now)
    {
      while opQueue != [] && now - opQueue[0] > WINDOW_SEC
        invariant Cleanup(opQueue, now) == Cleanup(old(opQueue), now)
        decreases |opQueue|
      {
        opQueue := opQueue[1..];
      }
      if |opQueue| >= BATCH_LIMIT {
        return false;
      }
      opQueue := opQueue + [now];
      ok := true;
    }
  }

  // ---------------------------------------------------------------- runs

  /** The admissions of a whole run: those already dropped from the queue, and the queue itself. */
  datatype History = History(dropped: seq<real>, queue: seq<real>) {
    function Admitted(): seq<real> {
      dropped + queue
    }
  }

  function Advance(h: History, now: real): History {
    var kept := Cleanup(h.queue, now);
    History(h.dropped + h.queue[..|h.queue| - |kept|], Check(h.queue, now).0)
  }

  function Run(clock: seq<real>): History {
    if clock == [] then History([], []) else Advance(Run(clock[..|clock| - 1]), clock[|clock| - 1])
  }

  lemma RunSnoc(clock: seq<real>, now: real)
    ensures Run(clock + [now]) == Advance(Run(clock), now)
  {
    assert (clock + [now])[..|clock|] == clock;
  }

  ghost predicate Monotone(clock: seq<real>) {
    forall i, j :: 0 <= i < j < |clock| ==> clock[i] <= clock[j]
  }

  /** How many of the times lie in the closed interval from `lo` to `hi`. */
  function CountIn(times: seq<real>, lo: real, hi: real): nat {
    if times == [] then 0
    else CountIn(times[1..], lo, hi) + (if lo <= times[0] <= hi then 1 else 0)
  }

  lemma {:induction false} CountAppend(a: seq<real>, b: seq<real>, lo: real, hi: real)
    ensures CountIn(a + b, lo, hi) == CountIn(a, lo, hi) + CountIn(b, lo, hi)
  {
    if a == [] {
      assert a + b == b;
    } else {
      assert (a + b)[1..] == a[1..] + b;
      CountAppend(a[1..], b, lo, hi);
    }
  }

  lemma {:induction false} CountNone(a: seq<real>, lo: real, hi: real)
    requires forall i :: 0 <= i < |a| ==> !(lo <= a[i] <= hi)
    ensures CountIn(a, lo, hi) == 0
  {
    if a != [] {
      CountNone(a[1..], lo, hi);
    }
  }

  lemma {:induction false} CountAll(a: seq<real>, lo: real, hi: real)
    ensures CountIn(a, lo, hi) <= |a|
    ensures (forall i :: 0 <= i < |a| ==> lo <= a[i] <= hi) ==> CountIn(a, lo, hi) == |a|
  {
    if a != [] {
      CountAll(a[1..], lo, hi);
    }
  }

  /** What every run keeps at time `now`: what was dropped is too old to matter. */
  ghost predicate Inv(h: History, now: real) {
    && |h.queue| <= BATCH_LIMIT
    && Monotone(h.Admitted())
    && (forall i :: 0 <= i < |h.Admitted()| ==> h.Admitted()[i] <= now)
    && (forall i :: 0 <= i < |h.dropped| ==> now - h.dropped[i] > WINDOW_SEC)
  }

  /** Cleanup keeps exactly the suffix that lies within the window. */
  lemma {:induction false} CleanupKeepsWindow(queue: seq<real>, now: real)
    requires Monotone(queue)
    ensures var kept := Cleanup(queue, now);
            && |kept| <= |queue| && kept == queue[|queue| - |kept|..]
            && (forall i :: 0 <= i < |queue| - |kept| ==> now - queue[i] > WINDOW_SEC)
            && (forall i :: 0 <= i < |kept| ==> now - kept[i] <= WINDOW_SEC)
    decreases |queue|
  {
    if queue != [] && now - queue[0] > WINDOW_SEC {
      CleanupKeepsWindow(queue[1..], now);
      var kept := Cleanup(queue, now);
      forall i | 0 <= i < |queue| - |kept|
        ensures now - queue[i] > WINDOW_SEC
      {
        assert i > 0 ==> queue[i] == queue[1..][i - 1];
      }
    }
  }

  lemma SuffixMonotone(a: seq<real>, b: seq<real>)
    requires Monotone(a + b)
    ensures Monotone(b)
  {
    forall i, j | 0 <= i < j < |b|
      ensures b[i] <= b[j]
    {
      assert b[i] == (a + b)[|a| + i] && b[j] == (a + b)[|a| + j];
    }
  }

  /** The history after cleanup alone: the same admissions, split further to the right. */
  lemma CleanupKeepsInv(h: History, before: real, now: real)
    requires Inv(h, before) && before <= now
    ensures var kept := Cleanup(h.queue, now);
            var cleaned := History(h.dropped + h.queue[..|h.queue| - |kept|], kept);
            && Inv(cleaned, now) && cleaned.Admitted() == h.Admitted()
            && (forall i :: 0 <= i < |kept| ==> now - WINDOW_SEC <= kept[i] <= now)
            && (forall i :: 0 <= i < |cleaned.dropped| ==> now - cleaned.dropped[i] > WINDOW_SEC)
  {
    var kept := Cleanup(h.queue, now);
    SuffixMonotone(h.dropped, h.queue);
    CleanupKeepsWindow(h.queue, now);
    hide Cleanup, Monotone;
    var cut := |h.queue| - |kept|;
    var expired := h.dropped + h.queue[..cut];
    assert h.queue == h.queue[..cut] + kept;
    assert expired + kept == h.dropped + h.queue;
    forall i | 0 <= i < |kept|
      ensures now - WINDOW_SEC <= kept[i] <= now
    {
      assert kept[i] == (h.dropped + h.queue)[|h.dropped| + cut + i];
    }
    forall i | 0 <= i < |expired|
      ensures now - expired[i] > WINDOW_SEC
    {
      if i < |h.dropped| {
        assert expired[i] == h.dropped[i];
      } else {
        assert expired[i] == h.queue[i - |h.dropped|];
      }
    }
  }

  /** One call keeps the invariant, and admits exactly when the check says so. */
  lemma AdvanceKeepsInv(h: History, before: real, now: real)
    requires Inv(h, before) && before <= now
    ensures Inv(Advance(h, now), now)
    ensures Advance(h, now).Admitted() == if Check(h.queue, now).1 then h.Admitted() + [now] else h.Admitted()
  {
    CleanupKeepsInv(h, before, now);
    hide Cleanup;
    var kept := Cleanup(h.queue, now);
    var cleaned := History(h.dropped + h.queue[..|h.queue| - |kept|], kept);
    if |kept| < BATCH_LIMIT {
      assert Advance(h, now) == History(cleaned.dropped, kept + [now]);
      assert cleaned.dropped + (kept + [now]) == cleaned.Admitted() + [now];
    }
  }

  lemma {:induction false} RunKeepsInv(clock: seq<real>, now: real)
    requires Monotone(clock) && (clock != [] ==> clock[|clock| - 1] <= now)
    ensures Inv(Run(clock), if clock == [] then now else clock[|clock| - 1])
    decreases |clock|
  {
    if clock != [] {
      var n := |clock|;
      var init, last := clock[..n - 1], clock[n - 1];
      RunKeepsInv(init, last);
      AdvanceKeepsInv(Run(init), if init == [] then last else init[n - 2], last);
    }
  }

  /** The admissions in the window that ends now are those that cleanup keeps. */
  lemma KeptIsWindowCount(h: History, before: real, now: real)
    requires Inv(h, before) && before <= now
    ensures CountIn(h.Admitted(), now - WINDOW_SEC, now) == |Cleanup(h.queue, now)| <= BATCH_LIMIT
  {
    CleanupKeepsInv(h, before, now);
    var kept := Cleanup(h.queue, now);
    var expired := h.dropped + h.queue[..|h.queue| - |kept|];
    hide Cleanup, Monotone;
    CountAppend(expired, kept, now - WINDOW_SEC, now);
    CountNone(expired, now - WINDOW_SEC, now);
    CountAll(kept, now - WINDOW_SEC, now);
    assert History(expired, kept).Admitted() == h.Admitted();
  }

  /** And a call is refused exactly when ten admissions lie in the 1.05 seconds that end with it. */
  lemma RefusedIffWindowFull(clock: seq<real>, now: real)
    requires Monotone(clock) && (clock != [] ==> clock[|clock| - 1] <= now)
    ensures !Check(Run(clock).queue, now).1 <==>
              CountIn(Run(clock).Admitted(), now - 1.05, now) == 10
  {
    RunKeepsInv(clock, now);
    hide Run, Cleanup, Inv;
    KeptIsWindowCount(Run(clock), if clock == [] then now else clock[|clock| - 1], now);
  }

  // ---------------------------------------------------------------- the limit, on any clock

  /** No reading is more than `d` below an earlier one. */
  ghost predicate SetBack(clock: seq<real>, d: real) {
    forall i, j :: 0 <= i < j < |clock| ==> clock[j] >= clock[i] - d
  }

  /** In the order of admission, any two times ten places apart are more than `gap` apart. */
  ghost predicate Spread(times: seq<real>, gap: real) {
    forall i, j :: 0 <= i && i + BATCH_LIMIT <= j < |times| ==> times[j] - times[i] > gap
  }

  /** Two admissions ten apart never share a window, so no window holds more than ten. */
  lemma {:induction false} SpreadBoundsCount(times: seq<real>, lo: real, hi: real)
    requires Spread(times, hi - lo)
    ensures CountIn(times, lo, hi) <= BATCH_LIMIT
    decreases |times|
  {
    var n := |times|;
    if n <= BATCH_LIMIT {
      CountAll(times, lo, hi);
    } else {
      var last := times[n - 1];
      var m := if lo <= last <= hi then n - BATCH_LIMIT else n - 1;
      var head, tail := times[..m], times[m..];
      assert times == head + tail;
      CountAppend(head, tail, lo, hi);
      if lo <= last <= hi {
        assert forall i :: 0 <= i < m ==> last - head[i] > hi - lo;
        CountNone(head, lo, hi);
        CountAll(tail, lo, hi);
      } else {
        SpreadBoundsCount(head, lo, hi);
        CountNone(tail, lo, hi);
      }
    }
  }

  ghost predicate HadExpired(time: real, clock: seq<real>) {
    exists k :: 0 <= k < |clock| && clock[k] - time > WINDOW_SEC
  }

  /** Whatever was dropped had expired at some reading. */
  ghost predicate Expired(dropped: seq<real>, clock: seq<real>) {
    forall i :: 0 <= i < |dropped| ==> HadExpired(dropped[i], clock)
  }

  /** Cleanup drops a prefix, each of whose times had expired, whether or not the queue is sorted. */
  lemma {:induction false} CleanupDropsExpired(queue: seq<real>, now: real)
    ensures var kept := Cleanup(queue, now);
            && kept == queue[|queue| - |kept|..]
            && (forall i :: 0 <= i < |queue| - |kept| ==> now - queue[i] > WINDOW_SEC)
    decreases |queue|
  {
    if queue != [] && now - queue[0] > WINDOW_SEC {
      CleanupDropsExpired(queue[1..], now);
      var kept := Cleanup(queue, now);
      forall i | 0 <= i < |queue| - |kept|
        ensures now - queue[i] > WINDOW_SEC
      {
        assert i > 0 ==> queue[i] == queue[1..][i - 1];
      }
    }
  }

  lemma ExpiredLater(dropped: seq<real>, more: seq<real>, clock: seq<real>, now: real)
    requires Expired(dropped, clock) && forall i :: 0 <= i < |more| ==> now - more[i] > WINDOW_SEC
    ensures Expired(dropped + more, clock + [now])
  {
    var all := clock + [now];
    forall i | 0 <= i < |dropped + more|
      ensures HadExpired((dropped + more)[i], all)
    {
      if i < |dropped| {
        assert HadExpired(dropped[i], clock);
        var k :| 0 <= k < |clock| && clock[k] - dropped[i] > WINDOW_SEC;
        assert all[k] == clock[k];
      } else {
        assert all[|clock|] == now;
      }
    }
  }

  lemma AdvanceKeepsExpired(h: History, clock: seq<real>, now: real)
    requires |h.queue| <= BATCH_LIMIT && Expired(h.dropped, clock)
    ensures var h' := Advance(h, now);
            && |h'.queue| <= BATCH_LIMIT && Expired(h'.dropped, clock + [now])
            && (h'.Admitted() == h.Admitted()
                || (h'.Admitted() == h.Admitted() + [now] && |h.Admitted()| < |h'.dropped| + BATCH_LIMIT))
            && h'.dropped <= h'.Admitted()
  {
    CleanupDropsExpired(h.queue, now);
    var kept := Cleanup(h.queue, now);
    var gone := h.queue[..|h.queue| - |kept|];
    ExpiredLater(h.dropped, gone, clock, now);
    hide Cleanup, Expired;
    assert h.queue == gone + kept;
    assert (h.dropped + gone) + kept == h.Admitted();
    assert (h.dropped + gone) + (kept + [now]) == h.Admitted() + [now];
  }

  lemma SpreadSnoc(times: seq<real>, k: nat, now: real, gap: real)
    requires Spread(times, gap) && k <= |times| < k + BATCH_LIMIT
    requires forall i :: 0 <= i < k ==> now - times[i] > gap
    ensures Spread(times + [now], gap)
  {
  }

  /** The admissions of a run whose clock is never set back by more than `d`. */
  lemma {:induction false} RunKeepsSpread(clock: seq<real>, d: real)
    requires SetBack(clock, d) && d >= 0.0
    ensures |Run(clock).queue| <= BATCH_LIMIT && Expired(Run(clock).dropped, clock)
    ensures Spread(Run(clock).Admitted(), WINDOW_SEC - d)
    decreases |clock|
  {
    if clock != [] {
      var n := |clock|;
      var init, now := clock[..n - 1], clock[n - 1];
      RunKeepsSpread(init, d);
      var h := Run(init);
      AdvanceKeepsExpired(h, init, now);
      assert init + [now] == clock;
      hide Advance, Run;
      var h' := Advance(h, now);
      if h'.Admitted() != h.Admitted() {
        forall i | 0 <= i < |h'.dropped| && i < |h.Admitted()|
          ensures now - h.Admitted()[i] > WINDOW_SEC - d
        {
          assert h'.Admitted()[i] == h'.dropped[i] == h.Admitted()[i];
          assert HadExpired(h'.dropped[i], clock);
          var k :| 0 <= k < n && clock[k] - h'.dropped[i] > WINDOW_SEC;
        }
        var k := if |h'.dropped| <= |h.Admitted()| then |h'.dropped| else |h.Admitted()|;
        SpreadSnoc(h.Admitted(), k, now, WINDOW_SEC - d);
      }
    }
  }

  ghost predicate AtMostTen(clock: seq<real>, lo: real, length: real) {
    CountIn(Run(clock).Admitted(), lo, lo + length) <= 10
  }

  /**
   The limit over whole runs: whatever the readings of a non-decreasing clock, no closed interval of
   1.05 seconds, wherever it starts, contains more than ten admissions.
   */
  lemma AtMostTenPerWindow(clock: seq<real>, lo: real)
    requires Monotone(clock)
    ensures CountIn(Run(clock).Admitted(), lo, lo + 1.05) <= 10
  {
    RunKeepsSpread(clock, 0.0);
    SpreadBoundsCount(Run(clock).Admitted(), lo, lo + WINDOW_SEC);
  }

  /** The limit holds in every window of this length, on every clock set back by at most `d`. */
  ghost predicate LimitHolds(d: real, length: real) {
    forall clock: seq<real>, lo: real :: SetBack(clock, d) ==> AtMostTen(clock, lo, length)
  }

  // ---------------------------------------------------------------- a clock that steps back

  lemma {:induction false} Burst(n: nat)
    requires n <= BATCH_LIMIT
    ensures var zeros := seq(n, _ => 0.0); Run(zeros) == History([], zeros)
  {
    var zeros := seq(n, _ => 0.0);
    if n > 0 {
      Burst(n - 1);
      var fewer := seq(n - 1, _ => 0.0);
      assert zeros[..n - 1] == fewer && fewer + [0.0] == zeros;
      assert Cleanup(fewer, 0.0) == fewer;
      assert Advance(History([], fewer), 0.0) == History([], zeros);
    }
  }

  lemma {:induction false} CleanupDropsAll(queue: seq<real>, now: real)
    requires forall i :: 0 <= i < |queue| ==> now - queue[i] > WINDOW_SEC
    ensures Cleanup(queue, now) == []
    decreases |queue|
  {
    if queue != [] {
      CleanupDropsAll(queue[1..], now);
    }
  }

  /** Ten admissions at 0, one after they have expired, and one with the clock set back into their window. */
  lemma BurstThenBackward(top: real, back: real)
    requires top > WINDOW_SEC && back <= top + WINDOW_SEC
    ensures var zeros := seq(10, _ => 0.0);
            Run(zeros + [top, back]) == History(zeros, [top, back])
  {
    var zeros := seq(10, _ => 0.0);
    Burst(10);
    RunSnoc(zeros, top);
    RunSnoc(zeros + [top], back);
    assert zeros + [top] + [back] == zeros + [top, back];
    CleanupDropsAll(zeros, top);
    assert Cleanup([top], back) == [top];
    hide Cleanup, Run;
    assert zeros[..10] == zeros && [] + zeros == zeros;
    assert Advance(History([], zeros), top) == History(zeros, [top]);
    assert [top] + [back] == [top, back] && zeros + [] == zeros && [top][..0] == [];
  }

  lemma CountBurst(top: real, back: real, length: real)
    requires 0.0 <= back <= length
    ensures var zeros := seq(10, _ => 0.0);
            CountIn(zeros + [top, back], 0.0, length) == if 0.0 <= top <= length then 12 else 11
  {
    var zeros := seq(10, _ => 0.0);
    CountAppend(zeros, [top, back], 0.0, length);
    CountAll(zeros, 0.0, length);
    assert [top, back][1..] == [back] && [back][1..] == [];
    assert CountIn([back], 0.0, length) == 1;
  }

  /** A clock set back by one and a half seconds: eleven admissions fall within half a second. */
  lemma BackwardClockBreaksLimit()
    ensures var clock := seq(10, _ => 0.0) + [2.0, 0.5];
            CountIn(Run(clock).Admitted(), 0.0, 0.5) == 11
  {
    BurstThenBackward(2.0, 0.5);
    CountBurst(2.0, 0.5, 0.5);
  }

  /**
   Exactly how much a clock may be set back: the limit of ten holds in all windows of a length on all
   clocks set back by at most `d` when that length and `d` fit in 1.05 seconds together, and (empty
   windows aside) only then. The full 1.05 seconds are guaranteed exactly when the clock never steps back.
   */
  lemma LimitHoldsIff(d: real, length: real)
    requires d >= 0.0
    ensures LimitHolds(d, length) <==> length < 0.0 || length <= 1.05 - d
    ensures LimitHolds(d, 1.05) <==> d == 0.0
  {
    LimitHoldsFor(d, length);
    LimitHoldsFor(d, WINDOW_SEC);
  }

  lemma LimitHoldsFor(d: real, length: real)
    requires d >= 0.0
    ensures LimitHolds(d, length) <==> length < 0.0 || length <= WINDOW_SEC - d
  {
    hide Run, CountIn;
    if length < 0.0 || length <= WINDOW_SEC - d {
      forall clock: seq<real>, lo: real | SetBack(clock, d)
        ensures AtMostTen(clock, lo, length)
      {
        var times := Run(clock).Admitted();
        if length < 0.0 {
          CountNone(times, lo, lo + length);
        } else {
          RunKeepsSpread(clock, d);
          SpreadBoundsCount(times, lo, lo + length);
        }
      }
    } else {
      var clock := seq(10, _ => 0.0) + [length + d, length];
      BurstThenBackward(length + d, length);
      CountBurst(length + d, length, length);
      assert SetBack(clock, d);
      assert !AtMostTen(clock, 0.0, length);
    }
  }
}
