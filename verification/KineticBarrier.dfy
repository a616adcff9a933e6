/**
 The kinetic barrier of core/risk/barriers.py, branch by branch, and what its trailing stop guarantees on
 one tick. Prices, thresholds and signals are reals; the tick's market data is an input.
 */
module KineticBarrier {
  import opened Reals
  import opened Basics

  /** The parts of a position the barrier reads. `action` is compared as text, as the source does. */
  datatype Position = Position(symbol: string, quantity: int, entry: real, action: string, parent: string,
                               runnerActive: bool, localHigh: real, entryRegime: string)

  /** The market side of a tick; `recentRange` is missing when fewer than ten recent prices are known. */
  datatype Market = Market(price: real, indexTick: bool, elapsed: real, dte: real, atr: real, vix: real,
                           rv: real, quality: real, asto: real, cvd: real, sTotal: real, regime: string,
                           hurst: real, recentRange: Option<real>)

  datatype Reason = SignalFlip | AstoExit | Tp1Hit | Tp2Hit | InvHuntSl | RegimeShift | SlHit
                  | RegimeStall | OptimalStopping | ThetaStall | QualityDecay

  /** Writes to the position; a missing value leaves the field alone. */
  datatype Updates = Updates(localHigh: Option<real>, entryRegime: Option<string>, runnerActive: bool)

  datatype Verdict = Verdict(reason: Option<Reason>, partial: bool, updates: Updates)

  const TP1_MULT := 1.2
  const TP2_MULT := 2.5
  const BASE_SL_MULT := 1.0
  const WIDE_SL_MULT := 1.5
  const PARTIAL_PCT := 0.70

  // ---------------------------------------------------------------- thresholds

  function SlMult(m: Market): real {
    if m.rv > 0.001 || m.vix > 18.0 then WIDE_SL_MULT else BASE_SL_MULT
  }

  function StallTimer(m: Market): real {
    var base := if m.rv < 0.0005 || m.vix < 12.0 then 180.0 else 300.0;
    if m.dte < 1.0 then base * 0.5 else base
  }

  /** The running high after this tick. A stored high of 0 counts as none. */
  function NewHigh(p: Position, m: Market): real {
    if p.localHigh == 0.0 then m.price else Max(p.localHigh, m.price)
  }

  /** Half of the runner's best profit is given back before the stop is hit. */
  function TrailingStop(entry: real, high: real): real {
    entry + (high - entry) * 0.5
  }

  function StopOf(p: Position, m: Market): real {
    if p.runnerActive then TrailingStop(p.entry, NewHigh(p, m)) else p.entry - SlMult(m) * m.atr
  }

  function EntryRegime(p: Position, m: Market): string {
    if p.entryRegime == "" then m.regime else p.entryRegime
  }

  predicate SignalFlips(p: Position, m: Market) {
    || (p.action == "BUY" && (m.cvd < -5.0 || m.sTotal < -40.0))
    || (p.action == "SELL" && (m.cvd > 5.0 || m.sTotal > 40.0))
  }

  // ---------------------------------------------------------------- the decision

  function BaseUpdates(p: Position, m: Market): Updates {
    Updates(if p.runnerActive then Some(NewHigh(p, m)) else None,
            if p.entryRegime == "" then Some(EntryRegime(p, m)) else None,
            false)
  }

  function LongBarrier(p: Position, m: Market): Option<Reason> {
    var shifted := m.regime != EntryRegime(p, m) && (m.regime == "RANGING" || m.regime == "CRASH");
    if !p.runnerActive && m.price >= p.entry + TP1_MULT * m.atr then Some(Tp1Hit)
    else if p.runnerActive then
      if m.price >= p.entry + TP2_MULT * m.atr then Some(Tp2Hit)
      else if m.price <= StopOf(p, m) then Some(InvHuntSl)
      else if shifted then Some(RegimeShift)
      else None
    else if m.price <= StopOf(p, m) then Some(SlHit)
    else None
  }

  function ShortBarrier(p: Position, m: Market): Option<Reason> {
    var stop := p.entry + SlMult(m) * m.atr;
    var shifted := m.regime != EntryRegime(p, m) && (m.regime == "RANGING" || m.regime == "BOOM");
    if !p.runnerActive && m.price <= p.entry - TP1_MULT * m.atr then Some(Tp1Hit)
    else if p.runnerActive then
      if m.price <= p.entry - TP2_MULT * m.atr then Some(Tp2Hit)
      else if m.price >= stop then Some(InvHuntSl)
      else if shifted then Some(RegimeShift)
      else None
    else if m.price >= stop then Some(SlHit)
    else None
  }

  function Stagnation(m: Market): Option<Reason> {
    if m.elapsed < StallTimer(m) then None
    else if m.hurst < 0.45 && m.elapsed >= 180.0 then Some(RegimeStall)
    else if m.recentRange.Some? && m.recentRange.value < 0.1 * m.atr then Some(OptimalStopping)
    else Some(ThetaStall)
  }

  function Evaluate(p: Position, m: Market): Verdict {
    var updates := BaseUpdates(p, m);
    if m.indexTick then Verdict(None, false, Updates(None, None, false))
    else if SignalFlips(p, m) then Verdict(Some(SignalFlip), false, updates)
    else if Abs(m.asto) < 50.0 then Verdict(Some(AstoExit), false, updates)
    else
      var hit :=
        if p.action == "BUY" then LongBarrier(p, m)
        else if p.action == "SELL" then ShortBarrier(p, m)
        else None;
      var reason :=
        if hit.Some? then hit
        else if Stagnation(m).Some? then Stagnation(m)
        else if m.quality < 30.0 then Some(QualityDecay)
        else None;
      var partial := reason == Some(Tp1Hit);
      Verdict(reason, partial, updates.(runnerActive := partial))
  }

  /** The state updates written back to the position. */
  function Apply(p: Position, u: Updates): Position {
    p.(localHigh := if u.localHigh.Some? then u.localHigh.value else p.localHigh,
       entryRegime := if u.entryRegime.Some? then u.entryRegime.value else p.entryRegime,
       runnerActive := p.runnerActive || u.runnerActive)
  }

  // ---------------------------------------------------------------- the decision, independently

  /** A tick of the position's own, with no signal flip against it and an oscillator away from zero. */
  ghost predicate Awake(p: Position, m: Market) {
    && !m.indexTick
    && (p.action == "BUY" ==> m.cvd >= -5.0 && m.sTotal >= -40.0)
    && (p.action == "SELL" ==> m.cvd <= 5.0 && m.sTotal <= 40.0)
    && (m.asto <= -50.0 || m.asto >= 50.0)
  }

  /** Seconds a position is given: five minutes, or three in a calm market, and half of that on the last day. */
  ghost function Patience(m: Market): real {
    if m.dte < 1.0 then (if m.rv < 0.0005 || m.vix < 12.0 then 90.0 else 150.0)
    else (if m.rv < 0.0005 || m.vix < 12.0 then 180.0 else 300.0)
  }

  /** The price of the stop: one range away from the entry, one and a half in a volatile market. */
  ghost function StopPrice(p: Position, m: Market): real {
    var away := if m.rv > 0.001 || m.vix > 18.0 then 1.5 * m.atr else m.atr;
    if p.action != "BUY" then p.entry + away
    else if !p.runnerActive then p.entry - away
    else
      var best := if p.localHigh == 0.0 || p.localHigh < m.price then m.price else p.localHigh;
      (p.entry + best) / 2.0
  }

  /** The price of the target: 1.2 ranges from the entry, and 2.5 for a runner. */
  ghost function TargetPrice(p: Position, m: Market): real {
    var away := if p.runnerActive then 2.5 * m.atr else 1.2 * m.atr;
    if p.action == "BUY" then p.entry + away else p.entry - away
  }

  /** A runner entered in one regime meets a named regime against it. */
  ghost predicate RegimeTurned(p: Position, m: Market) {
    && p.runnerActive && p.entryRegime != "" && p.entryRegime != m.regime
    && (m.regime == "RANGING" || m.regime == if p.action == "BUY" then "CRASH" else "BOOM")
  }

  ghost predicate AtTarget(p: Position, m: Market) {
    || (p.action == "BUY" && m.price >= TargetPrice(p, m))
    || (p.action == "SELL" && m.price <= TargetPrice(p, m))
  }

  ghost predicate AtStop(p: Position, m: Market) {
    || (p.action == "BUY" && m.price <= StopPrice(p, m))
    || (p.action == "SELL" && m.price >= StopPrice(p, m))
  }

  /** Neither target nor stop is reached and no regime turned; other actions have no such barriers. */
  ghost predicate Inside(p: Position, m: Market) {
    p.action == "BUY" || p.action == "SELL" ==> !AtTarget(p, m) && !AtStop(p, m) && !RegimeTurned(p, m)
  }

  /**
   Exactly when a tick leaves a position alone: a tick of the index, or one strictly between stop and
   target, in its regime, before its time is up and of quality 30 or more.
   */
  lemma StaysOpenIff(p: Position, m: Market)
    ensures Evaluate(p, m).reason.None? <==>
              m.indexTick || (Awake(p, m) && Inside(p, m) && m.elapsed < Patience(m) && m.quality >= 30.0)
  {
  }

  /** Exactly when a signal closes it, on a tick of its own and ahead of every other reason. */
  lemma SignalReasonsIff(p: Position, m: Market)
    ensures Evaluate(p, m).reason == Some(SignalFlip) <==>
              !m.indexTick && (|| (p.action == "BUY" && (m.cvd < -5.0 || m.sTotal < -40.0))
                               || (p.action == "SELL" && (m.cvd > 5.0 || m.sTotal > 40.0)))
    ensures Evaluate(p, m).reason == Some(AstoExit) <==>
              && !m.indexTick && -50.0 < m.asto < 50.0
              && (p.action == "BUY" ==> m.cvd >= -5.0 && m.sTotal >= -40.0)
              && (p.action == "SELL" ==> m.cvd <= 5.0 && m.sTotal <= 40.0)
  {
  }

  /** Exactly when a price or the regime closes it: the target ahead of the stop, the stop ahead of the regime. */
  lemma PriceReasonsIff(p: Position, m: Market)
    ensures Evaluate(p, m).reason == Some(Tp1Hit) <==> Awake(p, m) && !p.runnerActive && AtTarget(p, m)
    ensures Evaluate(p, m).reason == Some(Tp2Hit) <==> Awake(p, m) && p.runnerActive && AtTarget(p, m)
    ensures Evaluate(p, m).reason == Some(SlHit) <==>
              Awake(p, m) && !p.runnerActive && !AtTarget(p, m) && AtStop(p, m)
    ensures Evaluate(p, m).reason == Some(InvHuntSl) <==>
              Awake(p, m) && p.runnerActive && !AtTarget(p, m) && AtStop(p, m)
    ensures Evaluate(p, m).reason == Some(RegimeShift) <==>
              && Awake(p, m) && (p.action == "BUY" || p.action == "SELL")
              && !AtTarget(p, m) && !AtStop(p, m) && RegimeTurned(p, m)
  {
  }

  /** Exactly when waiting closes it, and for which of the three reasons; and when falling quality does. */
  lemma StagnationReasonsIff(p: Position, m: Market)
    ensures Evaluate(p, m).reason == Some(RegimeStall) <==>
              && Awake(p, m) && Inside(p, m) && m.elapsed >= Patience(m)
              && m.hurst < 0.45 && m.elapsed >= 180.0
    ensures Evaluate(p, m).reason == Some(OptimalStopping) <==>
              && Awake(p, m) && Inside(p, m) && m.elapsed >= Patience(m)
              && (m.hurst >= 0.45 || m.elapsed < 180.0)
              && m.recentRange.Some? && m.recentRange.value < 0.1 * m.atr
    ensures Evaluate(p, m).reason == Some(ThetaStall) <==>
              && Awake(p, m) && Inside(p, m) && m.elapsed >= Patience(m)
              && (m.hurst >= 0.45 || m.elapsed < 180.0)
              && (m.recentRange.None? || m.recentRange.value >= 0.1 * m.atr)
    ensures Evaluate(p, m).reason == Some(QualityDecay) <==>
              Awake(p, m) && Inside(p, m) && m.elapsed < Patience(m) && m.quality < 30.0
  {
  }

  /**
   What a tick writes back: on a tick of the index nothing; otherwise a runner's best price, the regime of
   the first tick evaluated, and the runner flag exactly when the first target is hit.
   */
  lemma WritesBack(p: Position, m: Market)
    ensures var p' := Apply(p, Evaluate(p, m).updates);
            if m.indexTick then p' == p
            else p' == p.(
              localHigh := if p.runnerActive && (p.localHigh == 0.0 || p.localHigh < m.price) then m.price
                           else p.localHigh,
              entryRegime := if p.entryRegime == "" then m.regime else p.entryRegime,
              runnerActive := p.runnerActive || (Awake(p, m) && AtTarget(p, m)))
  {
  }

  // ---------------------------------------------------------------- one tick

  /** The partial exit fires exactly on an unactivated position whose own tick reaches the first target. */
  lemma PartialIff(p: Position, m: Market)
    ensures Evaluate(p, m).partial <==>
              && Awake(p, m) && !p.runnerActive
              && (|| (p.action == "BUY" && m.price >= p.entry + 1.2 * m.atr)
                  || (p.action == "SELL" && m.price <= p.entry - 1.2 * m.atr))
    ensures Evaluate(p, m).partial ==> Evaluate(p, m).reason == Some(Tp1Hit)
    ensures Apply(p, Evaluate(p, m).updates).runnerActive <==> p.runnerActive || Evaluate(p, m).partial
  {
  }

  /**
   A runner that is not closed on its own tick is in profit, whatever its stored high: its price is above
   the entry and above half-way from there to the best price seen.
   */
  lemma RunnerWithoutExitIsInProfit(p: Position, m: Market)
    requires p.runnerActive && p.action == "BUY" && !m.indexTick && Evaluate(p, m).reason.None?
    ensures m.price > TrailingStop(p.entry, NewHigh(p, m)) && m.price > p.entry
    ensures m.price < p.entry + 2.5 * m.atr
  {
  }

  /** The stop of a long runner never falls, as long as prices are positive. */
  lemma TrailingStopNeverFalls(p: Position, m: Market, next: Market)
    requires p.runnerActive && !m.indexTick && m.price > 0.0 && p.localHigh >= 0.0
    ensures var p' := Apply(p, Evaluate(p, m).updates);
            && p'.runnerActive && p'.localHigh == NewHigh(p, m) > 0.0
            && StopOf(p', next) >= StopOf(p, m)
  {
  }

  /**
   A short runner has no trailing stop: when neither target nor stop is reached, no price history
   changes what happens to it.
   */
  lemma ShortRunnerIgnoresItsHigh(p: Position, m: Market, high: real)
    requires p.action == "SELL"
    ensures Evaluate(p.(localHigh := high), m).reason == Evaluate(p, m).reason
  {
  }

  ghost predicate IsNumeral(s: string) {
    s != "" && forall i :: 0 <= i < |s| ==> '0' <= s[i] <= '9'
  }

  /** The daemon passes the regime as the numeral of its code, and then no regime shift ever closes a runner. */
  lemma NumeralsNeverShift(p: Position, m: Market)
    requires IsNumeral(m.regime)
    ensures Evaluate(p, m).reason != Some(RegimeShift)
  {
    assert "RANGING"[0] == 'R' && "CRASH"[0] == 'C' && "BOOM"[0] == 'B';
    assert '0' <= m.regime[0] <= '9';
  }
}
