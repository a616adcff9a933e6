# Verified kernels of the trading system

The repository is an options trading system: daemons that sense the market, route strategy intents,
reserve margin, place orders, book fills and close positions. This project models the stateful and
numerical kernels inside those daemons and proves what they keep over whole runs. Where the code does
not keep what its own text promises, the project gives an input that shows it and the exact condition
under which the promise holds; both are named below.

| file | what it models |
|---|---|
| `Margin.dfy` | the reserve, release and sync scripts over a wallet of cash, collateral and limit |
| `CapitalSync.dfy` | runs of the live wallet: boot, reservations, releases, limit edits, the 60-second poll |
| `RegimeTracker.dfy` | the Bayesian regime filter and the gate that reads it |
| `Throttle.dfy` | the sliding-window limiter of the router |
| `BudgetScaling.dfy` | proportional lot scaling, then reservation in the vault |
| `StrikeSelection.dfy` | strike rounding, the 15-step delta bisection, the iron condor |
| `OrderFlow.dfy`, `RustVpin.dfy` | trade signs, cumulative delta, VPIN buckets, and the Rust engine beside them |
| `SuperTrend.dfy` | the ratcheting bands of the oscillator |
| `PositionAccounting.dfy` | the portfolio engine of the execution bridge and its panic liquidation |
| `TokenBuckets.dfy`, `PacedGateway.dfy` | the three request limiters, and the gateway's with its sleeps |
| `BasketReconciler.dfy` | basket reconciliation: rollback, margin return, force fill, dead letters |
| `KineticBarrier.dfy`, `Liquidation.dfy` | the kinetic barrier and the position life cycle around it |
| `Sums.dfy`, `Reals.dfy`, `Basics.dfy` | shared sums, real arithmetic and small types |

State that the source updates in place is a class whose methods are proved against functions on values;
the theorems are about those functions and about runs of them. Money, prices, probabilities and clock
readings are exact reals, sizes of positions are integers. Every Redis script and every stretch of code
between two awaits is one atomic step, so an interleaving of tasks is a sequence of steps. Clock readings,
broker reports, market data and delta's distribution function are inputs.

## What does not hold

- **Lowering the capital limit clips ordinary releases.** The operator's write is visible to the release
  script before the controller's poll has moved the balances; a full release in that window is clipped
  (`CapitalSync.PendingCutClips`, exact condition `CapitalSync.ClipFiresIff`).
- **A strategy allowed in a regime the tracker does not know is vetoed there.** Every report above 0.6
  confidence of NEUTRAL, say, leaves no regime certain enough for the gate
  (`RegimeTracker.AllowedOutsideRegimeIsAlwaysVetoed`, exact confidence `RegimeTracker.OutsideAlwaysUncertainIff`).
- **The order throttle loses its limit when the wall clock is set back** (`Throttle.BackwardClockBreaksLimit`).
  On clocks set back by at most d the limit of ten holds in windows of 1.05 s - d and no longer ones, so in
  the full 1.05 s exactly when d is 0 (`Throttle.LimitHoldsIff`).
- **Iron condors can be inverted at expiry** (`StrikeSelection.ExpiryCondorInverts`, exact condition
  `StrikeSelection.ExpiryCondorOrderedIff`).
- **The two VPIN engines part at the first overfilled bucket**, and their trade signs differ at the mid
  (`RustVpin.SameTick`, `RustVpin.SameTicksSameEmissionsIff`, `RustVpin.SignsDisagreeIff`).
- **A shadow position stops the panic square-off** (`PositionAccounting.LiquidationFlattensAllIff`).
- **A fill through zero breaks the P&L identity** (`PositionAccounting.FillKeepsGapIff`).
- **The gateway's limiter admits up to twice its capacity in a moment** (`TokenBuckets.LazyLimiterOverruns`).
  With sleeps of any length it keeps the bound of the other two exactly when its capacity is below one token
  or it is never refilled (`TokenBuckets.EagerBoundIff`); with sleeps of at least a nap, also when the
  capacity is below two and every nap refills a token (`PacedGateway.PacedBoundIff`).
- **The API bucket goes into debt when the wall clock is set back** (`TokenBuckets.SetBackPutsBucketInDebt`).
  On clocks set back by at most d it never holds less than -d times the rate, so its tokens stay
  non-negative exactly when d or the rate is 0 (`TokenBuckets.RunKeepsFloor`, `TokenBuckets.NeverNegativeIff`).
- **Announced baskets are never reconciled**: their legs carry no order id
  (`BasketReconciler.AnnouncedBasketsPassUnseen`, exact condition `BasketReconciler.PassesUnseenIff`). A cancelled leg's partial fill stays open, and a partly
  filled leg with a `quantity` key is ordered again in full (`BasketReconciler.LegNeutralisedIff`,
  `BasketReconciler.ForceFillCompletesIff`).
- **A release that is clipped while cash is negative creates money** (`BasketReconciler.ReleaseAllExactIff`).
- **A position outside a basket stays in the portfolio after its exit and can be sold again; partial exits
  of shorts sell; the drawdown guard closes every leg but the first twice; hydration forgets the runner and
  the side** (`Liquidation.ExitBalanceIff`, `Liquidation.SplitBalanceIff`, `Liquidation.DrawdownBalance`,
  `Liquidation.HydrationRepeatsTp1`, `Liquidation.HydratedShortIsStopped`: each states its exact condition
  or amount).

## Model

| member | source | states |
|---|---|---|
| Margin.ReserveAdmitted | core/margin.py:35-58 | a reservation returns -1 exactly when the total does not cover it, -2 exactly when the total does and the cash does not cover half of it, and 1 otherwise; then it lowers the total by its amount and leaves max(collateral - half, 0); a refused one changes nothing |
| Margin.ReserveTwice | core/margin.py:35-58 | two reservations and one of their sum are admitted together and end in the same wallet |
| Margin.PathIndependence | core/margin.py:35-58 | a list of non-negative amounts is admitted one by one exactly when its sum would be admitted at once, and both end in the same wallet |
| Margin.OrderIndependence | core/margin.py:35-58 | every reordering of a list is admitted alike and ends in the same wallet |
| Margin.ReleaseCeiling | core/margin.py:60-92 | after a release with a positive limit the total is at most max(1.02 limit, collateral plus half the principal); it is the full credit exactly when not clipped |
| Margin.ReserveReleaseRoundTrip | core/margin.py:35-92 | reserving and releasing x restores the total and leaves max(collateral, x/2) unless clipped, and it is clipped exactly when the wallet already exceeded 1.02 of a positive limit |
| Margin.PartsStayNonNegative | core/margin.py:35-92 | reserve, and release of a non-negative amount, keep both parts non-negative |
| Margin.MarginManager.Reserve | core/margin.py:113-120 | one call is one reserve step on the wallet the execution type names, and leaves the other wallet alone |
| Margin.MarginManager.Release | core/margin.py:122-137 | one call is one release step, with the amount standing in for a missing original, and returns the new total |
| Margin.MarginManager.SyncCapital | core/margin.py:22-33 | one call moves both parts by their deltas and stores the limit, on one wallet only |
| CapitalSync.SystemController.constructor | daemons/system_controller.py:157-201 | boot overwrites the live wallet with 42.5 per cent of the limit in cash and as much in collateral, and remembers that allocation |
| CapitalSync.SystemController.PollOnce | daemons/system_controller.py:862-890 | one poll changes nothing while the limit is the one last seen; otherwise the allocation becomes 42.5 per cent of the limit in cash and that times the haircut in collateral, and the wallet moves by the change |
| CapitalSync.StepKeepsGood | core/margin.py:22-92 | every legal event keeps the books balanced and the collateral backed |
| CapitalSync.RunKeepsGood | core/margin.py:22-92 | so does every legal run of reservations, releases, limit edits and polls |
| CapitalSync.VaultConservation | daemons/system_controller.py:157-201 | from boot, cash + collateral + open reservations + losses + clipped equals the latest allocation plus profits; with nothing open and no loss the collateral is at least its allocation, and between two such points it never falls but for the change of its allocation |
| CapitalSync.CollateralNeverFalls | core/margin.py:22-92 | over any legal run from any wallet, clipped or not, that starts and ends with nothing reserved and loses nothing, the collateral ends at or above its start plus the change of its allocation |
| CapitalSync.ClipFiresIff | core/margin.py:77-92 | a release is clipped exactly when what the allocation and profits leave after everything still out, lost or clipped exceeds 1.02 of the limit key as it stands |
| CapitalSync.CalmRunIsNeverClipped | core/margin.py:60-92 | while no cut of the limit is pending and profits stay inside the hedge reserve, no release of the run is clipped |
| CapitalSync.CalmConservation | daemons/system_controller.py:862-890 | in such a run from boot nothing is lost to the ceiling |
| CapitalSync.PendingCutClips | daemons/system_controller.py:862-890 | reserve 20 of 100, lower the limit to 10, release: 42.5 of cash disappears |
| RegimeTracker.Tracker.Predict | daemons/meta_router.py:99-107 | the double loop computes the transition matrix applied to the posterior |
| RegimeTracker.Tracker.Update | daemons/meta_router.py:99-115 | an update replaces the posterior of a known asset by the filter step, and ignores an unknown one |
| RegimeTracker.PredictionRows | daemons/meta_router.py:91-107 | prediction from certainty of each regime is its row of the transition matrix, and of a mixture the mixture |
| RegimeTracker.StationaryIff | daemons/meta_router.py:91-107 | prediction alone leaves exactly the distribution 14/31, 11/31, 6/31 unchanged |
| RegimeTracker.PosteriorIsBayes | daemons/meta_router.py:99-115 | each posterior is prior times likelihood plus 0.05 as a part of the sum of the three, for the regime observed and the others |
| RegimeTracker.PosteriorIsProbability | daemons/meta_router.py:99-115 | for any confidence in [0,1] the posterior is a probability with every regime at least 1/23 |
| RegimeTracker.EvidenceIsKept | daemons/meta_router.py:99-115 | once a regime is at 0.60, repeats of it at confidence 0.7 or more keep it there |
| RegimeTracker.ThreeReportsConvince | daemons/meta_router.py:99-115 | from any probability, three or more reports of one regime at confidence 0.7 or more bring it to at least 0.60 |
| RegimeTracker.TwoReportsDoNotConvince | daemons/meta_router.py:99-115 | two are not enough: a start from which the second leaves it below |
| RegimeTracker.OutsideBoundAtDefault | daemons/meta_router.py:99-115 | at confidence 0.7 a label outside the three leaves every regime at 17/30 or less |
| RegimeTracker.OutsideAlwaysUncertainIff | daemons/meta_router.py:397-413 | such a label leaves every regime below 0.60 from every start exactly when its confidence is above 0.6 |
| RegimeTracker.OutsideContracts | daemons/meta_router.py:99-115 | one such update shrinks the L1 distance of two trackers to at most 7/13 |
| RegimeTracker.FilterForgets | daemons/meta_router.py:99-115 | n such updates shrink it to at most (7/13)^n of what it was |
| RegimeTracker.FilterForgetsAnyStart | daemons/meta_router.py:91-115 | so any two starts end within 2 (7/13)^n |
| RegimeTracker.HighestIsFirstMaximum | daemons/meta_router.py:117-121 | the best regime is the earliest whose posterior no other exceeds |
| RegimeTracker.GateDecides | daemons/meta_router.py:397-413 | exactly when gate 5 finds a lock violation, overrides, vetoes as uncertain below 0.60, or passes |
| RegimeTracker.AllowedOutsideRegimeIsAlwaysVetoed | daemons/meta_router.py:397-413 | a regime that a lock allows and the tracker does not model is always vetoed as uncertain when reported above 0.6 |
| RegimeTracker.AllowedRegimePassesAfterThree | daemons/meta_router.py:397-413 | three confident reports of an allowed, modelled regime make it the best regime and pass the gate |
| Throttle.RegulatoryCircuitBreaker.CheckThrottle | daemons/meta_router.py:169-181 | one call drops expired entries from the front and admits when fewer than ten are left |
| Throttle.AdvanceKeepsInv | daemons/meta_router.py:169-181 | one call of a clock that does not step back keeps the history sorted and what it dropped expired, and admits exactly when the check says so |
| Throttle.RunKeepsSpread | daemons/meta_router.py:169-181 | on a clock set back by at most d, admissions ten apart are more than 1.05 s - d apart |
| Throttle.AtMostTenPerWindow | daemons/meta_router.py:158-181 | over every run of a non-decreasing clock no closed interval of 1.05 s contains more than ten admissions |
| Throttle.RefusedIffWindowFull | daemons/meta_router.py:169-181 | a call is refused exactly when ten admissions lie in the 1.05 s that end with it |
| Throttle.BackwardClockBreaksLimit | daemons/meta_router.py:169-181 | with a clock set back by 1.5 s eleven admissions fall within half a second |
| Throttle.LimitHoldsIff | daemons/meta_router.py:158-181 | at most ten admissions in every window of a length, on all clocks set back by at most d, exactly when the length is at most 1.05 s - d (or the window is empty); in the full 1.05 s exactly when d is 0 |
| BudgetScaling.EnforceHardBudgetScaling | daemons/meta_router.py:518-544 | the loops over the intents compute the scaled batch and touch nothing else; what that batch is, ScaledIntent and LittleIsLeft say |
| BudgetScaling.ScaledIntent | daemons/meta_router.py:518-544 | an intent is left alone when the batch fits, nothing is available or it is not live; otherwise it gets the greatest whole number of base lots (25, 15, 10 or 1) within lots times available over required, and stays live exactly when the available margin is a fifth of the required or more |
| BudgetScaling.LittleIsLeft | daemons/meta_router.py:518-544 | what a scaled, live batch leaves of the available margin is worth less than one base lot for each live intent |
| BudgetScaling.FinalDispatch | daemons/meta_router.py:633-664 | one dispatch reserves lots times 150,000 times (1 + iv); a refusal halts a live intent and demotes a paper one |
| BudgetScaling.ScaledLotsBound | daemons/meta_router.py:518-544 | rounding down to base lots never exceeds the proportional share |
| BudgetScaling.ScaledBatchFits | daemons/meta_router.py:518-544 | for non-negative lots, iv at least -1 and positive margin, the scaled requirements sum to at most the margin |
| BudgetScaling.ScaledBatchReserves | daemons/meta_router.py:518-664 | reserving them in any order is never refused for the total, and all are admitted exactly when the cash covers half of their sum |
| BudgetScaling.EmptyWalletRefuses | daemons/meta_router.py:518-544 | without positive margin nothing is scaled and the first requirement is refused for the total |
| StrikeSelection.SnapIsMonotone | core/options/chain_utils.py:59-61 | half-even rounding to the strike grid is monotone |
| StrikeSelection.SnapIsNearest | core/options/chain_utils.py:59-61 | and moves a price by at most half an increment |
| StrikeSelection.SnapIs | core/options/chain_utils.py:59-61 | the strike is the nearest multiple of the increment, and of two equally near the even multiple |
| StrikeSelection.FindStrikeForDelta | core/options/chain_utils.py:69-98 | the 15-step loop returns the snapped last midpoint of the bisection |
| StrikeSelection.BisectOrdered | core/options/chain_utils.py:88-96 | a search that goes up whenever another does never ends below it |
| StrikeSelection.CondorIsOrdered | core/options/chain_utils.py:150-170 | before expiry, for every distribution function and wing <= spread < 0.5, put wing <= put main <= call main <= call wing |
| StrikeSelection.OrderedIffDeltasSeparated | core/options/chain_utils.py:150-170 | that condition on the deltas is exact, on any strike grid: any other choice gives an inverted condor on some spot and distribution |
| StrikeSelection.ExpiryCondorOrderedIff | core/greeks.py:46-57 | at expiry the condor is ordered exactly when the spot plus and minus spot/32768 snap to one strike |
| StrikeSelection.ExpiryCondorInverts | core/greeks.py:46-57 | a spot of 22025 on a grid of 50 gives puts at 22050 and calls at 22000 |
| StrikeSelection.BracketIsKept | core/options/chain_utils.py:88-96 | every step keeps a bracket, and the last midpoint is an end of one of width 2^-15 of the interval |
| StrikeSelection.StrikeIsAccurate | core/options/chain_utils.py:69-98 | for a delta not increasing in the strike and a bracketed target, the strike is within spot/32768 plus half an increment of the crossing |
| OrderFlow.ClassifyTwice | daemons/market_sensor.py:753-788 | classifying one tick twice gives one sign and one state |
| OrderFlow.SymbolFlow.ClassifyTrade | daemons/market_sensor.py:753-788 | one call is the quote rule, the tick rule and the remembered last sign; what is remembered, the next three say |
| OrderFlow.RemembersLatestSide | daemons/market_sensor.py:753-788 | over every run the remembered sign is the side of the latest quoted trade off the mid, and 0 before there is one |
| OrderFlow.TradeIsSignedBy | daemons/market_sensor.py:753-788 | after any ticks a quoted trade at the mid is signed by that side, another quoted trade by its own, and an unquoted one not at all |
| OrderFlow.CvdIsNetFlow | daemons/market_sensor.py:828-833 | the cumulative delta of a run is the sum of the volumes so signed |
| OrderFlow.SymbolFlow.UpdateCvd | daemons/market_sensor.py:828-833 | one tick moves the cumulative delta by its signed volume |
| OrderFlow.SymbolFlow.UpdateVpin | daemons/market_sensor.py:835-872 | the drain loop terminates and computes the recursive drain |
| OrderFlow.DrainFacts | daemons/market_sensor.py:859-872 | a drain empties whole buckets, conserves the net signed volume and emits one value for all of them |
| OrderFlow.RunConserves | daemons/market_sensor.py:828-872 | over every run volume is whole buckets plus a residual below one, both sides fit in it, every value is in [0,1], and the cumulative delta is what has drained plus what is inside |
| OrderFlow.TickEmitsOneValue | daemons/market_sensor.py:859-872 | a tick emits exactly when it fills a bucket, and every emission is the imbalance it left |
| RustVpin.VpinEngine.Update | rust_extensions/tick_engine/src/modules/vpin.rs:22-44 | one call fills the bucket, emits and resets when it is full, and keeps the last hundred values |
| RustVpin.LastCapIsLastHundred | rust_extensions/tick_engine/src/modules/vpin.rs:33-36 | the retained series is the last hundred of all values |
| RustVpin.SignsDisagreeIff | rust_extensions/tick_engine/src/lib.rs:53-65 | the two classifiers disagree exactly on a quoted trade at the mid with a known last sign |
| RustVpin.SameTick | rust_extensions/tick_engine/src/modules/vpin.rs:22-44 | from equal buckets both emit on the same ticks with one value, and stay equal exactly when the tick did not overfill |
| RustVpin.SameEmissions | rust_extensions/tick_engine/src/modules/vpin.rs:22-44 | on a feed that never overfills a bucket the two emission sequences are the same |
| RustVpin.TogetherIff | rust_extensions/tick_engine/src/modules/vpin.rs:22-44 | fed the same signs, both hold the same bucket and have emitted the same values after every tick exactly when no tick overfills it |
| RustVpin.SameTicksSameEmissionsIff | rust_extensions/tick_engine/src/lib.rs:53-70 | the same end to end, each with its own classifier on the same ticks of whole volume, where the classifiers agree |
| RustVpin.EngineNeverEmitsMore | rust_extensions/tick_engine/src/modules/vpin.rs:22-44 | on every feed the Rust engine emits at most as often as the Python one, which emits volume/size times |
| SuperTrend.AdaptiveSuperTrendOscillator.Compute | daemons/market_sensor.py:164-207 | one bar updates the bands by the ratchet and returns an oscillator in [-100,100] |
| SuperTrend.KeptRanges | daemons/market_sensor.py:174-178 | the ranges kept are the true ranges of the latest bars, as many as the period allows |
| SuperTrend.RawBandsAre | daemons/market_sensor.py:172-185 | the raw bands lie evenly about the bar's midpoint, apart by twice the adaptive multiplier times the average of those ranges |
| SuperTrend.OscillatorIs | daemons/market_sensor.py:195-203 | the oscillator is 200 times the distance from the midpoint over the width of the bands, cut off at 100 and -100 |
| SuperTrend.UpperRatchet | daemons/market_sensor.py:176-193 | the stored upper band is the least raw upper band since its last restart |
| SuperTrend.LowerRatchet | daemons/market_sensor.py:176-193 | the stored lower band is the greatest raw lower band since its last restart |
| SuperTrend.BandsNest | daemons/market_sensor.py:176-193 | while neither restarts, each pair of bands lies inside every earlier one |
| SuperTrend.TradableRun | daemons/market_sensor.py:164-193 | on positive prices with a non-negative multiplier the upper band stays positive |
| SuperTrend.RatchetSinceBreakout | daemons/market_sensor.py:164-193 | so a restart is a breakout: the bands are the extremes since the last close at or beyond them |
| PositionAccounting.OpeningKeepsGap | daemons/unified_bridge.py:447-480 | an opening fill keeps realised + closing fees - cash - cost |
| PositionAccounting.ClosingKeepsGap | daemons/unified_bridge.py:447-480 | so does a closing fill that does not pass through zero |
| PositionAccounting.CrossingGap | daemons/unified_bridge.py:447-480 | what a fill through zero adds to it |
| PositionAccounting.FillKeepsGapIff | daemons/unified_bridge.py:447-480 | a fill keeps it exactly when it does not cross zero, or crosses at the one price at which the average does not matter |
| PositionAccounting.PnlIdentity | daemons/unified_bridge.py:447-491 | over every run that never crosses zero, realised P&L plus closing fees is net sale cash plus quantity times average |
| PositionAccounting.AverageBetweenOpenings | daemons/unified_bridge.py:447-480 | the average of an open position lies between its opening prices since it was last flat |
| PositionAccounting.RealizedUpdate | daemons/unified_bridge.py:480-491 | writing a row moves the sum over a reality by the change of that row |
| PositionAccounting.UnifiedExecutionBridge.UpdatePortfolio | daemons/unified_bridge.py:420-491 | one execution books one row, the Paper and Actual totals move by exactly the row changes, and an existing shadow row fails after its write |
| PositionAccounting.UnifiedExecutionBridge.LiquidateAll | daemons/unified_bridge.py:634-671 | the batches of ten book the liquidation of a prefix that ends with the first shadow row |
| PositionAccounting.LiquidatedAt | daemons/unified_bridge.py:634-671 | a row is flattened exactly when no shadow row precedes it |
| PositionAccounting.LiquidationFlattensAllIff | daemons/unified_bridge.py:634-671 | everything is flat exactly when no shadow row precedes another row |
| PositionAccounting.PanicFlatIsFlat | daemons/unified_bridge.py:634-671 | a panic fill leaves no position and books the whole cost basis |
| TokenBuckets.RunKeepsLevel | daemons/unified_bridge.py:171-183 | over every run of a clock that does not step back the tokens stay between zero and the capacity |
| TokenBuckets.RunKeepsFloor | daemons/order_reconciler.py:58-75 | on every clock set back by at most d they stay between -d times the rate and the capacity |
| TokenBuckets.FloorIsReached | daemons/order_reconciler.py:58-75 | draining the bucket and looking with the clock set back by d reaches that floor |
| TokenBuckets.NeverNegativeIff | daemons/order_reconciler.py:58-75 | tokens never go negative on clocks set back by at most d exactly when d or the rate is zero |
| TokenBuckets.SetBackPutsBucketInDebt | daemons/order_reconciler.py:52-67 | 180 tokens taken, and a look three seconds back leaves -10 |
| TokenBuckets.TakenWithinSupply | daemons/unified_bridge.py:171-183 | what is taken up to a time comes out of the tokens and the refill up to that time |
| TokenBuckets.SinceCreation | daemons/shoonya_gateway.py:33-47 | all three limiters grant at most capacity + rate (t - t0) since their creation, those that refill first on any clock |
| TokenBuckets.EagerWindow | daemons/order_reconciler.py:58-80 | the limiters that refill first grant at most capacity + rate (t - s) in every window, from any bucket and on any clock, set back or not |
| TokenBuckets.LazyWindow | daemons/shoonya_gateway.py:40-47 | the limiter that looks first grants at most twice the capacity + rate (t - s) |
| TokenBuckets.LazyWindowIsTight | daemons/shoonya_gateway.py:40-47 | and after an idle spell it does grant every whole token of its capacity twice within a moment |
| TokenBuckets.LazyLimiterOverruns | daemons/shoonya_gateway.py:34-47 | at one request a second, two within a tenth of a second: the eager bound is false of it |
| TokenBuckets.EagerBoundIff | daemons/shoonya_gateway.py:33-47 | with sleeps of any length it keeps the eager bound on every run and window exactly when its capacity is below one token or its rate is zero; so does any mixture of the three limiters' events |
| PacedGateway.PacedBoundIff | daemons/shoonya_gateway.py:40-47 | with sleeps of at least a nap between two looks of a caller, it keeps the eager bound exactly when the capacity is below one, the rate is zero, or the capacity is below two and the rate refills a token in every nap |
| PacedGateway.SlowRetriesAreEager | daemons/shoonya_gateway.py:40-47 | with room for one token and a nap that refills it, only the first entry finds a token without a refill |
| PacedGateway.TwoRoomGrants | daemons/shoonya_gateway.py:40-47 | with room for two, a run of paced calls that takes more than the capacity in one instant |
| TokenBuckets.WaitIsARun | daemons/order_reconciler.py:77-80 | a caller's wait is a run of attempts that takes its tokens once or not at all |
| TokenBuckets.ServedIff | daemons/order_reconciler.py:77-80 | from any bucket and on any clock a lone caller is served exactly when the capacity holds its request and some reading finds the supply |
| TokenBuckets.ServedByLastIff | daemons/unified_bridge.py:171-183 | on a clock that does not step back, exactly when the last reading finds it |
| TokenBuckets.APIBucket.CanConsume | daemons/order_reconciler.py:64-67 | says what an attempt now would do, and only refills |
| TokenBuckets.APIBucket.Consume | daemons/order_reconciler.py:69-75 | one attempt: refill, then take all or nothing |
| TokenBuckets.APIBucket.WaitAndConsume | daemons/order_reconciler.py:77-80 | the loop is the wait over its clock readings |
| TokenBuckets.BridgeRateLimiter.Acquire | daemons/unified_bridge.py:171-183 | the same wait for one token, refilling on entry |
| TokenBuckets.GatewayRateLimiter.Acquire | daemons/shoonya_gateway.py:40-47 | takes a token that is there without a refill, and otherwise waits |
| BasketReconciler.RollbackChosenIff | daemons/order_reconciler.py:187-226 | a rollback is chosen exactly when some leg with an order id is rejected or cancelled |
| BasketReconciler.WingFirstIsTheStableSort | daemons/order_reconciler.py:247-252 | the forced legs are in the only order with every BUY first that keeps the order within each side and loses nothing |
| BasketReconciler.RollbackLeavesUnclosed | daemons/order_reconciler.py:391-425 | after the closing orders each instrument is left with exactly the fills of the legs without an order id and of those reported rejected, cancelled or pending |
| BasketReconciler.ClosedByStatus | daemons/order_reconciler.py:408-425 | status by status, the closing order of a placed leg with a fill: the whole fill on the other side for complete and partly filled, none for the rest |
| BasketReconciler.LegNeutralisedIff | daemons/order_reconciler.py:408-425 | a leg's closing order flattens it exactly when it holds nothing, or has an order id and is complete or partly filled |
| BasketReconciler.RollbackNeutralises | daemons/order_reconciler.py:391-425 | when that holds of every leg the basket's exposure is zero in every instrument |
| BasketReconciler.CancelledFillStaysOpen | daemons/order_reconciler.py:400-411 | a leg cancelled after 20 of 50 lots keeps them open |
| BasketReconciler.ReleaseAllExactIff | daemons/order_reconciler.py:399-406 | on any wallet a batch of positive releases raises the vault by exactly their sum, or, once they pass 1.02 of a positive limit, by less or by more as the credited cash is positive or negative |
| BasketReconciler.FreedIsRefusedMargin | daemons/order_reconciler.py:399-406 | what is released to a wallet is the margin of its placed legs reported rejected or cancelled: live and actual legs to the live wallet, paper legs to the paper wallet |
| BasketReconciler.RollbackReturnsMarginIff | daemons/order_reconciler.py:391-406 | a rollback raises any wallet by exactly that margin, exactly when it is nothing, or stays within 1.02 of a positive limit, or brings the cash to zero |
| BasketReconciler.ForceFillCompletesIff | daemons/order_reconciler.py:334-349 | force fill completes a leg exactly when it has an id and is complete, or partly filled with nothing left or no `quantity` key or no fill, or pending without a fill |
| BasketReconciler.ForceFillOrdersLeg | daemons/order_reconciler.py:187-252 | status by status, the force-fill order of one leg: `quantity`, else what remains or `qty`, else one lot, on the leg's own side |
| BasketReconciler.PartialFillOrderedAgain | daemons/order_reconciler.py:343 | a leg of quantity 50 with 20 filled ends 20 over |
| BasketReconciler.ForceFillBalance | daemons/order_reconciler.py:187-252 | without a rejection, fills plus force-fill orders equal the intended position plus the legs' excess, in every instrument |
| BasketReconciler.ForceFillExactWithoutQuantityKey | daemons/order_reconciler.py:334-349 | with consistent reports and only `qty` keys they equal the intended position |
| BasketReconciler.PassesUnseenIff | daemons/order_reconciler.py:187-226 | a basket is taken for fully filled with no filled leg exactly when none of its legs has an order id |
| BasketReconciler.AnnouncedBasketsPassUnseen | core/execution_wrapper.py:89-94 | whatever its reports say, an announced basket is taken for fully filled and nothing is sent or freed |
| BasketReconciler.EveryFourthIsDeadLettered | daemons/order_reconciler.py:355-379 | of the rollbacks triggered for one basket exactly every fourth is dead-lettered |
| BasketReconciler.OrderReconciler.Track | daemons/order_reconciler.py:562-568 | an announced basket is stored under its id |
| BasketReconciler.OrderReconciler.ForceFill | daemons/order_reconciler.py:334-351 | sends one market order per leg, in the order given |
| BasketReconciler.OrderReconciler.TriggerRollback | daemons/order_reconciler.py:353-425 | a fourth rollback is handed to the intervention queue; any other sends the closing orders and releases the refused legs' margins, wallet by wallet |
| BasketReconciler.OrderReconciler.Reconcile | daemons/order_reconciler.py:168-254 | pops the basket, then rolls back on a rejection or else force-fills BUYs first; nothing happens for an unknown basket |
| KineticBarrier.StaysOpenIff | core/risk/barriers.py:134-258 | exactly when a tick closes nothing: an index tick, or strictly between stop and target, in its regime, before its time is up and of quality 30 or more, every threshold written out, for longs, shorts and runners |
| KineticBarrier.SignalReasonsIff | core/risk/barriers.py:169-190 | exactly when a signal flip or the oscillator closes a position |
| KineticBarrier.PriceReasonsIff | core/risk/barriers.py:192-223 | exactly when the first target, the second, a stop, the runner's stop or the regime closes it |
| KineticBarrier.StagnationReasonsIff | core/risk/barriers.py:225-237 | exactly when waiting closes it, for each of the three reasons, and when falling quality does |
| KineticBarrier.WritesBack | core/risk/barriers.py:149-163 | what a tick writes back: a runner's best price, the first regime, the runner flag at the first target |
| KineticBarrier.PartialIff | core/risk/barriers.py:159-197 | the partial exit fires exactly on an unactivated position whose own tick reaches the first target with no earlier exit |
| KineticBarrier.RunnerWithoutExitIsInProfit | core/risk/barriers.py:149-203 | a long runner that is not closed on its tick is above its entry and above its stop |
| KineticBarrier.TrailingStopNeverFalls | core/risk/barriers.py:153-157 | one tick never lowers a runner's stop |
| KineticBarrier.ShortRunnerIgnoresItsHigh | core/risk/barriers.py:207-223 | a short position has no trailing stop |
| KineticBarrier.NumeralsNeverShift | daemons/liquidation_daemon.py:326 | the daemon passes the regime as a numeral, and then no regime shift closes a runner |
| Liquidation.ExitBalanceIff | daemons/liquidation_daemon.py:718-773 | a full exit keeps sold plus held for every symbol, except exactly that a nonzero position outside a basket is sold and kept |
| Liquidation.PartialExitSellsShare | daemons/liquidation_daemon.py:684-707 | a partial exit sells the greatest whole number of lots within the share and keeps the rest; when that is nothing or everything it is a full exit |
| Liquidation.FirstTargetSells | daemons/liquidation_daemon.py:454-458 | the first-target exit of n lots sells the greatest whole number within 0.7 n at the tick's price and keeps the others as a runner; a single lot is sold in full |
| Liquidation.SplitBalanceIff | daemons/liquidation_daemon.py:684-707 | a partial exit keeps it for a long position and for no other |
| Liquidation.SequencedExit | daemons/liquidation_daemon.py:741-769 | a basket exit sells every nonzero leg exactly and removes exactly those legs |
| Liquidation.ExitSends | daemons/liquidation_daemon.py:718-773 | the orders of a full exit, one for each nonzero leg: side, size, and the given price for the triggering symbol and none for the others |
| Liquidation.BasketExitShortsFirst | daemons/liquidation_daemon.py:741-769 | every short leg is bought back before any long leg is sold |
| Liquidation.ShortsFirstIsTheStableSort | daemons/liquidation_daemon.py:747 | the closing order is the only one with longs last that keeps the order on each side |
| Liquidation.DrawdownBalance | daemons/liquidation_daemon.py:588-594 | what the drawdown guard oversells on any basket, with legs of size zero too: a single leg once; of more, every leg behind the first nonzero one that is not sheltered by two zero legs behind it |
| Liquidation.DrawdownClosesTwice | daemons/liquidation_daemon.py:549-596 | without legs of size zero, that is every leg but the first |
| Liquidation.RestIsSoldAgain | daemons/liquidation_daemon.py:718-773 | what a list of legs sells once their basket has been closed |
| Liquidation.ListedExitsAreARun | daemons/liquidation_daemon.py:523-534 | a loop that exits listed positions is a run of exits of listed objects, so the theorems about runs cover it |
| Liquidation.ListedSlashesAreARun | daemons/liquidation_daemon.py:517-519 | so is a loop that reduces listed positions by a share |
| Liquidation.StepKeepsLife | daemons/liquidation_daemon.py:435-460 | every event for any symbol, exits and reductions of listed objects included, keeps what is known of one long position |
| Liquidation.RunnerLifecycle | daemons/liquidation_daemon.py:435-460 | between hydrations the first-target exit fires at most once, the position is a runner exactly after it, and its high is the maximum of the prices evaluated since |
| Liquidation.SoldOverRun | daemons/liquidation_daemon.py:684-773 | lots sold plus lots left are the starting size until a full exit, which sells exactly the rest; the run oversells exactly when something is sold after that, as an exit of a removed object does |
| Liquidation.StopNeverFallsOverRun | core/risk/barriers.py:153-157 | along a run the trailing stop never falls |
| Liquidation.HydrationRepeatsTp1 | core/risk/portfolio_state.py:201-215 | a runner takes no partial exit; hydrated, it takes one again exactly on its own tick past the first target with no earlier exit |
| Liquidation.HydratedShortIsStopped | core/risk/portfolio_state.py:201-215 | a hydrated short is judged as a long; exactly when its profit target is taken for a stop, over all prices and signals |
| Liquidation.SingleLegIsSoldTwice | daemons/liquidation_daemon.py:771-773 | two exits of a position without a basket sell twice its size |
| Liquidation.PortfolioState.GetBasket | core/risk/portfolio_state.py:184-186 | the legs that share a parent, in order |
| Liquidation.PortfolioState.RemovePosition | core/risk/portfolio_state.py:188-189 | afterwards the symbol has no entry, every other symbol has the entry it had, and symbols stay distinct |
| Liquidation.PortfolioState.UpdatePosition | core/risk/portfolio_state.py:191-194 | afterwards a symbol that had an entry has the new one, every other symbol has what it had, and symbols stay distinct |
| Liquidation.LiquidationDaemon.AttemptExit | daemons/liquidation_daemon.py:718-773 | the method is the exit step: remove, close the basket in sequence, or send one order |
| Liquidation.LiquidationDaemon.AttemptPartialExit | daemons/liquidation_daemon.py:684-707 | the method is the partial exit step |
| Liquidation.LiquidationDaemon.EvaluateBarriers | daemons/liquidation_daemon.py:435-460 | one tick evaluates, writes the updates back and exits as the verdict says |
| Liquidation.LiquidationDaemon.CloseBasket | daemons/liquidation_daemon.py:588-594 | the drawdown guard exits each leg of the basket it listed |

## Left out

- Floating-point rounding, Lua number printing and the NUMERIC(15,2) columns: numbers are exact.
- Redis, ZeroMQ, PostgreSQL, the broker API, alerts, heartbeats, dashboards and provisioning: input and output only.
- Writers of the vault keys that bypass the margin manager (daemons/snapshot_manager.py:702-706, dashboard/api/main.py:406-409, daemons/unified_bridge.py:430-437 and 547-556): vault theorems are for runs through it.
- Non-negative cash across a shrinking limit: the sync script does not ensure it, so only conservation is claimed there.
- `exp`, `erf` and `log` of the pricing code: the delta is an arbitrary distribution function, monotone only where stated; option types other than call and put, and the symbol table behind the strike increment, are not part of this model.
- The other vetoes of the router, alpha decay, intent merging, and the code after the first `return` of `broadcast_decisions`.
- The maximum lengths of the Python VPIN and CVD series, the branch that shares one Rust engine between symbols, and 64-bit overflow in Rust.
- Order actions in mixed or lower case, which parts of the code compare with "BUY" exactly and parts after upper-casing.
- The lookup of a broker report by parent id (daemons/order_reconciler.py:303-330), which can return a sibling leg's report: reports are inputs, and a rollback may read others than the reconciliation did.
- An order still resting at the broker when its leg is force-filled: nothing cancels it, and a later fill of it is not modelled.
- Failed sends and their retries, malformed numbers in reports, and tasks that interleave inside one exit.
- The positional and zero-day barriers, hedging and rolls: positions of other life cycles take part in runs through the exits and reductions that those decide.
- Liquidation.RunnerLifecycle: for positive prices, and between two hydrations; what hydration undoes is stated separately.
- The length of a sleep between two tries of a limiter: runs allow any, except in PacedGateway, which has a least one and no greatest.
- A tick whose hedge has just closed its own position: what it still orders appears as an exit or a reduction of a listed object.
