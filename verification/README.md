# Verified model of the BinnAIR trading engine

A Dafny model of the parts of the engine whose correctness spans many steps and several mutable
components, with proofs over every run. `dafny verify dfyconfig.toml` checks all of it.

The project has four connected pieces.

**The tick machine.** `Engine.dfy` defines one engine as a value (position book, signal windows, loss
breaker, strategy, paper adapter, orders, trades, snapshot log) and every step that moves it: ticks,
trading switches, reconfigurations, startup synchronisation and restarts over the same database.
`TradingEngine.dfy` and the component files (`PositionManager.dfy`, `SignalPolicy.dfy`,
`RiskChecker.dfy`, `Strategy.dfy`, `ExitManager.dfy`, `Storage.dfy`, `PaperExchange.dfy`) hold the
mutable classes, each method proved equal to its function on values. Predictions, prices, balances,
clock readings and exchange replies are arbitrary inputs of a tick. On top stand the run theorems:
`CrashRecovery.dfy`, `PositionSync.dfy`, `LossBreaker.dfy`, `SignalProvenance.dfy`,
`LedgerConservation.dfy`, `EntrySpacing.dfy`, `GateMisreads.dfy`, `PaperAgreement.dfy`,
`PaperDisagreement.dfy`, `ExitReasons.dfy`, `LiveReasons.dfy`.
`TickShapes.dfy` says once what a tick can do, for all of them; `TickDecisions.dfy` and `LossLimit.dfy` say
exactly when it does it. Orders, trades and positions carry the run
id they were made under, a reconfiguration or a new process may switch it, and the gate's queries filter by
it and by the day in Korea.

**The runtime control protocol.** `RuntimeControl.dfy` defines the shared state row, the command table,
the sessions and the steps of the two processes; `ControlProcesses.dfy` holds the service, the poller
and the repositories as classes over shared tables; `ControlInvariants.dfy`, `ControlAgreement.dfy`
and `RowHistory.dfy` prove what every interleaving keeps. A boot lays the saved patch over the environment before the poller
does.

**Runtime configuration.** `RuntimeConfig.dfy` nests and merges patches; `LayeredConfig.dfy` compares the
engine's layered merging with the API's one-shot merging. The control theorems use it:
after a poll the engine's configuration is the one the API shows. `PatchKeys.dfy` states how keys are named.

**Adaptive settings and incremental views.** `Calibration.dfy` (percentile threshold), `Regime.dfy` (EMA,
ATR, regimes), `SignalThresholds.dfy` (configured thresholds), `CandleGate.dfy` (one inference a candle,
predictor reloads), `Autopilot.dfy` (what the controller pushes, down to the signal and the order),
`Rollup.dfy` (trade results and the daily row).

Prices, quantities and results are reals; instants are integer microseconds.

## What the code does not guarantee

Some promises hold only under a condition. Each is stated as an if-and-only-if beside a concrete input
that breaks it.

- A start issued while the engine is down leaves it trading after boot while the row, and so the API,
  says off, until something is saved, started or stopped (`StartBeforeBootMisleads`, `AgreesAfterPoll`).
- The engine's poll interval never comes back down: a patch that once chose a longer candle keeps it
  raised, unless a patch sets the interval (`EngineKeepsSlowPoll`, `SavedPollAgreesIff`).
- The daily figure the risk gate reads adds sells and subtracts buys since midnight in Korea, of one run id.
  A position held across midnight, or across a switch of the run id, puts its whole cost into it: buy at 100,
  sell at 110 and the figure is 110 (`SingleSymbolGate`, `GateReadsRealizedIff`, `MidnightMisleadsGate`,
  `SwitchMisleadsGate`).
- The duplicate check sees only orders of the run id in force, so a switch lets an entry through inside the
  window (`EntriesKeepDistanceIff`, `SwitchSkipsSpacing`).
- One candle can confirm a signal twice: when the candle table gives no answer at the gate or after the
  inference, or when a patch reloads the predictor (`ConfirmationsAreDistinctIff`, `SilentGateRepeatsCandle`,
  `SilentTableRepeatsCandle`, `ReloadRepeatsCandle`).
- The paper adapter ignores a sell when flat and starts empty in a new process, so it disagrees with the
  position manager from the first short or the first recovered position on (`AgreeIffNeverShort`,
  `ShortDisagrees`, `RestartDisagrees`).
- A live synchronisation that finds the exchange on the other side takes over side, quantity and entry price
  and keeps the exit levels, so a close may be recorded as TAKE_PROFIT and lose (`ReasonFixesSignIff`,
  `FlippedTakeProfitLoses`).
- A position adopted from the exchange does not empty the signal window, so live a model exit may rest on
  predictions made before it (`ConfirmedSinceRowIff`, `AdoptedPositionClosedAtOnce`,
  `AdoptedCloseIsReachable`).
- A repeated synchronisation is a no-op unless the exchange reports no average price and two mark prices
  disagree about dust (`SyncAgain`, `MarkMatters`).
- `compute_threshold` promises not to go below the configured threshold and keeps that promise, but the
  multiplier applied after it does not: the predictor ends up below it under a discount the window's scores
  do not make up for (`InForceBelowConfiguredIff`, `UndercutsIff`, `LowVolUndercuts`,
  `QuietMarketUndercuts`).

## Where the code and its descriptions differ

- The `normal` regime is declared but no input reaches it: every regime is one of the other four, or
  unknown.
- `performance_daily` is documented as a UTC day; the code takes the day in Korea, and the model follows
  the code.

## Model

| member | source | states |
|---|---|---|
| TradingEngines.TradingEngine.ProcessMarketTick | src/binnair_trading_engine/engine/core.py:584-793 | One tick of the mutable engine (synchronise, exit branch, soft signal, strategy, hard risk, order, position, log) leaves all its components in the state the run theorems are about, for every clock reading, prediction, balance and exchange answer. |
| TradingEngines.TradingEngine.RecoverPositionsFromDb | src/binnair_trading_engine/engine/core.py:239-260 | Recovery restores each listed symbol's newest open row and keeps every other position already held. |
| TickShapes.TickMoves | src/binnair_trading_engine/engine/core.py:584-793 | Every tick, paper or live, is at most two writes: one by the synchronisation and one more, each adding at most one snapshot row whose kind fixes how book and breaker move. |
| TickShapes.EntryOrderApproved | src/binnair_trading_engine/engine/core.py:605-703 | An entry order leaves the engine only when it is flat on the symbol, trading is on, the policy confirmed, the strategy sized and the risk gate passed. |
| TickShapes.PaperTick | src/binnair_trading_engine/engine/core.py:584-793 | On paper every tick does nothing to the stores, enters or exits; entering and exiting move orders, trades, log, book and adapter together by one consistent fill. |
| TickDecisions.ExitHappensIff | src/binnair_trading_engine/engine/core.py:795-989 | Over every run, paper or live, whenever the order would fill: the position found held is closed by the tick if and only if its take-profit or stop-loss is reached (and not left to the exchange), or, with neither reached, N opposite predictions are confirmed after the minimum hold; reason, price, result, order and row follow, and otherwise nothing is ordered, written or closed. |
| TickDecisions.UnfilledExit | src/binnair_trading_engine/engine/core.py:881-945 | Live, when it would not: a flat exchange or a rejection comes down to a synchronisation, a lost order writes nothing, any other state is only listed. |
| TickDecisions.EntryHappensIff | src/binnair_trading_engine/engine/core.py:605-720 | Over every run, paper or live: an entry order is submitted if and only if nothing is held, trading is on, N predictions of one direction are confirmed in a mode that trades it, the strategy sizes an order, no loss pause runs, the day's figure, the position and the notional are within their limits, none of the newest orders is a duplicate, and the exchange answers; otherwise a flat engine does nothing. |
| TickDecisions.EntryIsAsWanted | src/binnair_trading_engine/engine/core.py:705-783 | The submitted entry is the strategy's order, on paper in quantity and price, and once filled at a known price opens a position with the strategy's levels and writes its row. |
| TickDecisions.VerdictIff | src/binnair_trading_engine/risk/default.py:52-120 | The gate passes exactly the intents its five limits allow, stated on equity, stored figures, held quantity and listed orders, and names the first limit broken. |
| TickDecisions.TickRecords | src/binnair_trading_engine/engine/core.py:795-861 | A tick records the prediction it asked for exactly once, on its own symbol: with no level reached when a position is held, with trading on when flat; one that waits for a candle is not recorded. |
| TickDecisions.ReconfigureTakesEffect | src/binnair_trading_engine/engine/core.py:100-205 | A reconfiguration replaces settings, run id and every risk limit but the position cap and the fixed loss limit, empties the windows exactly when confirmations or mode change, and leaves everything else alone. |
| TickDecisions.RestartStartsOver | src/binnair_trading_engine/app/bootstrap.py:29-112 | A new process starts with trading off, empty windows, a clear breaker and an empty adapter, on the same stores; a trading switch changes the flag alone. |
| LossLimit.DailyLossStopsEntries | src/binnair_trading_engine/risk/default.py:75-83 | No tick submits an entry while the day's figure is below minus the percentage of equity, or below the fixed limit without percentage or equity. |
| LossLimit.RealizedLossStopsEntries | src/binnair_trading_engine/risk/default.py:75-83 | On paper, one symbol and run id: once the day's closes have lost more than the percentage of equity (a position held at midnight counting at its cost), no entry is submitted that day. |
| LossLimit.SubmittedWithinLimits | src/binnair_trading_engine/risk/default.py:85-107 | An entry submitted on paper leaves the net quantity within the position limit and commits at most the percentage of equity and five cents. |
| PositionManagement.PositionManager.ClosePosition | src/binnair_trading_engine/position/manager.py:72-115 | Nothing happens unless a position with quantity is held; otherwise it is removed and its result depends on side, entry, exit and quantity. |
| SignalPolicies.ConsecutiveSignalPolicy.Record | src/binnair_trading_engine/signal/policy.py:60-61 | The window is the last N of the old window and the new action. |
| SignalPolicies.ConsecutiveSignalPolicy.IsConsecutive | src/binnair_trading_engine/signal/policy.py:63-65 | True exactly when the window is full and uniform. |
| SignalPolicies.ConsecutiveSignalPolicy.SetConsecutiveRequired | src/binnair_trading_engine/signal/policy.py:45-51 | A changed N (at least 1) empties all windows; an unchanged one empties none. |
| SignalPolicies.ConsecutiveSignalPolicy.SetMode | src/binnair_trading_engine/signal/policy.py:53-58 | A changed mode empties all windows. |
| RiskChecking.DefaultRiskChecker.Check | src/binnair_trading_engine/risk/default.py:52-120 | The first failing gate, in order, decides: loss pause, daily loss, position, notional, duplicate; the only change is that an expired pause is forgotten. |
| RiskChecking.DefaultRiskChecker.RecordTradeResult | src/binnair_trading_engine/risk/default.py:122-135 | Losses count and may start a pause, wins clear both, break-even results change nothing. |
| Stores.Storage.GetDailyPnl | src/binnair_trading_engine/storage/postgres.py:109-118 | The loop's figure is sells minus buys minus commission, over the given run's trades since midnight in Korea. |
| Stores.TradeCounts | src/binnair_trading_engine/storage/postgres.py:109-118 | One more trade moves the figure by its proceeds or its cost, less the commission, exactly when it is the run's and not before the instant. |
| Domain.TodayStartsAtMidnight | src/binnair_trading_engine/infra/timezone.py:33-36 | An instant counts for today exactly when its Korean day is today's or later. |
| Stores.Storage.GetRecentOrders | src/binnair_trading_engine/storage/postgres.py:56-65 | The filter and sort loops list orders of that run on that symbol only, newest first, as many as asked for or all there are, and none left out is newer than one listed. |
| Stores.RecentAreNewest | src/binnair_trading_engine/infra/persistence/repositories/postgres.py:437-449 | The same of the list the tick machine's gate is shown. |
| Stores.NewestFirstSorts | src/binnair_trading_engine/storage/postgres.py:64 | The sort orders by creation time, newest first, and loses or invents nothing. |
| Stores.Storage.GetLatestOpen | src/binnair_trading_engine/infra/persistence/repositories/postgres.py:573-605 | One pass finds, for each symbol asked for, its newest row, and keeps it only if open with a quantity. |
| Stores.AscendingReversed | src/binnair_trading_engine/storage/postgres.py:56-65 | Orders saved in creation order are listed exactly in reverse. |
| PaperTrading.PaperExchange.PlaceMarketOrder | src/binnair_trading_engine/exchange/paper.py:32-109 | A paper order fills at once at the given price and moves the net position by the blend, reduce or ignore rules. |
| PaperTrading.FillExactly | src/binnair_trading_engine/exchange/paper.py:32-109 | From nothing a buy is held at its price and a sell ignored; otherwise the net quantity moves by the fill, what is left costs what was held plus what was bought, and nothing left is forgotten. |
| CrashRecovery.RecoveryRebuildsBook | src/binnair_trading_engine/engine/core.py:239-260 | After any run of ticks, syncs, reconfigurations and restarts, paper or live, recovering from the log rebuilds exactly the positions held (side, quantity, entry, TP, SL, opening time). |
| CrashRecovery.RestartKeepsLog | src/binnair_trading_engine/engine/core.py:239-260 | A restart keeps a symbol recoverable if and only if it recovers that symbol or its log holds nothing open. |
| CrashRecovery.LogReadsOpenThenClosed | src/binnair_trading_engine/storage/postgres_db.py:186-214 | Each symbol's rows always read (OPEN+ CLOSED)*, possibly cut short, each CLOSED row closing exactly the row before it; restarts included. |
| CrashRecovery.RunKeepsLog | src/binnair_trading_engine/engine/core.py:359-443 | The invariant behind both: whatever is held is what the symbol's newest row says. |
| PositionSync.SyncConverges | src/binnair_trading_engine/engine/core.py:306-443 | After one synchronisation a position is held exactly when the exchange reports a positive quantity worth at least the minimum order (5 when none is configured) at its average price, or at the mark without one; same side, quantity within a millionth; other symbols untouched. |
| PositionSync.SyncOutcome | src/binnair_trading_engine/engine/core.py:306-443 | Case by case: nothing when it matches; taken over at the exchange's side, quantity and price, with the configured levels or those of the position replaced; closed at the mark (or the entry without one) with the result by side and the reason of the level reached; and the one row each writes. |
| PositionSync.SyncAgain | src/binnair_trading_engine/engine/core.py:306-443 | A second synchronisation with the same exchange state changes nothing at all if and only if the second mark price gives the same dust verdict. |
| PositionSync.MarkIrrelevant | src/binnair_trading_engine/engine/core.py:297-335 | With an average price reported the mark plays no part in the dust verdict, so the second synchronisation is always a no-op. |
| PositionSync.MarkMatters | src/binnair_trading_engine/engine/core.py:297-335 | Without one it does: 1 unit at mark 10 is a position, at mark 1 it is dust. |
| PositionSync.InferredReasonMatches | src/binnair_trading_engine/engine/core.py:262-278 | The reason inferred at synchronisation is the exit manager's decision at the same price, or EXCHANGE_SYNC. |
| RiskChecking.BreakerAfterCheck | src/binnair_trading_engine/risk/default.py:62-72 | Time passing and the lazy clearing inside a check change no later answer of the breaker. |
| RiskChecking.BreakerAfterResult | src/binnair_trading_engine/risk/default.py:122-135 | One more result keeps the two fields equivalent to the whole history of results. |
| LossBreaker.CounterIsStreak | src/binnair_trading_engine/risk/default.py:122-135 | In every run with constant breaker settings the counter is the number of losing rows this process logged after its last winning one. |
| LossBreaker.GateFollowsHistory | src/binnair_trading_engine/risk/default.py:62-72 | At the gate the breaker is closed to entries if and only if some completed losing streak, not followed by a win, is still within its pause. |
| LossBreaker.NoEntryWhileTripped | src/binnair_trading_engine/engine/core.py:678-703 | No tick submits an entry order while that history trips. |
| LossBreaker.StraightLossesStopEntries | src/binnair_trading_engine/engine/core.py:678-703 | After N straight losing closes no entry order is submitted until the pause has elapsed. |
| SignalProvenance.RunKeepsFaith | src/binnair_trading_engine/signal/policy.py:31-65 | Over every run each bounded window is the tail of the full record history since its last reset, N change, mode change or restart. |
| SignalProvenance.EntryRestsOnSignals | src/binnair_trading_engine/engine/entry_pipeline.py:72-82 | Every entry order, paper or live, rests on N predictions of its own direction, all recorded since the last reset and, unless the symbol's newest row is an adoption, which it never is on paper, since that row. |
| SignalProvenance.ModelExitRestsOnSignals | src/binnair_trading_engine/engine/core.py:835-861 | On paper every MODEL_SELL or MODEL_BUY exit rests on N opposite predictions, all recorded while that very position was held, after the minimum hold. |
| SignalProvenance.AdoptedPositionClosedAtOnce | src/binnair_trading_engine/engine/core.py:367-443 | Live there can be fewer: a position adopted by synchronisation does not reset the window, so one tick can adopt and close it on earlier signals. |
| SignalProvenance.AdoptedCloseIsReachable | src/binnair_trading_engine/engine/core.py:367-443 | A run reaches it: two SELL predictions while flat, then a long found on the exchange and sold in the same tick. |
| SignalProvenance.ConfirmedSinceRowIff | src/binnair_trading_engine/engine/core.py:380-443 | Paper or live, a confirmed signal rests on N predictions recorded since the symbol's newest row, except exactly when a synchronisation wrote that row and fewer than N were recorded after it. |
| LedgerConservation.CashFlowInScope | src/binnair_trading_engine/storage/postgres.py:109-118 | Over every paper run, long and short, all symbols, restarts and run id switches included: for any run id and any instant, the cash flow since then is the result realised in that scope, plus the cost of positions closed in it but opened out of it, minus that of positions opened in it but closed out of it, minus what it still holds. |
| LedgerConservation.GateReadsRealizedIff | src/binnair_trading_engine/engine/core.py:658-677 | With nothing held the gate's daily figure is what was realised today under the run in force if and only if what it took over and what it handed on, across midnight or a switch, cost the same. |
| LedgerConservation.LedgerConserved | src/binnair_trading_engine/storage/postgres.py:109-118 | While the run id is kept, since any instant: cash flow is the realised result of closed rows, plus the cost of those opened earlier, minus the cost of longs opened since plus the proceeds of shorts opened since. |
| LedgerConservation.GateReadsRealizedPnl | src/binnair_trading_engine/engine/core.py:658-677 | While the run id is kept and nothing is held, the gate's figure is today's realised result if and only if the positions closed today that were opened earlier cost nothing on balance. |
| LedgerConservation.SingleSymbolGate | src/binnair_trading_engine/engine/core.py:658-677 | In a single-symbol process every entry decision, rejected or not, reads today's realised result plus the cost of the position held at midnight: right if and only if nothing of value was held then, while the run id is kept; otherwise right if and only if what was taken over and handed on cost the same. |
| GateMisreads.MidnightMisleadsGate | src/binnair_trading_engine/infra/timezone.py:33-36 | It happens: bought at 100 in the last second of the day, sold at 110 in the first of the next, the gate reads 110 where 10 was realised. |
| GateMisreads.SwitchMisleadsGate | src/binnair_trading_engine/engine/core.py:107-116 | It happens: bought at 100, run id switched, sold at 110, the gate of the new run reads 110 where 10 was realised. |
| EntrySpacing.EntriesKeepDistanceIff | src/binnair_trading_engine/risk/default.py:109-118 | In every paper run, run ids switched at will, an entry order is more than the duplicate window away from every earlier order of its symbol and side, however many orders ago, if and only if it is from those placed under other run ids. |
| EntrySpacing.EntriesKeepDistance | src/binnair_trading_engine/risk/default.py:109-118 | So it always is in runs that keep their run id. |
| EntrySpacing.ListedJudgesRun | src/binnair_trading_engine/storage/postgres.py:56-65 | A gate that lists at least the newest two orders of its run and finds no duplicate has judged all of that run's, however many, unless another run has one of that side in the window. |
| GateMisreads.SwitchSkipsSpacing | src/binnair_trading_engine/engine/core.py:107-116 | It happens: bought, sold, run id switched, bought again two seconds after the first purchase inside a window of 180. |
| EntrySpacing.RunKeepsOrders | src/binnair_trading_engine/engine/core.py:711-718 | Orders of a symbol are strictly later and later and come in pairs of opposite sides, an entry and its exit, in step with the position, whatever runs placed them. |
| PaperAgreement.AgreeIffNeverShort | src/binnair_trading_engine/exchange/paper.py:32-73 | Over every paper run, restarts included, adapter and manager agree at every boundary if and only if no short was ever held and no restart recovered a position. |
| PaperAgreement.LongOnlyAgrees | src/binnair_trading_engine/exchange/paper.py:32-73 | In long_only mode they agree on quantity and average entry at every boundary if and only if no restart recovered a position; the adapter is then never negative and returns to exactly nothing after each exit. |
| PaperDisagreement.RestartDisagrees | src/binnair_trading_engine/exchange/paper.py:24-31 | It happens: buy one, restart; the manager holds one recovered from the log, the adapter nothing. |
| PaperDisagreement.ShortDisagrees | src/binnair_trading_engine/exchange/paper.py:32-73 | It happens: go short by one from flat; the manager holds a short, the adapter nothing. |
| ExitReasons.ReasonBoundsResult | src/binnair_trading_engine/strategy/exit_manager.py:47-78 | At a price where TP (SL) fires, the close wins (loses) at least the configured fraction of the entry notional, long or short. |
| ExitReasons.AdoptedIsBracketed | src/binnair_trading_engine/engine/core.py:280-295 | Live, an adopted position's levels are the configured fractions away from the exchange's average price, so the same bounds hold of its close. |
| LiveReasons.ReasonFixesSignIff | src/binnair_trading_engine/engine/core.py:423-443 | Over every run, live or paper, of each closed position: the recorded reason fixes the sign of the result at every price the level is reached, if and only if the levels set when the holding was opened fit the side and entry price it was closed with; with both levels set and fitting at the opening, exactly when the last replacement left the side as it was and the entry price between the levels. |
| LiveReasons.RunKeepsHoldings | src/binnair_trading_engine/engine/core.py:423-443 | However often a synchronisation replaces a held position, all rows of one holding carry the levels and the opening time it was opened with. |
| LiveReasons.RecordedReasonReached | src/binnair_trading_engine/engine/core.py:881-960 | A take-profit or stop-loss recorded by a tick was reached at the tick's price or at the closing price, and at a closing price that reaches it a position whose levels fit wins or loses as the reason says. |
| LiveReasons.FlippedTakeProfitLoses | src/binnair_trading_engine/engine/core.py:423-443 | It happens: LONG 1 at 100 found on the exchange, take-profit 110; the next tick finds SHORT 1 at 100, keeps the level, and closes at 105 as TAKE_PROFIT with a loss of 5. |
| ExitReasons.ReasonDeterminesResult | src/binnair_trading_engine/position/manager.py:88-115 | So in every sized paper run, restarts included, each TAKE_PROFIT close wins at least, and each STOP_LOSS close loses at least, the fraction set at its entry. |
| ExitReasons.ReasonAgreesWithRollup | src/binnair_trading_engine/performance/metrics.py:36-42 | The rollup therefore flags every TAKE_PROFIT close as a win and every STOP_LOSS close as a loss. |
| Strategies.NeverFloored | src/binnair_trading_engine/risk/sizing.py:64-84 | Over the reals the re-flooring branch is unreachable. |
| Strategies.SizedNotional | src/binnair_trading_engine/risk/sizing.py:41-84 | A valid sizing commits exactly the smallest of the three caps and at least the minimum order. |
| Strategies.RiskBudgetHolds | src/binnair_trading_engine/strategy/passthrough.py:60-115 | For every equity, price, scale and side, the order sent, before and after lot rounding, risks at most equity times risk pct at its stop and commits at most the capped notional. |
| Strategies.DecidesExactly | src/binnair_trading_engine/strategy/passthrough.py:60-115 | What is ordered, exactly: nothing on HOLD or when it cannot be sized; otherwise the scale's share of what the tightest of risk budget, position cap and leverage affords, at the hinted price or the market's, with both levels their percentages away. |
| Strategies.RoundDown | src/binnair_trading_engine/exchange/binance_futures.py:223-230 | Rounding to the lot step never raises a quantity nor makes it negative. |
| Strategies.RoundsToSteps | src/binnair_trading_engine/exchange/binance_futures.py:223-230 | A positive quantity comes out as the largest whole number of steps in it. |
| Strategies.SizedOrderPassesNotionalGate | src/binnair_trading_engine/risk/default.py:99-107 | With a risk cap at least the sizing cap at the same equity, a sized order never fails the notional gate. |
| Strategies.PassthroughStrategy.SetDynamicExit | src/binnair_trading_engine/strategy/passthrough.py:48-58 | The pushed percentages are floored at zero and the scale clamped into [0.1, 1]. |
| ControlProcesses.RuntimeControlPoller.ProcessCommands | src/binnair_trading_engine/engine/runtime_control.py:109-140 | The drain loop terminates and executes every pending command, lowest id first. |
| ControlProcesses.ControlDatabase.ClaimPending | src/binnair_trading_engine/infra/persistence/repositories/postgres.py:1088-1115 | The pending command with the smallest id, if any. |
| ControlProcesses.ControlDatabase.PauseOtherRunning | src/binnair_trading_engine/infra/persistence/repositories/postgres.py:301-325 | Exactly the other running sessions become paused. |
| ControlInvariants.DrainObeysAll | src/binnair_trading_engine/engine/runtime_control.py:109-140 | Draining equals obeying the queue in id order; the row is untouched and every command ends done or failed. |
| ControlInvariants.RunKeepsSound | src/binnair_trading_engine/engine/runtime_control.py:31-160 | What every interleaving of saves, starts, stops, polls, boots, shutdowns and crashes keeps: each command's version is at most the row's, equal versions carry equal patches, and the engine's configuration is layers the row covers. |
| ControlAgreement.AgreesAfterPoll | src/binnair_trading_engine/engine/runtime_control.py:104-160 | After every poll with a saved row: every command ever queued ran exactly once in id order, the version is known, the configuration equals the one the API shows but for a poll interval never below it, and the engine trades as the row says if and only if the last boot was not misled or something was saved, started or stopped since. |
| ControlAgreement.StartBeforeBootMisleads | src/binnair_trading_engine/engine/runtime_control.py:51-72 | The exception is reachable: a start issued while the engine is down leaves it trading while the row says off, and polling does not repair it. |
| ControlAgreement.StuckExactlyWhenNot | src/binnair_trading_engine/engine/runtime_control.py:51-72 | Misled means exactly: the last start or stop pending at boot is a start carrying the row's own version. |
| ControlAgreement.SingleRunningSession | src/binnair_trading_engine/infra/persistence/repositories/postgres.py:227-325 | After every step at most one session is running, whatever run ids the patches switch between; after a poll or boot the engine's own session runs exactly when it trades. |
| RowHistory.RowFollowsRequests | src/binnair_trading_engine/api/services/runtime_control_service.py:77-182 | After every interleaving: the row's flag is what was asked for last, a save without a flag keeping it; its version counts saves and starts; every parameter that is no identity label has the value last requested, and is there only if one was. |
| RowHistory.ApiMarksSession | src/binnair_trading_engine/api/repositories/runtime_control_repository.py:40-51 | A start shows its session running and no other at once, a stop shows it paused; unknown sessions are not created. |
| RowHistory.EngineGone | src/binnair_trading_engine/engine/core.py:449-466 | A shutdown leaves no engine and its session stopped; a crash leaves the tables as they were. |
| RuntimeConfig.Merge | src/binnair_trading_engine/config/runtime_config.py:553-564 | The recursive in-place merge equals the key-by-key definition, at every depth. |
| RuntimeConfig.MergeAbsorbs | src/binnair_trading_engine/config/runtime_config.py:553-564 | A later patch that covers an earlier one erases it, at every depth and over every base. |
| RuntimeConfig.RuntimePatchToNested | src/binnair_trading_engine/config/runtime_config.py:404-550 | Every known flat key lands in its nested place and sections without any are left out. |
| PatchKeys.KeysArePrefixed | src/binnair_trading_engine/config/runtime_config.py:404-550 | Every patch key is its section's prefix followed by the name it is nested under. |
| RuntimeConfig.IdentityNames | src/binnair_trading_engine/config/runtime_config.py:567-579 | Choosing a predictor names session and strategy after it, whatever the patch says, and changes no other parameter. |
| RuntimeConfig.NestedCovers | src/binnair_trading_engine/config/runtime_config.py:404-550 | More flat keys nest to a covering tree. |
| RuntimeConfig.SavedPatchesGrow | src/binnair_trading_engine/api/services/runtime_control_service.py:85-98 | Saving never loses a key, stays within the known keys, keeps every requested value that is not an identity label, and its identity defaults are idempotent. |
| RuntimeConfig.MergeRuntimeConfig | src/binnair_trading_engine/config/runtime_config.py:567-579 | Identity defaults, nesting, deep merge, settling and poll alignment, in that order. |
| LayeredConfig.EveryParameterLands | src/binnair_trading_engine/config/runtime_config.py:404-579 | Every parameter of a patch is in force afterwards at its own place; everything else is as before, or a default of a predictor the patch just configured. |
| LayeredConfig.PollCoversCandle | src/binnair_trading_engine/config/env_loader.py:294-307 | With alignment on, the poll interval in force is the one asked for raised to the active predictor's candle; without it just that one. |
| LayeredConfig.LayeredEqualsOneShot | src/binnair_trading_engine/engine/core.py:100-114 | Any number of patches layered one on another, the last holding all their keys, agrees with merging the last alone on every field but the poll interval. |
| LayeredConfig.SavedPollAgreesIff | src/binnair_trading_engine/config/env_loader.py:294-307 | The layered poll interval is never below the one-shot one; they are equal exactly when the newest patch sets it or no earlier patch chose a longer candle than the interval shown. |
| LayeredConfig.PollAgreesIff | src/binnair_trading_engine/config/env_loader.py:294-307 | The same for patches in any order, in terms of the interval layered so far. |
| LayeredConfig.EngineKeepsSlowPoll | src/binnair_trading_engine/config/env_loader.py:294-307 | It happens: one hour, then back to one minute, leaves the engine polling hourly while the API shows a minute. |
| Calibration.NewCalibrator | src/binnair_trading_engine/autopilot/calibration.py:11-23 | Window at least 10, samples at least 5, percentile in [50, 99], factor at least 0.1. |
| Calibration.ThresholdCalibrator.Record | src/binnair_trading_engine/autopilot/calibration.py:29-32 | None is ignored; otherwise the absolute score enters the bounded window. |
| Calibration.ThresholdCalibrator.LoadScores | src/binnair_trading_engine/autopilot/calibration.py:34-37 | Loading only the end of a history leaves the window as if every score had been recorded one by one. |
| Calibration.ThresholdCalibrator.ComputeThreshold | src/binnair_trading_engine/autopilot/calibration.py:39-53 | The floor below the sample minimum, else the larger of floor and scaled percentile: the threshold that ThresholdExactly and PercentileExactly pin down. |
| Calibration.WindowIsSuffix | src/binnair_trading_engine/autopilot/calibration.py:29-37 | The window is always the end of the whole history of absolute scores. |
| Calibration.RankInRange | src/binnair_trading_engine/autopilot/calibration.py:49-51 | The half-even rounded rank is always in range: the clamp never acts. |
| Calibration.RankIsOrderStatistic | src/binnair_trading_engine/autopilot/calibration.py:49-52 | The percentile is a window score with at most idx scores below it and at most n-1-idx above. |
| Calibration.PercentileExactly | src/binnair_trading_engine/autopilot/calibration.py:49-52 | The percentile of n scores is one of them with, up to half a score, no more than percentile of n-1 below it and no more than the rest above it. |
| Calibration.RoundsToNearest | src/binnair_trading_engine/autopilot/calibration.py:50 | Rounding ends within one half of its argument and on the even side of a tie. |
| Calibration.ThresholdExactly | src/binnair_trading_engine/autopilot/calibration.py:39-53 | The configured threshold, at least zero, until there are enough scores; from then on the larger of it and the factor times the window's percentile. |
| Calibration.ThresholdOfMultiset | src/binnair_trading_engine/autopilot/calibration.py:39-53 | Only which scores are in the window matters, not their order. |
| Calibration.ThresholdMonotone | src/binnair_trading_engine/autopilot/calibration.py:39-53 | A stricter percentile, factor or floor never lowers the threshold. |
| Calibration.ThresholdFilters | src/binnair_trading_engine/autopilot/calibration.py:39-53 | Never below the configured floor; with k >= 1 at most n-1-idx window scores exceed it. |
| Calibration.RankBelowIff | src/binnair_trading_engine/autopilot/calibration.py:48-52 | The percentile is below a bound exactly when more scores than its rank are. |
| Calibration.UndercutsIff | src/binnair_trading_engine/autopilot/controller.py:197-202 | The calibrated threshold times a positive multiplier is below the configured one exactly when that one is positive, the multiplier is a discount, and the window has too few scores or more of them than the rank below the configured threshold divided by factor and discount. |
| Calibration.RecalibratesFromScratch | src/binnair_trading_engine/autopilot/controller.py:139-148 | After any applied configuration the calibrator answers the configured threshold until it has recorded its minimum of scores again. |
| Regimes.Ema | src/binnair_trading_engine/autopilot/regime.py:11-18 | The loop computes the recursively weighted average. |
| Regimes.EmaStep | src/binnair_trading_engine/autopilot/regime.py:11-18 | One value averages to itself; each further one counts twice among period plus one. |
| Regimes.EmaWithin | src/binnair_trading_engine/autopilot/regime.py:11-18 | The average lies between the extremes of its window. |
| Regimes.SlopeBounded | src/binnair_trading_engine/autopilot/regime.py:78-80 | The trend slope is at most the spread of the closes over the price. |
| Regimes.TrueRangeCovers | src/binnair_trading_engine/autopilot/regime.py:21-23 | The true range is never negative and is the distance covered since the previous close, gap included. |
| Regimes.AtrSeries | src/binnair_trading_engine/autopilot/regime.py:43-50 | The loop computes one average per window of bars. |
| Regimes.SeriesIsPrefixAverages | src/binnair_trading_engine/autopilot/regime.py:26-50 | Entry j of the series equals the average over all bars up to it. |
| Regimes.CurrentIsLast | src/binnair_trading_engine/autopilot/regime.py:70-75 | So the current average is the series' last entry. |
| Regimes.AtrNonNegative | src/binnair_trading_engine/autopilot/regime.py:26-40 | The average true range is never negative. |
| Regimes.AtrTotal | src/binnair_trading_engine/autopilot/regime.py:26-40 | The average range times the bars it covers is what their true ranges add up to. |
| Regimes.RegimeDetector.Detect | src/binnair_trading_engine/autopilot/regime.py:57-123 | The branches of the detector compute the regime the lemmas speak about. |
| Regimes.VerdictExactly | src/binnair_trading_engine/autopilot/regime.py:57-113 | The verdict on the current range, the median of the recent ones and the two averages: unknown without enough bars or a price, high or low volatility by the range against the median, ranging while the averages are closer than the threshold's share of the price, trending otherwise. |
| Regimes.VerdictSettings | src/binnair_trading_engine/autopilot/regime.py:88-123 | What a verdict changes: confirmations, order scale, target and stop multiples. |
| Autopilots.DetectedScale | src/binnair_trading_engine/autopilot/regime.py:82-123 | Whatever the bars: the scale lies in [0.1, 1], confirmations are never lowered, the range is never negative and positive only at a positive price, and the normal regime never comes out. |
| Regimes.HighVolExceedsMost | src/binnair_trading_engine/autopilot/regime.py:70-84 | A high_vol verdict (ratio above 1) means the current range exceeds more than half of those compared. |
| Regimes.DistancesCoverCost | src/binnair_trading_engine/autopilot/regime.py:126-145 | With positive range and price both distances are at least their floor and their multiple of the range; otherwise both are zero. |
| SignalThresholds.EntryThresholdBounds | src/binnair_trading_engine/predictor/timesfm_utils.py:35-69 | Scaling is neutral at the reference, never raises the threshold for slower candles and longer horizons, and is bounded below by 7.5% of cost and by the configured share. |
| SignalThresholds.EntryThresholdExactly | src/binnair_trading_engine/predictor/timesfm_utils.py:35-69 | The explicit threshold; else the round trip's cost, scaled by factors that follow the reference over the actual timeframe and horizon down to their floors, but no less than the configured share. |
| Autopilots.AutopilotController.ApplyBeforePredict | src/binnair_trading_engine/autopilot/controller.py:180-282 | What is pushed into predictor, policy and strategy, from the calibrator and detector as they are. |
| Autopilots.AutopilotController.UpdateConfig | src/binnair_trading_engine/autopilot/controller.py:139-148 | An applied configuration replaces calibrator and detector; recorded scores are gone. |
| Autopilots.PushIsTuning | src/binnair_trading_engine/engine/core.py:559-582 | The tick machine's tuning step is this push, as far as policy and strategy go. |
| Autopilots.PushIsSafe | src/binnair_trading_engine/autopilot/controller.py:195-228 | The regime's confirmations, at least one, are required; exits are pushed exactly when the range is positive, never closer than the cost floor, with scale in [0.1, 1]. |
| Autopilots.PushedThresholds | src/binnair_trading_engine/autopilot/controller.py:197-209 | The pushed entry threshold is the calibrated one times the regime's multiplier; the exit one is the configured one or at least a tenth of it. |
| Autopilots.PushedEntryCoversCostAndBudget | src/binnair_trading_engine/autopilot/controller.py:216-228 | An entry decided under pushed exits keeps both levels at least the cost floor away and stays within the risk and notional budget. |
| Autopilots.InForceBelowConfiguredIff | src/binnair_trading_engine/autopilot/controller.py:197-209 | The calibrated threshold is never below the configured one; the predictor's entry threshold after a push is, exactly when the pushed one is positive and discounted below it (UndercutsIff: low_vol, or high_vol with a multiplier below 1, and too few or too small scores), or it is not positive and the one the predictor had, which stays, already was. |
| Autopilots.LowVolUndercuts | src/binnair_trading_engine/autopilot/controller.py:197-209 | With too few samples, any low_vol regime leaves the predictor below a positive configured threshold, whatever it had before. |
| Regimes.CalmIsLowVol | src/binnair_trading_engine/autopilot/regime.py:70-100 | The low_vol verdict is reachable: a range of ten followed by one of one. |
| Autopilots.QuietMarketUndercuts | src/binnair_trading_engine/autopilot/controller.py:197-209 | It happens: a configured threshold of one per cent, an empty calibrator and those bars leave any predictor below one per cent. |
| Autopilots.PushedSignalHasSupport | src/binnair_trading_engine/predictor/timesfm_predictor.py:284-307 | From push to signal: after a push with a positive threshold, an entry signal has a forecast price beyond the price by more than the configured threshold times the regime's multiplier. |
| Rollup.PerformanceRepository.RecordClosedTrade | src/binnair_trading_engine/infra/persistence/repositories/postgres.py:777-876 | A trade id already recorded changes nothing; otherwise the trade is stored and its day's row inserted or incremented, with the closing refreshed. |
| Rollup.PerformanceRepository.SetOpeningEquityIfMissing | src/binnair_trading_engine/infra/persistence/repositories/postgres.py:896-935 | The first opening equity of a day is kept. |
| Rollup.IncrementalEqualsBatch | src/binnair_trading_engine/infra/persistence/repositories/postgres.py:777-935 | For every history of closes and opening settings, each day's row is the batch over its distinct trades and first opening, running mean included, and there is no other row. |
| Rollup.RowsBalance | src/binnair_trading_engine/infra/persistence/repositories/postgres.py:805-868 | Counts partition into wins, losses and break-evens; the sum is gross profit minus gross loss; a known opening gives closing = opening + sum. |
| Rollup.QuantityRoundTrip | src/binnair_trading_engine/performance/metrics.py:17-33 | The quantity derived from a result is the quantity held, unless the price did not move. |
| Rollup.RecordedTradeConsistent | src/binnair_trading_engine/performance/metrics.py:53-118 | A recorded trade's percentage of its notional is its result, and its outcome is the one the loss breaker acts on. |
| Rollup.RecordedExactly | src/binnair_trading_engine/performance/metrics.py:53-118 | A close is recorded exactly when its prices are positive and its quantity is positive and not dust; then under its Korean day, with the whole seconds it was held. |
| CandleGate.TimesFMPredictor.Predict | src/binnair_trading_engine/predictor/timesfm_predictor.py:139-220 | The gate, the fallbacks and the signal, in order; a candle is consumed by every completed inference and by nothing else. |
| CandleGate.TimesFMPredictor.SetThresholds | src/binnair_trading_engine/predictor/timesfm_predictor.py:122-128 | Non-positive thresholds are not taken over; the exit falls back to the derived one. |
| CandleGate.ThresholdsTaken | src/binnair_trading_engine/predictor/timesfm_predictor.py:122-128 | A positive threshold is in force as given; otherwise entry stays and exit follows from the configuration. |
| CandleGate.SignalHasSupport | src/binnair_trading_engine/predictor/timesfm_predictor.py:284-307 | A BUY (SELL) always has a forecast step above the threshold (below its negative), in both forecast modes, unless an empty forecast meets a negative threshold. |
| CandleGate.AnswersExactly | src/binnair_trading_engine/predictor/timesfm_predictor.py:139-220 | On the forecast price: BUY exactly when it exceeds the price by more than the threshold's share, SELL when it falls short by more, otherwise a HOLD that names its cause; the score is the move's share of the price. |
| CandleGate.ForecastDecides | src/binnair_trading_engine/predictor/timesfm_predictor.py:284-307 | A BUY has a forecast price above the price plus the threshold's share, a SELL one below; and whenever the model is asked, a forecast entirely beyond the one bound is answered BUY, beyond the other SELL. |
| CandleGate.ConsumesExactly | src/binnair_trading_engine/predictor/timesfm_predictor.py:185-194 | A candle is used up by exactly the calls that got a forecast and were told the newest candle afterwards. |
| CandleGate.ConfirmationsAreDistinctIff | src/binnair_trading_engine/predictor/timesfm_predictor.py:222-231 | On a candle table that never steps back, predictor reloads included, a confirmed signal rests on as many different, strictly later candles as it needs confirmations, whichever of entry and exit asked, if and only if its window holds no two calls with the table standing still between them and no answer after the first inference, none at the second gate, or a reload in between. |
| CandleGate.ConfirmationsAreDistinctCandles | src/binnair_trading_engine/predictor/timesfm_predictor.py:222-231 | So always with the gate on, a table that answers and no reload. |
| CandleGate.SilentTableRepeatsCandle | src/binnair_trading_engine/predictor/timesfm_predictor.py:191-194 | Without an answer after the inference one candle confirms a signal twice. |
| CandleGate.SilentGateRepeatsCandle | src/binnair_trading_engine/predictor/timesfm_predictor.py:222-231 | Without an answer at the gate likewise, although the candle was remembered. |
| CandleGate.ReloadRepeatsCandle | src/binnair_trading_engine/engine/core.py:130-160 | A patch that reloads the predictor between two answered calls likewise: it forgets the candle and the windows are kept. |

## Left out

- AgreesAfterPoll: each API call, each poll and each boot (overlay, startup synchronisation and the engine start that ends it) is one atomic step, and applying a configuration succeeds; a stop split between its enqueue and its upsert, concurrent API writers and failing configurations are not covered. Both processes are started with the same environment, and one user is modelled.
- SingleRunningSession: a session another run id left running stays marked running while this engine is off; that it is at most one is what is proved.
- TradingEngine.ApplyRuntimeConfig: policy, run id and risk limits; the predictor's reload is a step of CandleGate and the autopilot's restart a method of Autopilots.
- CashFlowInScope: restarts recover at least every symbol held, and a trade, its snapshot row and its position carry one instant; the engine's own trades have no commission.
- EntriesKeepDistance: symbols are recovered by every restart; the duplicate window is the one in force when the entry is judged.
- CounterIsStreak: the loss limit and the pause length stay constant over the run; they are in memory only, so each process counts from its own start.
- RecoveryRebuildsBook: for the symbols every restart recovers (the engine recovers its configured symbol).
- ConfirmationsAreDistinctIff: the candle table never steps back, and its answers are its newest candle; a reload onto a longer candle, whose newest opening time is earlier than one already seen, is one of the cases this leaves out.
- ReasonFixesSignIff: for symbols every restart recovers; an order that fills past the entry price gives a result its reason does not promise (RecordedReasonReached speaks of closes at a price that reaches the level).
- ReasonDeterminesResult: when the strategy sizes its orders; without sizing it sends one unit at whatever entry price it is given.
- HighVolExceedsMost: high-volatility ratios above 1.
- DistancesCoverCost: ATR periods, volatility lookbacks and slow EMA windows of at least one bar.
- Clock readings strictly increase from one phase of a tick that may write a row to the next, and one reading serves a whole phase.
- Floating-point rounding: reals throughout, so the quantity re-flooring branch is dead here.
- The strategy keeps the take-profit, stop-loss and sizing settings it was built with: as in the code, a runtime patch reaches it only through the autopilot.
- The minimum-hold and risk settings read by a tick come from the engine's configuration as applied by the last patch; which nested key feeds which component is not tied across the configuration tree and the tick machine.
- Timeframe strings: a timeframe is its length in seconds or positive minutes.
- Field types and ranges of the request body, and the signal mode check, are taken as enforced before a patch is saved.
- The entries of `EngineConfig.from_dict` that no patch key reaches: only that merging keeps them.
- Model loading and forecasting, price history retrieval and its failure latch, and prediction confidence and probabilities: the forecast is an arbitrary answer. The FinCast predictor repeats the same gate.
- Exchange REST and WebSocket adapters, listen keys and order queries: the exchange is an arbitrary answer giving position, order status and fill.
- Flattening on shutdown, equity snapshots, audit records, inference and signal events, logging.
- HTTP controllers, read-only queries, pagination, schema migration, sessions and transactions of the database layer: each repository call takes effect at once and completely.
