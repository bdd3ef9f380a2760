# A verified model of the trading runtime's core

This project models the parts of the repository where money or safety depends on more than one function at a time,
and proves properties of them that hold for every input, every run or every reachable state.

* **Market data** (`crates/market_data`). The multi-timeframe aggregator, the rolling buffers, the warm-up tracker,
  the coordinator with its worklist, and the service that decides when trading may start. The streaming aggregator is
  proved equal to a batch "group by window" definition for any interleaving of symbols, two stages of aggregation are
  proved equal to one, the trade-ready gate is proved safe over every run, failing transports included, and the
  strategies that can reach it are characterised exactly.
* **Broker state and the trade ledger** (`crates/broker_tradovate`, `apps/runtime/src/history.rs`,
  `crates/state_store`). The live client's entity cache is a correct view of what it was told; the session's states
  are clean in every run; the history recorder counts each fill once, mirrors the broker's positions through opens,
  resizes, flips and closes exactly while no position moves between accounts, and accounts each closed trade with
  exactly the fills of its window.
* **Risk, planning, orders** (`crates/risk_engine`, `crates/execution_engine`,
  `crates/broker_tradovate/src/execution.rs`). Actions mean changes of a net position and orders left at rest. Plans
  mean their intents, also when the broker refuses an action half-way; the approved quantity reaches the broker, inside
  the risk budget exactly under a stated condition. Over runs in which resting protective orders fill, in part or in
  full, or go away at any time, a strategy's position is bounded by its largest order plus what stale protective
  orders added, and the strategies that keep the plain bound in every run are characterised exactly.
* **Front month** (`crates/instrument_resolver`). Sort and scan is a minimum, never moves back in time, and the
  built-in chains always resolve for a stated period.

## How it is built

Code that updates fields is a class whose methods keep the source's steps and loops; each method is proved equal to
a pure step function of the object's abstract state (`View()`), and the theorems are lemmas about those functions and
about runs of them. `Aggregation`, `Warmup`, `Coordinator`, `MarketDataService`, `Recorder`, `SyncCaching` and
`BrokerSession` hold classes; `RiskEngine`, `ExecutionPlanner`, `InstrumentResolver` and `ChartBackfill` hold methods
with the source's loops and local vectors beside the functions they compute; files ending in `Laws` and
`OrderPipeline` hold the theorems. Methods that only set fields state their whole new state in their contracts and
have no row below. `Prelude` defines what they share: options and results, the key order of Rust's
ordered maps, stable sorting, sums over key sets, printing and parsing of integers.

Decimals are integers counting their smallest unit, times are integers of nanoseconds. Rust's fixed widths are kept
where they matter: volumes saturate at 64 bits, order quantities at 32 bits, and a quotient that does not fit 32 bits
becomes zero as in the source. Transports, clocks and brokers are parameters: a method gets the reply it will receive,
so every theorem holds for every behaviour of the outside world.

## What the proofs found out

* Bars that arrive with a gap can reach the warm-up buffers in reversed order. They arrive in order if and only if no
  source bar overtakes its neighbour: lies in another window than a neighbour that did not finish its own, and
  finishes the window it lies in (`CoordinatorLaws.DeliveryOrder`, `GapReversesDelivery`).
* A strategy that requires a book feed can never become trade-ready, since no event belongs to such a feed. Of the
  others, exactly those can become so from their feed whose required timeframes, or one of them where any suffices, are
  the provider's source or a target of the aggregator (`ReadinessLaws.TradeReadyReachable`). A strategy that works on
  five-minute bars alone is not among them: the provider is asked for one-minute bars and, with a single timeframe,
  nothing aggregates them (`ReadinessLaws.FiveMinutesAloneNeverReady`); only history seeded by the host can fill it.
* A restarted warm-up keeps the windows half built before it: the first bar of such a window still opens where it did
  before the restart (`WarmupRestartLaws.RestartedBuffers`).
* Protective orders outlive the positions they protected: no entry, exit or flatten plan cancels one. Long five and
  reversed to short five, at a limit of five, the first stop's fill makes ten short (`DeskLaws.StaleStopBreaksBound`).
  The position bound holds in every run exactly for the strategies that can never leave a protective order at the
  broker, and for the others no bound holds at all (`DeskLaws.BoundHoldsInEveryRun`), with direct reversals even if
  nothing is ever liquidated (`DeskLaws.ReversalsBreakAnyLimit`). At any one time the position is safe exactly if it
  stays within the limit with everything at rest on one side filled (`DeskLaws.WorstCaseIsExact`).
* A stop bracket covers the whole entry order. After a direct reversal its fill therefore restores the opposite
  position instead of leaving the account flat (`OrderPipeline.StopTakesBackTheOrder`), and costs more than the risk
  budget as soon as the whole order exceeds what the budget pays for (`OrderPipeline.StopLossWithinBudget`).
* An active contract takes precedence over the position's own, so exit and flatten leave the position as it is exactly
  when the two differ (`PlanLaws.FlattenEndsFlat`, `PlanLaws.OwnContractResolves`).
* The risk budget can be exceeded by the fallback quantity and by the configured minimum, and only by them
  (`RiskEngine.RiskBudget`). Fixed sizing under a maximum of zero approves a quantity of zero, which the planner
  then refuses (`RiskEngine.ApprovedWithinBounds`).
* A review of existing exposure can end without an acknowledgement: any entity update that is polled ends it
  (`SessionLaws.UpdateEndsReview`), and so does a plain reconnect when no disconnect event was seen
  (`SessionLaws.WaysToSynchronize`).
* In one sync payload a finished entry does not remove an earlier working entry of the same order, so the order stays
  cached (`SyncCacheLaws.PayloadKeepsStaleOrder`).
* A recorder rebuilt from stored records forgets which fills it has seen. A leaving order's final quantity is the sum
  of its recorded fills exactly if no fill reported now is recorded without being remembered; otherwise it exceeds
  that sum and can turn the order to filled (`FillLaws.LeavingOrderOfAnyMemory`, `RestartCountsTwice`).
* From a mirrored state a sync mirrors its own listing exactly if no position moves: loses its key while its symbol is
  still held under another. A move leaves the open position without a trade (`MirrorLaws.SyncMirrors`,
  `AccountSwitchLosesTrade`).
* The new trade of a flip opens at the position's capture time and the old one closes at the sync time, so a fill in
  between is charged to both and closed trades cost twice what was recorded (`WindowLaws.FlipChargesTwice`). A fill is
  charged twice if and only if it was reported by the sync that ended the earlier of two holdings of its symbol, or
  before, and occurred after both had opened and before that one ended (`WindowLaws.ChargedTwiceExactly`); the closed
  trades cost what the fills charged to them cost exactly if no such fill costs anything
  (`WindowLaws.CostsCountOnceExactly`).
* After a restart the trade of a position that vanished meanwhile stays open: the first sync mirrors its listing exactly
  if it lists every position held before (`RestartLaws.RestartMirrors`).
* A fill first reported after its order left is recorded, and the order's final record does not change: the two agree
  exactly if there is no such fill (`FillLaws.LateFillsAreNotCounted`).
* The ids of two trades can agree only if their symbols do, from the epoch on; a time before it can make the trades of
  "X" and "X-" collide (`TradingHistory.TradeIdsCollide`).
* A process that keeps its built-in contract chains for two years runs out of contracts in November of the second year
  after its start (`FrontMonthLaws.BuiltinChainsResolve`).

## Model

| member | source | states |
|---|---|---|
| `MarketTypes.AlignIsTheContainingWindow` | crates/market_data/src/lib.rs:1138-1151 | The aligned start is the one grid point whose window contains the timestamp, also before the epoch. |
| `MarketTypes.AlignNests` | crates/market_data/src/lib.rs:1146-1151 | Aligning to a finer grid first does not change the coarse window. |
| `MarketTypes.SortDedupIsTheSortedSet` | crates/market_data/src/lib.rs:284-310 | Sorting and deduplicating the targets keeps exactly the given timeframes, in strictly ascending duration. |
| `Aggregation.FlushLeqIsTotal` | crates/market_data/src/lib.rs:397-413 | The flush order is a total preorder, so sorting the flushed bars is well defined. |
| `Aggregation.SelectSort` | crates/market_data/src/lib.rs:397-413 | Sorting a flush does not reorder the bars of one symbol and timeframe. |
| `Aggregation.MultiTimeframeAggregator.New` | crates/market_data/src/lib.rs:284-310 | Succeeds exactly when every target is longer than the source and at least one remains; starts with no open window. |
| `Aggregation.MultiTimeframeAggregator.AdvanceTarget` | crates/market_data/src/lib.rs:339-394 | One target's share of an ingest: update, displace or open the window, and finish it when its end is reached. |
| `Aggregation.MultiTimeframeAggregator.Ingest` | crates/market_data/src/lib.rs:320-395 | The loop over the targets computes the pure ingest step on windows and completed bars; other events are ignored. |
| `Aggregation.MultiTimeframeAggregator.Flush` | crates/market_data/src/lib.rs:397-413 | Empties the map and returns exactly the bar of every open window, in flush order. |
| `BatchAggregation.ExtremesAreReached` | crates/market_data/src/lib.rs:250-259 | The reference maximum and minimum bound every bar of a window and are attained by one. |
| `BatchAggregation.BatchSnoc` | crates/market_data/src/lib.rs:339-394 | How the batch grouping grows by one more bar: absorb it into the last window's bar or append a new one. |
| `BatchAggregation.BatchCloses` | crates/market_data/src/lib.rs:261-275 | Every batch bar closes at the end of the window of some source bar. |
| `BatchAggregation.BatchInTimeOrder` | crates/market_data/src/lib.rs:339-394 | Batch bars come in strictly ascending time order. |
| `BatchAggregation.BatchIsOneBarPerWindow` | crates/market_data/src/lib.rs:339-394 | The reference has exactly one bar for each non-empty window. |
| `BatchAggregation.BatchComposes` | crates/market_data/src/databento_chart_backfill.rs:205-218 | Grouping finely and then coarsely is grouping coarsely. |
| `BatchAggregation.AbsorbCommutesWithBatch` | crates/market_data/src/lib.rs:250-259 | Growing the last fine bar shows up as growing the last coarse bar; saturating volumes included. |
| `StreamingLaws.TargetsAreIndependent` | crates/market_data/src/lib.rs:320-395 | Each target's window and bars depend on nothing another target does. |
| `StreamingLaws.SlotFollowsItsSymbol` | crates/market_data/src/lib.rs:320-395 | After any run, the window and the emitted bars of a symbol and target are those of the symbol's own source bars. |
| `StreamingLaws.GridBarsDoNotOverlap` | crates/market_data/src/lib.rs:320-413 | Grid-aligned, strictly increasing bars never overlap, the weaker condition the equivalence needs. |
| `StreamingLaws.FollowIsBatch` | crates/market_data/src/lib.rs:339-394 | Emitted bars and the open window's bar are together the batch grouping, for one symbol and target. |
| `StreamingLaws.StreamingEqualsBatch` | crates/market_data/src/lib.rs:320-413 | For any interleaving of symbols and events, all ingest outputs and the flush, restricted to a symbol and target, are the batch grouping. |
| `StreamingLaws.TwoStageEqualsDirect` | crates/market_data/src/lib.rs:320-413 | Everything a fine aggregation of any symbols emits and flushes, aggregated again to a coarse timeframe, gives each symbol the bars of the direct aggregation. |
| `StreamingLaws.VolumeConserved` | crates/market_data/src/lib.rs:250-259 | On any stream no volume is invented, and none is lost exactly when no window saturates. |
| `StreamingLaws.BarsStaySane` | crates/market_data/src/lib.rs:250-275 | Low and high bound open and close in every emitted bar and open window when they do in the inputs. |
| `StreamingLaws.AggregatorConserves` | crates/market_data/src/lib.rs:320-395 | Conservation and sanity for every symbol and target of any aggregator run: out of order, misaligned or gapped. |
| `ChartBackfill.SortCommutesWithSelect` | crates/market_data/src/databento_chart_backfill.rs:205-218 | Sorting the aggregated bars by time keeps each symbol's bars in their order. |
| `ChartBackfill.AggregateOneMinuteBars` | crates/market_data/src/databento_chart_backfill.rs:205-218 | The backfill's ingest, flush and sort returns the batch grouping of the one-minute bars, in time order. |
| `Warmup.RetainsTwoHours` | crates/market_data/src/lib.rs:205-213 | A buffer holds what is required and two hours of bars, and no more than the longer of the two, so eviction cannot undo readiness. |
| `Warmup.RollingBuffer.Push` | crates/market_data/src/lib.rs:177-182 | The buffer holds exactly the newest `capacity` items. |
| `Warmup.BuffersAreTheNewestBars` | crates/market_data/src/lib.rs:486-504 | After a reset and any events, each buffer is the newest bars delivered for its symbol and timeframe. |
| `Warmup.ReadyCountsBars` | crates/market_data/src/lib.rs:547-560 | Ready exactly when the bars ingested since the reset reach the requirement, in all or in any timeframes. |
| `Warmup.ReadyPersists` | crates/market_data/src/lib.rs:486-498 | No later event takes readiness away. |
| `Warmup.WarmupTracker.FromStrategy` | crates/market_data/src/lib.rs:428-459 | Refuses the first zero requirement; otherwise an empty, unstarted tracker. |
| `Warmup.WarmupTracker.Ingest` | crates/market_data/src/lib.rs:486-498 | Pushes a bar of its own symbol and a required timeframe; ignores everything else. |
| `Warmup.WarmupTracker.IngestHistory` | crates/market_data/src/lib.rs:500-504 | Ingests all events in order. |
| `Warmup.WarmupTracker.IsReady` | crates/market_data/src/lib.rs:547-560 | The loop over the requirements decides all-of or any-of readiness. |
| `Coordinator.CompletedAreTargets` | crates/market_data/src/lib.rs:320-395 | Completed bars are of target timeframes and of the ingested bar's symbol. |
| `Coordinator.CompletedBarsAreInert` | crates/market_data/src/lib.rs:706-733 | A completed bar can never make the aggregator complete another one. |
| `Coordinator.WorklistTurn` | crates/market_data/src/lib.rs:706-733 | Every turn of the worklist after the first shrinks it, which is why it terminates. |
| `Coordinator.DatabentoMarketDataCoordinator.Handle` | crates/market_data/src/lib.rs:706-733 | One turn: heartbeat, feed status, aggregator, warm-up and time are updated, and the completed bars returned. |
| `Coordinator.DatabentoMarketDataCoordinator.RecordEvent` | crates/market_data/src/lib.rs:706-733 | The worklist terminates and handles the event and then exactly the bars it completed, newest first. |
| `CoordinatorLaws.RecordIsIngest` | crates/market_data/src/lib.rs:706-733 | Recording drives the aggregator as one ingest and the tracker as the handled events. |
| `CoordinatorLaws.RunIsIngest` | crates/market_data/src/lib.rs:706-733 | The same over whole streams: what the worklist does is the aggregator's fold and the tracker's history. |
| `CoordinatorLaws.EmitsTwo` | crates/market_data/src/lib.rs:339-394 | One more bar completes two windows of a target exactly when it overtakes its neighbour, a condition on the two bars alone. |
| `CoordinatorLaws.LastEventDelivers` | crates/market_data/src/lib.rs:706-733 | What one more event of a stream completes for a target is appended to the delivered bars in reverse order, at most two bars at a time. |
| `CoordinatorLaws.DeliveryOrder` | crates/market_data/src/lib.rs:706-733 | No bar is lost, and the bars reach the tracker in completion order exactly when no source bar of the stream overtakes its neighbour. |
| `CoordinatorLaws.GapReversesDelivery` | crates/market_data/src/lib.rs:341-392 | A concrete gapped stream of a fresh coordinator whose two completed bars are delivered in reversed order. |
| `CoordinatorLaws.GapFreeNeverDoubleEmits` | crates/market_data/src/lib.rs:341-392 | On a gap-free stream no ingest completes two bars of a target. |
| `CoordinatorLaws.GapFreeBuffers` | crates/market_data/src/lib.rs:706-733 | On a gap-free stream each target's buffer is the last `capacity` completed bars of the batch grouping of everything recorded. |
| `CoordinatorLaws.SourceBuffer` | crates/market_data/src/lib.rs:706-733 | The source timeframe's buffer is the newest source bars on any stream. |
| `MarketDataService.StrategyPlanIsValid` | crates/market_data/src/lib.rs:1093-1136 | The plan built from a strategy always has targets strictly longer than its source, so building the aggregator cannot fail. |
| `MarketDataService.HealthyMeans` | crates/market_data/src/lib.rs:984-1013 | Healthy exactly when subscribed, not degraded and every feed ready. |
| `MarketDataService.DatabentoSessionManager.BuildAggregator` | crates/market_data/src/lib.rs:1093-1115 | Builds the aggregator the plan asks for, or none. |
| `MarketDataService.DatabentoSessionManager.New` | crates/market_data/src/lib.rs:581-623 | The initial coordinator for a strategy. |
| `MarketDataService.DatabentoSessionManager.Connect` | crates/market_data/src/lib.rs:819-847 | Connect, subscribe, start: each failure degrades and fails the connection, success subscribes and clears. |
| `MarketDataService.DatabentoSessionManager.Reconnect` | crates/market_data/src/lib.rs:849-876 | The same after counting the attempt. |
| `MarketDataService.DatabentoSessionManager.Disconnect` | crates/market_data/src/lib.rs:878-890 | Closes the transport or records its failure. |
| `MarketDataService.DatabentoSessionManager.ApplyTransportUpdate` | crates/market_data/src/lib.rs:927-950 | What each polled update does to the state. |
| `MarketDataService.MarketDataService.StartWarmup` | crates/market_data/src/service.rs:90-122 | Reset, configure and connect, with roll-back of mode and flags when any step fails. |
| `MarketDataService.MarketDataService.Reconnect` | crates/market_data/src/service.rs:124-134 | Asks for the replay again and waits for it before readiness. |
| `MarketDataService.MarketDataService.PollNextUpdate` | crates/market_data/src/service.rs:136-157 | A replay completion counts only when polled; failures leave the flag alone. |
| `MarketDataService.MarketDataService.IsTradeReady` | crates/market_data/src/service.rs:73-88 | Computes the trade-ready gate of the snapshot. |
| `ServiceLaws.TradeReadyIsSafe` | crates/market_data/src/service.rs:73-157 | In every run trade-ready implies subscribed, undegraded, every tracked feed produced an event, warm-up ready, and in replay mode a completion polled since the latest link attempt. |
| `ServiceLaws.ReplayPointMatchesMode` | crates/market_data/src/service.rs:90-134 | The subscription's replay point always equals that of the current warm-up mode, roll-backs included. |
| `ServiceLaws.BookFeedsNeverReady` | crates/market_data/src/lib.rs:1031-1041 | A strategy that requires a book feed is never trade-ready in any run, because no event marks such a feed. |
| `ReadinessLaws.NeverSupplied` | crates/market_data/src/databento_live.rs:242-396 | A run that records only what the subscription brings never handles a bar of a timeframe that is neither the provider's source nor an aggregation target. |
| `ReadinessLaws.LiveRunGetsReady` | crates/market_data/src/service.rs:73-122 | One live start, one event for each tracked feed and enough source bars, aggregated where needed, make every strategy that can become trade-ready so. |
| `ReadinessLaws.TradeReadyReachable` | crates/market_data/src/service.rs:73-157 | Some run that records only what the subscription brings is trade-ready exactly if no book feed is required and all required timeframes, or one where any suffices, are the provider's source or an aggregation target. |
| `ReadinessLaws.FiveMinutesAloneNeverReady` | crates/market_data/src/lib.rs:1093-1136 | A strategy with the five-minute timeframe alone is never trade-ready from its feed. |
| `ServiceLaws.TradeReadyCountsBars` | crates/market_data/src/service.rs:73-157 | Trade-ready means enough bars were handled since the latest successful start of the warm-up. |
| `WarmupRestartLaws.RestartedBuffers` | crates/market_data/src/service.rs:90-122 | After any restarts a target's buffer holds the newest bars its slot completed since the latest start; without a window left open before it these are the bars of what was recorded since, and with one the first still opens where that window did. |
| `TradingHistory.TradeIdNamesItsSymbol` | apps/runtime/src/history.rs:613-684 | From the epoch on, trade ids of different symbols or times never collide, although a symbol may contain the separator. |
| `TradingHistory.TradeIdsCollide` | apps/runtime/src/history.rs:613-684 | Exactly when two trade ids are equal, times before the epoch included. |
| `TradingHistory.CloseShrinksStale` | apps/runtime/src/history.rs:655-684 | Closing a stale trade removes it from the set a flip still has to close: the measure of the recursion on any ledger. |
| `LedgerLaws.SyncTradeSettles` | apps/runtime/src/history.rs:613-684 | One position: afterwards its symbol has exactly the matching open trade, or none when flat, and no other symbol's trades changed. |
| `LedgerLaws.SyncTradesSettle` | apps/runtime/src/history.rs:520-525 | A list of positions, several of one symbol included: for each symbol the last one decides, and no other symbol's trades change. |
| `LedgerLaws.DiffMirrors` | apps/runtime/src/history.rs:419-469 | Processing the difference between two position maps carries the mirror over exactly if no position moves. |
| `MirrorLaws.ProcessedIsDiff` | apps/runtime/src/history.rs:419-469 | What a sync processes is exactly the changed positions and, as flat ones, those that disappeared. |
| `MirrorLaws.SyncMirrors` | apps/runtime/src/history.rs:326-541 | From a mirrored state, a sync mirrors its own listing exactly if no position of it moved between accounts. |
| `MirrorLaws.OneAccountNeverMoves` | apps/runtime/src/history.rs:419-469 | Listings of one account never show a move. |
| `MirrorLaws.LedgerMirrorsBroker` | apps/runtime/src/history.rs:419-469 | In any run in which no earlier sync saw a position move between accounts, the latest sync leaves each non-zero position with exactly one open trade of its symbol, side and size, and nothing else open, exactly if it sees no move either. |
| `MirrorLaws.AccountSwitchLosesTrade` | apps/runtime/src/history.rs:419-469 | Two syncs of a fresh recorder, the same symbol first in one account and then in another: the first mirrors, the second leaves the position without a trade. |
| `RestartLaws.FirstSyncMirrors` | apps/runtime/src/history.rs:85-155 | The first sync of a rebuilt recorder mirrors its listing exactly if the symbol of every open trade is listed. |
| `RestartLaws.RestartMirrors` | apps/runtime/src/history.rs:85-155 | After a restart in a mirroring run, exactly if every position held before is still listed. |
| `SyncLaws.SyncIsExact` | apps/runtime/src/history.rs:326-541 | With unique ids the remembered orders and positions are exactly the snapshot's. |
| `SyncLaws.RememberedSyncIsQuiet` | apps/runtime/src/history.rs:326-541 | Syncing what is remembered changes nothing, appends nothing and reports no change. |
| `SyncLaws.SyncIsIdempotent` | apps/runtime/src/history.rs:326-541 | The same snapshot again, at any time, is a no-op. |
| `FillLaws.FirstReportsAreFirst` | apps/runtime/src/history.rs:394-417 | The reference for fills: for each id the first report of it. |
| `FillLaws.FillsRecordedExactlyOnce` | apps/runtime/src/history.rs:394-417 | Over any run each fill id is recorded exactly once, as first reported. |
| `FillLaws.CountedQuantities` | apps/runtime/src/history.rs:394-417 | For any memory and any stored fills: total before plus newly counted quantities is the total after plus what was stored already under ids taken for new. |
| `FillLaws.AddedQuantities` | apps/runtime/src/history.rs:479-510 | For a recorder that remembers exactly the recorded fills, recorded total plus new quantities is the total after recording. |
| `FillLaws.LeavingOrderGetsAllItsFills` | apps/runtime/src/history.rs:479-510 | An order that leaves gets the sum of all distinct fills ever reported for it, and is Filled exactly when that reaches its quantity. |
| `FillLaws.LeavingOrderOfAnyMemory` | apps/runtime/src/history.rs:394-510 | For any memory: the leaving order's quantity is the sum of its recorded fills exactly if no fill reported now is recorded but forgotten; otherwise by how much it is off, and which status follows. |
| `FillLaws.RestartCountsTwice` | apps/runtime/src/history.rs:85-155 | After a restart, one sync with the order working and one without it that reports a stored fill again: the final quantity holds that fill twice. |
| `FillLaws.LateFillsAreNotCounted` | apps/runtime/src/history.rs:394-510 | The record of an order that left keeps its quantity and status to the end of any run that leaves it alone; it agrees with the recorded fills exactly if no fill of the order was first reported afterwards. |
| `OrderLaws.MergeContinues` | apps/runtime/src/history.rs:824-865 | A working order is recorded exactly when it is known or names its side and quantity; what the broker reports wins, what was known stays known, the origin is fixed. |
| `OrderLaws.SyncContinuesOrders` | apps/runtime/src/history.rs:366-510 | In every reachable state a sync keeps each recorded order, its origin and everything known about it. |
| `CostLaws.CloseIsAccounted` | apps/runtime/src/history.rs:686-726 | Closing charges exactly the symbol's fills of the open-close window and nets them off the gross result. |
| `CostLaws.ClosedTradesAreAccounted` | apps/runtime/src/history.rs:686-726 | Over any run every closed trade has net = gross - fees - commissions, summed over recorded fills of its window. |
| `CostLaws.ClosedTradesChargeTheirWindow` | apps/runtime/src/history.rs:514-525 | Every closed trade was closed by a sync of the run, with exactly the fills of its window recorded by then, the closing snapshot's included. |
| `CostLaws.ClosedCostsWithinRecorded` | apps/runtime/src/history.rs:893-927 | If the ledger's windows are disjoint no fill is charged twice, so trade costs never exceed recorded costs and every snapshot reports the recorded ones. |
| `CostLaws.FlipWindowsApart` | apps/runtime/src/history.rs:655-684 | The windows of the two trades of a flip are apart exactly when the position was captured after the sync. |
| `HoldingLaws.TradesAreHoldings` | apps/runtime/src/history.rs:613-684 | In every run in which no position moves between accounts, the trades of a symbol are its holdings: opened at the capture time of the first listing of a side, closed at the first sync that shows the symbol flat, gone or on the other side. |
| `WindowLaws.ChargesWhatFallsIn` | apps/runtime/src/history.rs:686-726 | A closed trade is charged exactly the fills of its symbol that were first reported by the sync that ended its holding, or before, and fall into the holding. |
| `WindowLaws.ChargedTwiceExactly` | apps/runtime/src/history.rs:655-726 | Exactly which fills are charged to two trades, read off the operations, flips included. |
| `WindowLaws.ClosedTradesCost` | apps/runtime/src/history.rs:686-726 | In any run the closed trades cost at least what the fills charged to them cost, and exactly that if and only if no fill that costs anything is charged twice. |
| `WindowLaws.CostsCountOnceExactly` | apps/runtime/src/history.rs:893-927 | The same from the operations alone: exactly if no costly fill lies in two holdings; then trade costs never exceed recorded costs and every snapshot reports the recorded ones. |
| `WindowLaws.FlipChargesTwice` | apps/runtime/src/history.rs:655-726 | A run of three syncs whose closed trades are charged two for a recorded fee of one. |
| `CostLaws.ClosedTradesAreFinal` | apps/runtime/src/history.rs:613-684 | With increasing sync times that fit 64 bits no later operation changes a closed trade, whatever the accounts and spellings. |
| `Recorder.RuntimeHistoryRecorder.FindOpenTrade` | apps/runtime/src/history.rs:613-630 | Finds the first open trade of the symbol in key order. |
| `Recorder.RuntimeHistoryRecorder.LatestPrice` | apps/runtime/src/history.rs:686-726 | The exit price is the price of the last of the latest charged fills. |
| `Recorder.RuntimeHistoryRecorder.CloseTradeSummary` | apps/runtime/src/history.rs:686-726 | Writes the closed trade, netted over its window, as one more trade record. |
| `Recorder.RuntimeHistoryRecorder.SyncTradeSummaryForPosition` | apps/runtime/src/history.rs:613-684 | The recursive method computes the ledger step and terminates on any ledger. |
| `Recorder.RuntimeHistoryRecorder.TotalFilledForOrder` | apps/runtime/src/history.rs:929-936 | Filtering and summing gives the filled total of the order. |
| `Recorder.RuntimeHistoryRecorder.RememberOrders` | apps/runtime/src/history.rs:366-386 | The loop over working orders remembers them and yields records for the changed ones. |
| `Recorder.RuntimeHistoryRecorder.RememberFills` | apps/runtime/src/history.rs:394-417 | The loop over fills skips those already seen. |
| `Recorder.RuntimeHistoryRecorder.RememberPositions` | apps/runtime/src/history.rs:419-441 | The loop over positions yields the changed ones. |
| `Recorder.RuntimeHistoryRecorder.ForgetPositions` | apps/runtime/src/history.rs:442-469 | Positions no longer listed are forgotten and reported as flat. |
| `Recorder.RuntimeHistoryRecorder.ForgetOrders` | apps/runtime/src/history.rs:479-510 | Orders no longer listed are forgotten and get their final record. |
| `Recorder.RuntimeHistoryRecorder.SyncLedger` | apps/runtime/src/history.rs:520-525 | The ledger step for every processed position, in order. |
| `Recorder.RuntimeHistoryRecorder.PersistPnl` | apps/runtime/src/history.rs:893-927 | The profit-and-loss snapshot from the recorded fills and the trades. |
| `Recorder.RuntimeHistoryRecorder.SyncBrokerSnapshot` | apps/runtime/src/history.rs:326-541 | The whole sync, step by step, is the pure sync on the recorder's state, change flag included. |
| `RiskEngine.MissingWithIsExact` | crates/risk_engine/src/lib.rs:243-292 | The collected protections are exactly the configured, unsupported ones of that preference. |
| `RiskEngine.EvaluateProtections` | crates/risk_engine/src/lib.rs:243-337 | The checks that push onto the two vectors collect those protections. |
| `RiskEngine.EvaluateRequest` | crates/risk_engine/src/lib.rs:63-182 | The evaluation, check by check, is the pure evaluation. |
| `RiskEngine.RiskBudget` | crates/risk_engine/src/lib.rs:373-425 | The approved risk stays within the budget exactly when the floor is at least one and the minimum does not exceed it; then the quantity is the maximum or one more would exceed the budget. |
| `RiskEngine.AffordableIsFloor` | crates/risk_engine/src/lib.rs:400-405 | A quantity fits the budget exactly when it is at most the floor of the quotient. |
| `RiskEngine.RiskSizingSucceeds` | crates/risk_engine/src/lib.rs:373-425 | Risk-based sizing succeeds exactly when its inputs are usable and something is left to trade. |
| `RiskEngine.ApprovedWithinBounds` | crates/risk_engine/src/lib.rs:339-449 | Approved quantities respect both bounds; zero is approved only by fixed sizing under a maximum of zero. |
| `RiskEngine.EntryDecision` | crates/risk_engine/src/lib.rs:85-241 | Accepted, rejected or override needed, each characterised by the request; a required trailing stop cannot be overridden. |
| `TradovateOrders.ValidateOrder` | crates/broker_tradovate/src/execution.rs:86-95 | Accepted exactly with a non-blank symbol, a quantity and the prices its type needs. |
| `TradovateOrders.ValidateOso` | crates/broker_tradovate/src/execution.rs:196-217 | Accepted exactly when the entry is and there are one or two good brackets. |
| `ExecutionPlanner.ContractSymbolResolves` | crates/execution_engine/src/lib.rs:749-761 | The symbol given to a position without a contract name resolves to its contract id. |
| `ExecutionPlanner.BuildProtectiveBrackets` | crates/execution_engine/src/lib.rs:616-671 | The pushed vector is the stop followed by the take-profit, each when configured. |
| `ExecutionPlanner.AssessManagement` | crates/execution_engine/src/lib.rs:673-719 | Warnings are collected until an impossible feature is met. |
| `ExecutionPlanner.EnsureProtectionConfigured` | crates/execution_engine/src/lib.rs:721-743 | Missing exactly when a required protection is not expected or has no distance. |
| `ExecutionPlanner.PlanEntry` | crates/execution_engine/src/lib.rs:234-325 | The entry planner, branch by branch, computes the pure entry plan. |
| `ExecutionPlanner.CancelReachesAll` | crates/execution_engine/src/lib.rs:194-232 | A cancel plan reaches every working order of the symbol or nothing, exactly when all their ids parse. |
| `ExecutionPlanner.ExecutePlan` | crates/execution_engine/src/lib.rs:395-491 | Actions run in order up to the first refusal; the report is complete exactly when none was refused. |
| `PlanLaws.EntryShape` | crates/execution_engine/src/lib.rs:234-325 | An accepted entry is one order, preceded by a liquidation exactly on a flatten-first reversal. |
| `PlanLaws.EntryIsPlannedWhen` | crates/execution_engine/src/lib.rs:234-325 | The exact condition under which an entry is planned. |
| `PlanLaws.EntryMeansItsIntent` | crates/execution_engine/src/lib.rs:262-325 | Ends at p±q when flat or on the same side. An opposite position ends at ±q: flattening first exactly if the liquidated contract is the one held, on a direct reversal exactly if q+abs(p) fits 32 bits. |
| `PlanLaws.ReversalModesAgree` | crates/execution_engine/src/lib.rs:283-303 | When flatten-first and direct reversal end in the same position, exactly: nothing to reverse, or the flattened contract is the one held and the reversing order fits 32 bits, or it is not and the order is saturated either way. |
| `PlanLaws.FlattenEndsFlat` | crates/execution_engine/src/lib.rs:326-352 | Exit and flatten are planned whatever the submission flags and liquidate the resolved contract; they end at zero exactly if nothing was held or that contract is the one held. |
| `PlanLaws.OwnContractResolves` | crates/execution_engine/src/lib.rs:749-761 | A position named after its contract resolves to it exactly if no other contract is configured as active. |
| `PlanLaws.ReduceNeverFlips` | crates/execution_engine/src/lib.rs:354-392 | Reduce ends at sign(p)·max(abs(p)-q, 0) exactly if some of the position stays or the contract to liquidate is the one held, and never enlarges or turns it. |
| `PlanLaws.InterruptedPlansAreSafe` | crates/execution_engine/src/lib.rs:395-491 | Stopped after any action, a plan leaves the old position, the target or nothing; only an entry can enlarge or turn a position. |
| `OrderPipeline.AdapterAcceptsPlans` | crates/broker_tradovate/src/execution.rs:86-217 | The adapter accepts everything a plan submits exactly when the symbol is not blank or nothing is submitted. |
| `OrderPipeline.AcceptedEntriesReachTheBroker` | crates/risk_engine/src/lib.rs:85-182 | From an accepted entry to its order: approved quantity within bounds, plus the opposite position only on a direct reversal; a required stop travels with it on the losing side. |
| `OrderPipeline.FirstBracketIsTheStop` | crates/execution_engine/src/lib.rs:616-671 | The stop bracket: opposite side, the order's quantity, its ticks away on the losing side. |
| `OrderPipeline.EntryOrderIsPriced` | crates/execution_engine/src/lib.rs:529-614 | An entry order carries the reference price exactly where its type needs one. |
| `OrderPipeline.LastBracketIsTheTakeProfit` | crates/execution_engine/src/lib.rs:616-671 | The brackets are the configured ones and no others; the take-profit is its ticks away on the winning side. |
| `OrderPipeline.StopLossWithinBudget` | crates/risk_engine/src/lib.rs:373-425 | The approved contracts lose at most the budget at their stop exactly if the budget pays for one contract and for the minimum; the stop order as sent does exactly if the whole order, reversal included, is at most what the budget pays for. |
| `OrderPipeline.StopTakesBackTheOrder` | crates/execution_engine/src/lib.rs:556-592 | A filled stop restores the position before the order, so it leaves nothing exactly when the entry started flat or flattened the contract held first. |
| `DeskLaws.PositionBound` | crates/execution_engine/src/lib.rs:262-325 | Over any run of intents, refusals, fills and disappearances the position never exceeds maxLegs - 1 plus one maximal entry plus what resting orders added to it. |
| `DeskLaws.PositionStaysBounded` | crates/execution_engine/src/lib.rs:262-303 | While protective orders only ever reduce the position, it never exceeds maxLegs - 1 plus one maximal entry. |
| `DeskLaws.WorstCaseIsExact` | crates/execution_engine/src/lib.rs:616-671 | No sequence of fills and disappearances leaves a limit exactly if the position with everything at rest on one side stays within it. |
| `DeskLaws.BracketsComeFromSuch` | crates/execution_engine/src/lib.rs:234-325 | An accepted entry that is planned with brackets comes from a strategy with a distance, a size and limits that allow one. |
| `DeskLaws.BoundHoldsInEveryRun` | crates/execution_engine/src/lib.rs:234-325 | The bound holds in every run exactly for strategies that can never leave a protective order; for every other strategy no bound holds at all. |
| `DeskLaws.ReversalsBreakAnyLimit` | crates/execution_engine/src/lib.rs:283-303 | With direct reversals entries and fills alone exceed any limit: nothing is liquidated and no order goes away. |
| `DeskLaws.StaleStopBreaksBound` | crates/execution_engine/src/lib.rs:262-325 | Largest position five: long five, reversed to short five, and the first entry's stop makes ten short. |
| `SyncCaching.SyncCache.ReplaceFromSyncPayload` | crates/broker_tradovate/src/live.rs:386-440 | Clears and reloads the cache from a payload and returns its snapshot. |
| `SyncCaching.SyncCache.ApplyProps` | crates/broker_tradovate/src/live.rs:442-503 | Applies one entity event; unknown entities change nothing and yield no snapshot. |
| `SyncCaching.SyncCache.Snapshot` | crates/broker_tradovate/src/live.rs:508-522 | All cached values in key order. |
| `SyncCacheLaws.CacheIsTheLastWord` | crates/broker_tradovate/src/live.rs:385-523 | After any run an order, position or fill is cached exactly when the last effective statement about it says it is live, with that value. |
| `SyncCacheLaws.OnlyLiveEntitiesAreCached` | crates/broker_tradovate/src/live.rs:1091-1096 | No flat position and no finished order is ever cached, and each entity sits under its own key. |
| `SyncCacheLaws.PayloadOrderIsCached` | crates/broker_tradovate/src/live.rs:404-411 | A full sync caches an order exactly when some entry shows it working. |
| `SyncCacheLaws.PayloadKeepsStaleOrder` | crates/broker_tradovate/src/live.rs:404-411 | It agrees with the payload's last entry exactly unless that entry is finished and an earlier one works. |
| `SyncCacheLaws.UpdateDecides` | crates/broker_tradovate/src/live.rs:442-503 | The same entries one by one instead of in one payload: the last one always decides. |
| `SyncCacheLaws.CacheSnapshotsAreExact` | crates/broker_tradovate/src/live.rs:508-522 | Snapshots list each order and fill once, show exposure exactly when something is cached, and for one account meet what an exact history sync needs. |
| `BrokerSession.PickAccount` | crates/broker_tradovate/src/lib.rs:561-597 | Picks an active, matching account; a selector finds one exactly if there is one, automatic selection exactly if one account alone is active; without active accounts, and only then, there are none to pick. |
| `BrokerSession.TradovateSessionManager.RequestToken` | crates/broker_tradovate/src/lib.rs:453-484 | Authenticated and pending after a token, failed after a refusal. |
| `BrokerSession.TradovateSessionManager.RenewAccessTokenIfNeeded` | crates/broker_tradovate/src/lib.rs:486-513 | Renews a token about to expire, leaves any other alone; a failure fails the session. |
| `BrokerSession.TradovateSessionManager.RefreshAccountList` | crates/broker_tradovate/src/lib.rs:515-539 | Renews and lists the accounts; a listing failure fails the sync and keeps the token. |
| `BrokerSession.TradovateSessionManager.ChooseAccount` | crates/broker_tradovate/src/lib.rs:550-617 | Route check, refresh when needed, selection. |
| `BrokerSession.TradovateSessionManager.ApplySyncSnapshot` | crates/broker_tradovate/src/lib.rs:894-921 | Takes over a snapshot: mismatch, review or synchronized. |
| `BrokerSession.TradovateSessionManager.ConnectUserSync` | crates/broker_tradovate/src/lib.rs:619-674 | Renewal, account, socket and sync request, each with its failure. |
| `BrokerSession.TradovateSessionManager.ReconnectUserSync` | crates/broker_tradovate/src/lib.rs:676-679 | Marks the connection first and then connects, so a failure leaves the mark. |
| `BrokerSession.TradovateSessionManager.PollNextEvent` | crates/broker_tradovate/src/lib.rs:681-726 | What every polled event or poll failure does. |
| `BrokerSession.TradovateSessionManager.DisconnectSync` | crates/broker_tradovate/src/lib.rs:728-739 | Disconnected once the socket is closed, or failed when it does not close. |
| `BrokerSession.TradovateSessionManager.AcknowledgeReconnectReview` | crates/broker_tradovate/src/lib.rs:840-848 | Records the decision and ends a review if one is pending. |
| `BrokerSession.TradovateSessionManager.Status` | crates/broker_tradovate/src/lib.rs:850-870 | Effective sync state and health at a time. |
| `SessionLaws.StepKeepsInv` | crates/broker_tradovate/src/lib.rs:619-726 | Every operation keeps the session invariant: state, latest snapshot and review reason agree. |
| `SessionLaws.SynchronizedIsClean` | crates/broker_tradovate/src/lib.rs:894-921 | A synchronized session shows exactly the latest snapshot, without mismatch and without a pending review. |
| `SessionLaws.HealthyMeans` | crates/broker_tradovate/src/lib.rs:923-950 | Healthy exactly when connected, synchronized with a clean snapshot, and sync and heartbeat are within their limits. |
| `SessionLaws.FailedMeans` | crates/broker_tradovate/src/lib.rs:1044-1075 | Failed health is failed sync in every run. |
| `SessionLaws.ConnectDecides` | crates/broker_tradovate/src/lib.rs:650-674 | A successful connect to exposure ends in review exactly at the first sync or after any disconnect ever seen, unless there is a mismatch. |
| `SessionLaws.WaysToSynchronize` | crates/broker_tradovate/src/lib.rs:681-726 | The exact ways into a synchronized state; an acknowledgement never clears a mismatch, and a review can end without one. |
| `SessionLaws.UpdateEndsReview` | crates/broker_tradovate/src/lib.rs:694-698 | Any entity update from the cache ends a pending review without an acknowledgement. |
| `SessionLaws.SelectionIsRouted` | crates/broker_tradovate/src/lib.rs:1019-1032 | The selected account's routing always fits the environment. |
| `SessionLaws.SelectionIsUsable` | crates/broker_tradovate/src/lib.rs:599-640 | A chosen account is active and matching, and connecting can parse its printed id. |
| `InstrumentResolver.ValidateChain` | crates/instrument_resolver/src/lib.rs:238-260 | The growing set accepts exactly chains of distinct, real months and reports the first fault. |
| `InstrumentResolver.FindFrontMonth` | crates/instrument_resolver/src/lib.rs:262-282 | The scan over the sorted copy computes the selection. |
| `InstrumentResolver.ResolveFrontMonth` | crates/instrument_resolver/src/lib.rs:166-186 | Empty, faulty and valid chains, each with its outcome. |
| `InstrumentResolver.BuildContractChain` | crates/instrument_resolver/src/lib.rs:475-497 | The nested loops build the chain of the years and months. |
| `FrontMonthLaws.SelectionIsTheMinimum` | crates/instrument_resolver/src/lib.rs:262-282 | The selection is the least contract month not past its cutoff, or there is none. |
| `FrontMonthLaws.SelectionIgnoresOrder` | crates/instrument_resolver/src/lib.rs:262-282 | The order of a validated chain does not matter. |
| `FrontMonthLaws.SelectionIsMonotone` | crates/instrument_resolver/src/lib.rs:262-282 | The front month never moves back as time passes. |
| `FrontMonthLaws.GeneratedChainResolves` | crates/instrument_resolver/src/lib.rs:475-507 | A generated chain is valid and resolves exactly until its last contract's cutoff. |
| `FrontMonthLaws.BuiltinChainsResolve` | crates/instrument_resolver/src/lib.rs:434-473 | Built-in chains resolve for every date of their start year and the next, and exactly until November of the year after. |
| `FrontMonthLaws.RawSymbolsAgree` | crates/instrument_resolver/src/lib.rs:309-334 | Raw symbols agree exactly on the same root, month and year modulo ten. |
| `FrontMonthLaws.BuiltinSymbolsAreDistinct` | crates/instrument_resolver/src/lib.rs:434-497 | No two built-in contracts of one start year share a raw symbol. |
| `Prelude.ParsePrintedI64` | crates/broker_tradovate/src/lib.rs:599-640 | Printing a 64-bit id and parsing it gives it back. |

## Left out

- Network, storage and JSON: transports deliver their replies as parameters, entities arrive parsed, and persistence is assumed to succeed.
- Rounding and range limits of the decimal and time types: decimals are exact, times unbounded; the sign of a negative zero is not modelled.
- Unsigned 32-bit sums of fill quantities: totals are unbounded naturals, so an overflow of such a sum is not modelled.
- Broker effects of a refused action: a refused action counts as not carried out, and `PlanLaws.InterruptedPlansAreSafe` covers every point at which a plan may stop.
- Texts: reasons, warnings, order texts and tags are opaque or dropped; only their presence and kind are kept.
- Session configuration and credentials: their validation and defaults are simple field checks; account and environment checks are modelled.
- Recorder records of strategy runs and modes, the projected position records and the latest-record fields of the projection: written but not read by what is modelled.
- Order and fill records written at submission time: an arbitrary list of records (`SubmissionOp`) stands for them.
- Mutex poisoning and direct mutable access to inner objects, such as marking one feed degraded by hand.
- Chart back-fill fetching and `take_last_events`: a request wrapper and a suffix.
- TradeReadyReachable: readiness from the subscription alone; the host also seeds the buffers once with up to two hours of fetched history, which is not modelled.
- RestartedBuffers: for streams in which no bar overtakes its neighbour, since `CoordinatorLaws.DeliveryOrder` shows what others do to the order.
- CostsCountOnceExactly: for runs in which no position moves between accounts, since `MirrorLaws.AccountSwitchLosesTrade` shows what a move does to the trades.
- The runtime state machine, readiness evaluation, strategy loading, control API, dashboard, journal, metrics and indicators: wrappers and labels with only easy claims.
- Fills of entry orders: an order that was accepted counts as filled in full at once, so entries that rest or fill in part are not modelled; protective orders do rest and fill in any part.
- The broker's own rules for protective orders, such as cancelling a partner or the orders of a liquidated contract, and the effect of a cancel action on them: `DeskLaws` lets the broker drop any of them at any time, or none.
- LedgerMirrorsBroker: stated for at most one entry per symbol in a snapshot and for one spelling and one symbol per key, since a trade is looked up by symbol alone.
- ClosedTradesAreFinal: stated for strictly increasing sync times that fit 64 bits, because trade ids are built from the sync time.
