# Verification of the short-term trading bot

A Dafny model of the bot's order lifecycle, its fill accounting, and the calculations that decide what its reports and
experiments claim, with proofs about all inputs, all runs and all reachable states. `dafny verify dfyconfig.toml`
checks everything.

## What is modelled

**The order protocol.** `Account` holds what survives a crash: the orders the broker really has, which no part of the
engine can read directly, and the orders and positions tables. `Engine` adds memory: lots, locks on (lot, side), order
metadata and the three barriers that stand while memory may lag the broker. Each write, read, answer and failure is
one step (`AccountSteps`, `Engine`, `EngineFills`, `Recovery`); `Runs` proves that every run of steps is safe, with
the broker filling any working order at any time, losing answers and failing polls, and the process dying between any
two commits. `Service` is the service's own code as a class: its checks, loops and error paths, each method with what
it sends, changes and leaves unchanged, and with a path of allowed steps from the state it finds to the state it
leaves (`Runs.Reaches`), so that what holds in every state of every run holds for the class; `Exchange` is the broker
it talks to, every choice left open and every call recorded. `Reading` is what a list of reports does to the engine.

**Crashes.** `CrashRuns` says what a restart restores in any state of any run, `CrashReads` compares a process that
crashed and read with one that never crashed, `TimedOut` says what a submit left without an answer can lose.
`Resolver`, `ResolverRuns` and `ResolverEngine` are the recovery of orders stranded by a lost answer, on its own and
as steps of the protocol. `Routing` is the two-legged broker, proved to give the honest replies the barriers rely on.

**Accounting.** `Position` is the lot with its transition table, `Ledgers` the position table and the restart replay,
`FillPoller` the cumulative records that become fills, `Booking` the proof that poller and engine book the same.
`Backtest` and `Backtester` are the replay on historical bars with its report, `Paper` and `PaperBroker` the simulated
broker with its cash and reservations.

**The experiment.** `Auc` is the rank-sum AUC with ties, `AucBounds` the exact bounds over all labelings of censored
samples, `Blocks` the walk-forward plan, `Predictions` and `Resume` the block-wise predictions and their resumption.

**Smaller parts.** `Bars` and `BarBuilder` (ticks to bars, bars to longer bars), `RateLimiter`, `TickSize`. `Domain`,
`Sums`, `SeqSums` and `Costs` are shared.

## What the proofs found

Where a promise does not hold on all inputs the model keeps the code as it is, has a lemma with an input on which it
fails, and one that says exactly when it holds.

- A submit that times out raises before the bar's runtime state is written (`short_trading_bot/app/service.py` 814-823
  and 661). After a crash the lot is the twin of the one in memory if and only if the bar's evaluation changed neither
  its stop nor its rungs: `TimedOut.RestoredExactlyWhenNothingWasNew`. An entry loses the stop chosen for it,
  `TimedOut.TimedOutEntryLosesItsStop`; a take-profit trim loses the rung it had moved to and may fire again,
  `TimedOut.TimedOutTrimLosesItsRung`.
- A trim with an explicit quantity is not clipped to the holding (`short_trading_bot/app/service.py` 669-676). With
  everything read, the new sell is covered if and only if the quantity is at most what is held:
  `CrashRuns.NewSellIsCoveredExactlyWhenHeld`; an input: `TimedOut.OversizedTrimIsNotCovered`. The repository's own
  strategies clip the quantity themselves (`short_trading_bot/strategy/algorithms/trend_long.py` 186-190,
  `short_trading_bot/strategy/algorithms/orb_intraday.py` 225), and the service's methods require it of a strategy's
  trims.
- A stop of zero or less is not restored (`short_trading_bot/app/service.py` 287-302): a restored lot is a twin if and
  only if its stop is positive or absent, `Recovery.RestoredRow`; an input: `Recovery.ZeroStopIsLost`.
- An unanswered overseas leg makes the list of today's orders short (`short_trading_bot/execution/broker/routing.py`
  135-139) and the resolver gives up an order that is live: `ResolverRuns.UnansweredLegExpiresLiveOrder`; exactly
  when, in `ResolverRuns.GivenUpExactlyWhenNothingListed`. With a complete list it never does:
  `ResolverRuns.ExpiredNeverReached`. The protocol's expiry step assumes the order never reached the broker.
- A fill's price is positive if and only if the report's average price is: `FillPoller.FillsArePositive`; an input:
  `FillPoller.UnpricedReportBooksFreeShares`.
- A fee or tax reported after all shares were is never booked (`short_trading_bot/execution/fill_poller.py` 89-92):
  `FillPoller.LateCostsAreNotBooked`. The recorded fee and tax are the largest reported if and only if no report that
  adds no shares claims more than those that do: `FillPoller.CostsAreMaximaExactlyWhen`.
- A backtest strategy that sells a lot out and buys again on the same bar has the round trip counted twice
  (`short_trading_bot/backtest/harness.py` 112-114 and 185): `Backtest.RoundTripCountedTwice`; exactly when, in
  `Backtest.ConservesExactlyWhen`, and by how much, in `Backtest.RebuyShiftsBooks`. The strategies of the repository
  ask for at most one thing per bar.
- Selling can cost money: a sale brings something in if and only if it is worth nothing or fee and tax together are at
  most 10,000 basis points: `Backtest.SaleBringsInExactlyWhen`, `Paper.SaleBringsInExactlyWhen`; inputs:
  `Backtest.CostlySaleOverdraws`, `Paper.CostlySaleOverdraws`.

The solvency theorems assume costs of zero or more within that bound, slippage of at most 10,000 basis points, and
prices and quantities that are not negative.

## Model

| member | source | states |
|---|---|---|
| `Runs.EveryRunIsSafe` | short_trading_bot/app/service.py:500-510 | In every state of every run of one session (any broker fills, lost answers, failed polls, cancels, adoptions, expiries, crashes between any two steps and between the two commits of a read): flat means the broker holds nothing and can execute nothing, a live sell's rest is covered by the broker's holding, one live order per lot and side, named by its lock, nothing sold short |
| `Runs.EveryStateIsSound` | short_trading_bot/app/service.py:196-269 | The protocol invariant holds in every state of every run, crashes at every commit boundary included, that starts from a hydrated process |
| `Runs.ReachedIsSafe` | short_trading_bot/app/service.py:500-510 | Any state a chain of steps leads to from a sound one is sound and safe; with the paths of the service's methods this carries the safety statements over to its code |
| `Runs.PathsJoin` | short_trading_bot/app/service.py:648-662 | Paths of steps join, so calls of the service one after another are one path |
| `Runs.StepKeepsInv` | short_trading_bot/app/service.py:752-1000 | Each of the eighteen steps (submit, acknowledge, time out, refuse, cancel, adopt, relock, expire, release, read, raise and lower barriers, evaluate, sync, spawn, broker move, crash and hydrate, crash between a fill's commit and its runtime columns) keeps the invariant |
| `Runs.InvIsSafe` | short_trading_bot/app/service.py:500-510 | The invariant implies all four safety statements |
| `Runs.TruthfulFlat` | short_trading_bot/app/service.py:500-510 | When memory is flat (no shares, no locks, no unconfirmed buy cancel, no start barrier) the broker holds zero of every lot and has no order it can execute |
| `Runs.LiveOrderIsLocked` | short_trading_bot/app/service.py:779-803 | An order the broker can still execute is exactly the one its (lot, side) lock names |
| `Account.SingleLiveOrder` | short_trading_bot/app/service.py:767-798 | At most one order of a lot and side can still execute, and its row is open |
| `Account.NoOversell` | short_trading_bot/app/service.py:786-797 | The unfilled rest of a live sell never exceeds what the broker really holds for the lot, however much is unread |
| `Account.NeverShort` | short_trading_bot/app/service.py:786-797 | The broker's holding of a lot is never negative |
| `Account.ReadMeansEqual` | short_trading_bot/app/service.py:836-866 | With everything executed for a lot read, tables and broker hold the same |
| `Engine.PlacedKeepsInv` | short_trading_bot/app/service.py:802-815 | Lock, metadata and row written before the broker call keep the invariant, given the checks made before |
| `Engine.SettledKeepsInv` | short_trading_bot/app/service.py:814-834 | Recording an answer, a refusal, a timeout or a confirmed cancel keeps it |
| `Engine.ExpiredRowKeepsInv` | short_trading_bot/app/service.py:914-936 | Rejecting an order the broker never had keeps it, with the lock still standing |
| `Engine.ReleasedKeepsMem` | short_trading_bot/app/service.py:914-936 | A lock is released exactly when its order is terminal; open and unknown orders stay locked |
| `Engine.LoweredKeepsInv` | short_trading_bot/app/service.py:846-866 | Barriers may fall after a poll for the legs that answered, and only for those |
| `Engine.BrokerKeepsInv` | short_trading_bot/app/service.py:836-866 | Fills nobody has read yet, at any time, keep the invariant |
| `Engine.SyncedKeepsInv` | short_trading_bot/app/service.py:1141-1166 | Writing runtime columns, or skipping an unchanged snapshot, leaves the row saying what memory says |
| `EngineFills.OnFillKeepsInv` | short_trading_bot/app/service.py:972-1000 | A fill through the tables into memory keeps the invariant on every path: metadata known, metadata recovered, lot rebuilt |
| `EngineFills.OnFillBooksOne` | short_trading_bot/app/service.py:972-1000 | A fill changes the totals of its own order by its quantity and no other order |
| `EngineFills.DeliveredKeepsInv` | short_trading_bot/app/service.py:972-1000 | One honest report brings its order's books up to it and leaves every other order alone |
| `EngineFills.RebuiltKeepsMem` | short_trading_bot/app/service.py:1012-1034 | A late buy on a lot memory has forgotten rebuilds the lot from its row, consistent with the tables |
| `EngineFills.RecoveredStaysBehind` | short_trading_bot/app/service.py:1035-1043 | Recovered metadata counts the fill exactly once and never takes a lock another order holds |
| `EngineFills.RestoredLotAgrees` | short_trading_bot/app/service.py:271-304 | A lot made from its row agrees with it in quantity, cost, profit and open or closed |
| `Recovery.HydratedKeepsInv` | short_trading_bot/app/service.py:196-269 | From any durable account, whatever the crash interrupted, hydrate reaches a sound state |
| `Recovery.RestoredRow` | short_trading_bot/app/service.py:271-304 | A row written at the end of a bar restores the lot's twin if and only if its stop is positive or absent |
| `Recovery.CrashKeepsLots` | short_trading_bot/app/service.py:196-304 | Before the closing read: crash and hydrate at the end of a bar or fill brings every watching or holding lot back with quantity, average, profit, rungs and stop (with the read, see `CrashReads.CrashAndReadIsInvisible`) |
| `Recovery.CrashKeepsLocks` | short_trading_bot/app/service.py:234-264 | Before the closing read: every order that may still work returns with its lock, its requested and its filled count (with the read, see `CrashReads.CrashAndReadIsInvisible`) |
| `Recovery.CrashAddsNoLocks` | short_trading_bot/app/service.py:234-264 | No lock appears that was not there for an order still open |
| `Recovery.TwinsReadTheSameFills` | short_trading_bot/app/service.py:972-1000 | The same later fills keep a restored lot the twin of the one that never crashed, even if they disagree on which fill is an add-on |
| `Recovery.RebuiltLotIsTwin` | short_trading_bot/app/service.py:1012-1034 | A closed lot forgotten by the restart and reopened by a late buy is the twin of the one remembered |
| `CrashRuns.CrashIsInvisible` | short_trading_bot/app/service.py:196-304 | In every state of every run: a watching or holding lot is restored as its twin if and only if its row has its stop and rungs, and so is every lot that is not in the middle of a bar |
| `CrashRuns.RunKeepsClean` | short_trading_bot/app/service.py:1045-1166 | Along every run, rows and memory of a lot agree on stop and rungs except between its evaluation and its next sync |
| `CrashRuns.StepKeepsClean` | short_trading_bot/app/service.py:972-1000 | No step but a lot's own evaluation can part its row from its memory |
| `CrashRuns.RowRestoresExactlyWhen` | short_trading_bot/app/service.py:271-304 | A row that agrees with a lot restores its twin if and only if it has the lot's stop and rungs |
| `CrashReads.CrashAndReadIsInvisible` | short_trading_bot/app/service.py:196-269 | In every state of every run, for any lot not in the middle of a bar: crash, hydrate and read any honest reports; the lot, the lock and the filled count of every open order are those of a process that read the same reports and never crashed |
| `CrashReads.CrashInReadIsInvisible` | short_trading_bot/app/service.py:972-1000 | A process that dies between a fill's commit and its runtime columns restores every watching or holding lot as the finished read would have left it |
| `CrashReads.ReportsKeepSideBySide` | short_trading_bot/app/service.py:972-1000 | Reading the same reports keeps a restarted engine beside one that never crashed: lots known to both, forgotten by one, or rebuilt by a late buy |
| `TimedOut.RestoredExactlyWhenNothingWasNew` | short_trading_bot/app/service.py:807-834 | After a submit that timed out and a crash, for either side: the lot is restored as evaluated if and only if the evaluation changed neither stop nor rungs; the order comes back locked |
| `TimedOut.TimedOutEntryLosesItsStop` | short_trading_bot/app/service.py:807-834 | Where the code falls short: an entry whose submit times out leaves the bar before its stop is written; after a crash the order may still fill and the stop is gone |
| `TimedOut.TimedOutTrimLosesItsRung` | short_trading_bot/domain/position.py:162-165 | Where the code falls short: a take-profit trim whose submit times out has moved to the next rung in memory only; after a crash the same rung can fire again |
| `TimedOut.OversizedTrimIsNotCovered` | short_trading_bot/app/service.py:669-676 | Where the code falls short: with ten shares held, a trim of twelve is not covered |
| `Recovery.ZeroStopIsLost` | short_trading_bot/app/service.py:287-302 | Where the code falls short: a stop of zero is written and not read back |
| `Reading.ReportIsAStep` | short_trading_bot/app/service.py:972-1000 | Reading a true report is a read step of the protocol, or nothing when its number is not stored yet |
| `Reading.NumberFindsOne` | short_trading_bot/execution/fill_poller.py:123-165 | In a sound account a stored number belongs to one order |
| `CrashRuns.NewSellIsCoveredExactlyWhenHeld` | short_trading_bot/app/service.py:669-676 | With everything read and nothing open, a new sell is covered by the broker's holding if and only if it asks for no more than memory holds; the service does not clip an explicit trim |
| `Service.TradingService.constructor` | short_trading_bot/app/service.py:196-203 | A process starts with the tables and an empty memory |
| `Service.TradingService.Submit` | short_trading_bot/app/service.py:752-834 | At most one new order, of the key, price and size allowed; if none is sent there is a reason (nothing to trade, standing order, unread executions, refusal); with a free lock and no barrier exactly the order asked for is sent; a raise means the last call got no answer |
| `Service.TradingService.Send` | short_trading_bot/app/service.py:798-834 | The one submit call and its recorded answer; the lock stays unless the broker refused |
| `Service.TradingService.PlaceOrder` | short_trading_bot/app/service.py:802-834 | Row and lock first, then the call; a timeout keeps the lock and leaves the row Unknown |
| `Service.TradingService.PersistOrder` | short_trading_bot/app/service.py:802-813 | The row exists as pending under a fresh id before the broker hears of it |
| `Service.TradingService.ReadBeforeSell` | short_trading_bot/app/service.py:771-776 | Either everything executed for the lot is now known or the barrier still stands |
| `Service.TradingService.ReplaceSell` | short_trading_bot/app/service.py:779-797 | The standing sell is cancelled and read before no more than the rest is sold again |
| `Service.TradingService.ClearStandingSell` | short_trading_bot/app/service.py:783-794 | Gone means cancelled, fully read and nothing of the key open; otherwise a lock or a barrier remains |
| `Service.TradingService.RefreshFills` | short_trading_bot/app/service.py:836-866 | One poll: every report it handed over is booked, one after the other as `Reading` says; all barriers fall after a complete one, only domestic ones after an incomplete one, none after a failure; the result says whether the lot is confirmed |
| `Service.TradingService.PollOnce` | short_trading_bot/app/service.py:836-852 | The broker is asked once, and the state is the one its reports lead to |
| `Service.TradingService.HandleReports` | short_trading_bot/app/service.py:972-1000 | Handling reports in turn is their fold over the engine |
| `Service.TradingService.LowerBarriers` | short_trading_bot/app/service.py:846-866 | Every barrier falls after a complete poll, only the domestic ones after an incomplete one |
| `Service.TradingService.CancelPending` | short_trading_bot/app/service.py:868-894 | The broker is asked exactly for working orders; terminal ones need no call, unknown ones are left alone; only an accepted cancel frees the lock of a working order |
| `Service.TradingService.AskToCancel` | short_trading_bot/app/service.py:876-894 | One cancel call; an accepted one frees the lock of an order that has stopped, any other answer leaves everything |
| `Service.TradingService.CancelOpenBuy` | short_trading_bot/app/service.py:896-912 | Afterwards the lot's buy is read, marked unconfirmed, still unknown, or refused by the broker in this call |
| `Service.TradingService.ConfirmBuyCancel` | short_trading_bot/app/service.py:908-912 | A cancelled buy keeps the lot marked until everything executed for it has been read |
| `Service.TradingService.ReleaseIfTerminal` | short_trading_bot/app/service.py:914-936 | Frees a lock exactly when its order can no longer fill |
| `Service.TradingService.ReleaseFinishedLocks` | short_trading_bot/app/service.py:940-943 | Afterwards every lock names an open order |
| `Service.TradingService.FlatLot` | short_trading_bot/app/service.py:948-964 | Unless an answer was lost, shares the lot still holds have a standing sell, an unread execution or a refusal in the way |
| `Service.TradingService.FlatAll` | short_trading_bot/app/service.py:938-968 | Never buys; unless an answer was lost, every numbered buy still open is one the broker refused to cancel in this pass |
| `Service.TradingService.IsFlat` | short_trading_bot/app/service.py:500-510 | Flat exactly by the four conditions, and then the broker is flat |
| `Service.TradingService.KillSwitchBar` | short_trading_bot/app/service.py:597-603 | The liquidation request is withdrawn exactly when the engine is flat, and only while the broker holds and can execute nothing |
| `Service.TradingService.HandleIntent` | short_trading_bot/app/service.py:666-750 | An entry never exceeds the cap; an exit leaves no shares without a standing sell or a reason; an unobstructed trim sends exactly its quantity |
| `Service.TradingService.HandleSell` | short_trading_bot/app/service.py:730-750 | An exit cancels the standing buy, then sells all there is; an unobstructed trim sends exactly its quantity; otherwise a sell stands, is barred or was refused |
| `Service.TradingService.GiveRungBack` | short_trading_bot/app/service.py:743-750 | A trim that did not go out gives its rung back and changes nothing else |
| `Service.TradingService.HandleEntry` | short_trading_bot/app/service.py:686-742 | With a free lock, open gates and a positive capped quantity exactly that order goes out, otherwise nothing does |
| `Service.TradingService.ProcessBar` | short_trading_bot/app/service.py:648-662 | The invariant survives a bar, and unless a submit was left in doubt the runtime columns say what memory says |
| `Service.TradingService.ReceiveFill` | short_trading_bot/app/service.py:972-1000 | The composed fill handler is the step of the protocol model |
| `Service.TradingService.RecoverMeta` | short_trading_bot/app/service.py:1002-1043 | Metadata is rebuilt from the order row, or the lot from its position row |
| `Service.TradingService.Reflect` | short_trading_bot/app/service.py:981-1000 | Lot, runtime columns and counts take the fill; a completed order gives up its lock |
| `Service.TradingService.SyncRuntime` | short_trading_bot/app/service.py:1141-1166 | Writes the runtime columns unless the last snapshot was the same |
| `Service.TradingService.Spawn` | short_trading_bot/app/service.py:1108-1127 | A fresh lot and its row |
| `Service.TradingService.RelockOrder` | short_trading_bot/app/service.py:548-568 | An adopted order gets its lock and metadata at once, and no other lock moves |
| `Service.TradingService.RestoreLots` | short_trading_bot/app/service.py:209-233 | Exactly the rows not closed become lots |
| `Service.TradingService.RestoreLocks` | short_trading_bot/app/service.py:234-264 | Exactly the open orders get lock and metadata, and their lots come along even if closed |
| `Service.TradingService.Hydrate` | short_trading_bot/app/service.py:196-269 | From any durable account: memory is what the tables say behind the start barrier, then one poll whose reports are read one after the other, which is the state `CrashReads.CrashAndReadIsInvisible` speaks of |
| `Service.EntryFitsCap` | short_trading_bot/app/service.py:683-720 | Whatever an entry adds is priced and sized inside the order cap |
| `Ledgers.RestoreRiskState` | short_trading_bot/app/service.py:313-350 | The restart replay's figure equals what the lots had realized in memory today, and its quantity and average are those of the memory lot for every lot sold from today |
| `Ledgers.DailyIsSumOverLots` | short_trading_bot/app/service.py:319-350 | The figure is a sum of one figure per lot |
| `Ledgers.ReplayOrderIsIrrelevant` | short_trading_bot/app/service.py:315-321 | Reading the fills lot by lot gives the figure their order of arrival would give |
| `TickSize.CappedFits` | short_trading_bot/app/service.py:1168-1180 | A capped quantity fits the cap |
| `TickSize.CappedIsLargest` | short_trading_bot/app/service.py:1168-1180 | No larger whole number of shares would fit |
| `TickSize.CappedOrderStaysCapped` | short_trading_bot/app/service.py:683-720 | Rounded, capped and rounded again, a domestic order never exceeds the cap |
| `Service.TradingService.HandleFill` | short_trading_bot/execution/order_manager.py:201-260 | Fill row, order state and position in one commit; a cancelled order is not revived |
| `Service.TradingService.RecordOutcome` | short_trading_bot/execution/order_manager.py:152-173 | The answer on the order's row; a refusal also gives the lock back |
| `Service.TradingService.OrphanPendingToUnknown` | short_trading_bot/execution/order_manager.py:316-329 | Exactly the submits a crash interrupted become unknown |
| `AccountSteps.PersistKeepsDurable` | short_trading_bot/execution/order_manager.py:89-123 | A row written before the broker call keeps the account sound if no order of its key is open and a sell asks for no more than is recorded and read |
| `AccountSteps.MoveKeepsDurable` | short_trading_bot/execution/order_manager.py:125-199 | Acknowledge, refuse, time out and cancel keep the account sound |
| `AccountSteps.FillKeepsDurable` | short_trading_bot/execution/order_manager.py:201-260 | Booking an owed fill keeps it sound: recorded quantity is the sum over fills, sells stay covered |
| `AccountSteps.BrokerKeepsDurable` | short_trading_bot/execution/order_manager.py:125-199 | Whatever the broker executes on live orders keeps it sound |
| `AccountSteps.OwedSellIsHeld` | short_trading_bot/execution/order_manager.py:370-376 | A sell that is owed a fill finds its shares recorded |
| `Ledgers.FillKeepsAgreement` | short_trading_bot/execution/order_manager.py:346-383 | A fill taken by memory lot and position row leaves them equal in quantity, cost, realized profit and open or closed, also when it reopens a closed one |
| `Ledgers.MemoryAndTableAgree` | short_trading_bot/execution/order_manager.py:346-383 | And so for every fill sequence in which sells arrive while shares are held |
| `FillPoller.Poller.PollLocked` | short_trading_bot/execution/fill_poller.py:78-121 | One poll books each report's missing part to the order its number resolves to |
| `FillPoller.Resolve` | short_trading_bot/execution/fill_poller.py:123-165 | The newest order of the session with that number, if there is one |
| `FillPoller.ExactlyOnce` | short_trading_bot/execution/fill_poller.py:78-165 | After any history of polls, repeats, stale or reordered rows, unresolved numbers and restarts: recorded quantity is the largest resolved one, recorded fee and tax the largest on applied reports |
| `FillPoller.HistoryBooksEachReportOnce` | short_trading_bot/execution/fill_poller.py:78-121 | Remembered ids never lose a report and never book one twice |
| `FillPoller.RecordedIsRunningMaximum` | short_trading_bot/execution/fill_poller.py:88-121 | Quantity, fee and tax are running maxima |
| `FillPoller.FillsArePositive` | short_trading_bot/execution/fill_poller.py:93-118 | Every fill has positive quantity, and positive price if and only if the report's average price is positive |
| `FillPoller.UnpricedReportBooksFreeShares` | short_trading_bot/execution/fill_poller.py:93-118 | Where the code falls short: a report without an average price books shares at a price of zero |
| `FillPoller.CostsAreMaximaExactlyWhen` | short_trading_bot/execution/fill_poller.py:93-118 | Recorded fee and tax are the largest over all reports if and only if no report that adds no shares claims more than those that do |
| `FillPoller.LateCostsAreNotBooked` | short_trading_bot/execution/fill_poller.py:89-92 | Where the code falls short: a fee and tax reported after the last share are not booked |
| `FillPoller.BooksStayNonNegative` | short_trading_bot/execution/fill_poller.py:93-118 | With positive average prices the booked quantity and notional never turn negative |
| `FillPoller.GrowingReportBooksItsNotional` | short_trading_bot/execution/fill_poller.py:93-104 | A report whose notional exceeds the booked one closes the gap exactly |
| `FillPoller.RecordedNotionalIsLastReport` | short_trading_bot/execution/fill_poller.py:93-104 | If every applied report raises the notional, the recorded notional is last quantity times last average price |
| `Booking.PollBooksTheSame` | short_trading_bot/execution/fill_poller.py:78-121 | The poller over its fills table and the engine over its order rows, given the same reports, end with the same quantity, notional, fee and tax for every order |
| `Booking.ReportBooksTheSame` | short_trading_bot/execution/fill_poller.py:88-121 | So for one report, remembered, repeated, unresolved or new |
| `Booking.SameResolution` | short_trading_bot/execution/fill_poller.py:123-165 | Both resolve a number to the same order |
| `Resolver.UnknownOrderResolver.PollOnce` | short_trading_bot/execution/unknown_resolver.py:54-138 | Adopts a lone match, expires what is not found after the grace period, changes nothing else, and counts what it did |
| `Resolver.UnknownOrderResolver.Candidates` | short_trading_bot/execution/unknown_resolver.py:75-81 | Unlinked broker orders grouped by ticker, side and quantity |
| `Resolver.UnknownOrderResolver.BySignature` | short_trading_bot/execution/unknown_resolver.py:82-85 | Stranded orders grouped the same way |
| `Resolver.UnknownOrderResolver.ResolveSignature` | short_trading_bot/execution/unknown_resolver.py:91-134 | One signature: one to one is adopted, none found may expire, anything else is left alone |
| `ResolverRuns.AdoptsItsOwn` | short_trading_bot/execution/unknown_resolver.py:93-111 | If every broker order of today comes from a local one and no submit is in flight, an adopted order gets the number that is really its own |
| `ResolverRuns.ReachedIsFound` | short_trading_bot/execution/unknown_resolver.py:73-81 | An order that reached the broker is found in a complete list |
| `ResolverRuns.ExpiredNeverReached` | short_trading_bot/execution/unknown_resolver.py:112-127 | With a complete list, only orders that never reached the broker are given up |
| `ResolverRuns.LoneOrderIsAdopted` | short_trading_bot/execution/unknown_resolver.py:93-111 | A reached order alone in its signature is adopted |
| `ResolverRuns.GivenUpExactlyWhenNothingListed` | short_trading_bot/execution/unknown_resolver.py:112-127 | A stranded order past its grace is given up if and only if no unlinked order of its signature is listed |
| `ResolverRuns.UnansweredLegExpiresLiveOrder` | short_trading_bot/execution/unknown_resolver.py:73-81 | Where the code falls short: an unanswered leg lists nothing, and an order live at the broker is given up |
| `ResolverRuns.PassKeepsTruth` | short_trading_bot/execution/unknown_resolver.py:54-138 | A pass keeps links right and every reached order within the resolver's reach |
| `ResolverRuns.NoNumberTwice` | short_trading_bot/execution/unknown_resolver.py:60-72 | No number is linked to two orders of the session |
| `ResolverRuns.EverySessionLinksRight` | short_trading_bot/execution/unknown_resolver.py:140-168 | Over every session of submits, late arrivals, fills and passes: linked numbers are the orders' own and unique |
| `ResolverEngine.TablesTellTheTruth` | short_trading_bot/execution/unknown_resolver.py:140-168 | The protocol's tables satisfy what the resolver needs |
| `ResolverEngine.VerdictIsAllowed` | short_trading_bot/execution/unknown_resolver.py:91-127 | With a complete list each verdict is an adopt or expire step the protocol allows and writes the same row |
| `ResolverEngine.PassIsARun` | short_trading_bot/execution/unknown_resolver.py:54-138 | A whole pass is a run of the protocol ending in a sound state |
| `ResolverEngine.CarriedOutInFull` | short_trading_bot/execution/unknown_resolver.py:54-138 | And its tables are exactly what the resolver wrote |
| `Exchange.Broker.SubmitOrder` | short_trading_bot/execution/broker/base.py:28-30 | A refusal means not taken in; a lost answer says nothing |
| `Exchange.Broker.CancelOrder` | short_trading_bot/execution/broker/base.py:32-33 | An accepted cancel means the order has stopped |
| `Exchange.Broker.GetExecutions` | short_trading_bot/execution/broker/base.py:43-46 | True reports, repeated and reordered, with the full executed quantity of every order on the legs that answered |
| `Exchange.Broker.Act` | short_trading_bot/execution/broker/base.py:43-46 | Working orders execute or stop at any time, never beyond their quantity |
| `Routing.RoutingBroker.OverseasCall` | short_trading_bot/execution/broker/routing.py:56-78 | The leg's answer if it was asked and gave one, else the default |
| `Routing.RoutingBroker.ResumeOverseasReads` | short_trading_bot/execution/broker/routing.py:80-86 | The next call tries the leg once; one more failure rests it again |
| `Routing.RoutingBroker.SubmitOrder` | short_trading_bot/execution/broker/routing.py:92-95 | An overseas order wakes the overseas reads, and the order goes to the leg of its market |
| `Routing.RoutingBroker.LegFor` | short_trading_bot/execution/broker/routing.py:49-54 | The leg of a market; an overseas order without an overseas leg has none |
| `Routing.RoutingBroker.GetExecutions` | short_trading_bot/execution/broker/routing.py:119-129 | Complete if and only if there is no overseas leg or it was asked and answered; a domestic failure leaves the flag alone |
| `Routing.PollIsHonest` | short_trading_bot/execution/broker/routing.py:119-129 | The merged answer and its flag are an honest reply in the sense on which the barriers rely |
| `Routing.DeadLegIsLeftAlone` | short_trading_bot/execution/broker/routing.py:66-76 | A leg that answers nothing is called at most until the limit, however many reads follow |
| `Routing.AnsweringLegStaysInUse` | short_trading_bot/execution/broker/routing.py:66-78 | A leg is given up only after that many failures in a row |
| `Position.PositionLot.TransitionTo` | short_trading_bot/domain/position.py:71-76 | Moves only along the table, and never closes while shares are held |
| `Position.PositionLot.ReopenOrphan` | short_trading_bot/domain/position.py:90-98 | Only a closed lot with shares becomes holding |
| `Position.PositionLot.RestorePendingEntry` | short_trading_bot/domain/position.py:108-111 | Stop and intended quantity of a waiting entry |
| `Position.PositionLot.ApplyFill` | short_trading_bot/domain/position.py:185-218 | The fill's effect on every field, and whether it raised |
| `Position.FillKeepsCoherence` | short_trading_bot/domain/position.py:185-218 | A fill raises exactly when it sells with nothing held, else the lot stays open exactly while it holds shares |
| `Position.RunKeepsCoherence` | short_trading_bot/domain/position.py:185-218 | Over every run that sells only what is held |
| `Position.NoFillRaises` | short_trading_bot/domain/position.py:185-218 | And no fill of such a run raises |
| `TickSize.TableIsCases` | short_trading_bot/execution/tick_size.py:37-42 | The scan of the band table gives the tick of the price's band, for every price |
| `TickSize.LandsOnTick` | short_trading_bot/execution/tick_size.py:45-55 | A rounded price is a positive multiple of the tick of its own band |
| `TickSize.OnTickIsFixed` | short_trading_bot/execution/tick_size.py:45-55 | Such a price is left alone by both sides |
| `TickSize.AlignmentIsIdempotent` | short_trading_bot/execution/tick_size.py:45-55 | Rounding twice, even for the other side, is rounding once, across all bands |
| `TickSize.MovesLessThanOneTick` | short_trading_bot/execution/tick_size.py:45-55 | Rounding moves less than one tick, the minimum tick aside |
| `TickSize.AlignmentIsMonotone` | short_trading_bot/execution/tick_size.py:45-55 | A higher price never rounds lower |
| `Bars.EveryBarIsSummary` | short_trading_bot/market/bar_builder.py:16-48 | Every bar is the summary (first, last, highest, lowest price, volume, value) of exactly the ticks of its period |
| `Bars.NothingIsLost` | short_trading_bot/market/bar_builder.py:28-35 | Volume and value over the bars are those of the ticks, final flush included |
| `Bars.EveryTickInItsBar` | short_trading_bot/market/bar_builder.py:60-80 | Bars rise strictly in time and each tick lies in the bar of its period |
| `Bars.BucketOfBucket` | short_trading_bot/market/bar_builder.py:60-64 | The longer period of a tick is the longer period of its shorter period |
| `BarBuilder.Builder.OnTick` | short_trading_bot/market/bar_builder.py:66-80 | A late tick raises and changes nothing; any other moves only its own ticker on |
| `BarBuilder.Builder.FlushOne` | short_trading_bot/market/bar_builder.py:82-90 | Closes one ticker's open bar |
| `BarBuilder.Builder.FlushAll` | short_trading_bot/market/bar_builder.py:82-90 | Closes every open bar, each once |
| `BarBuilder.TickersDoNotMix` | short_trading_bot/market/bar_builder.py:66-80 | In a mixed stream each ticker gets the bars its own ticks alone would give |
| `BarBuilder.InOrderNeverRaises` | short_trading_bot/market/bar_builder.py:66-80 | A stream in which each ticker's times do not go back never raises |
| `Bars.Resample` | short_trading_bot/market/kis_history.py:204-229 | The resampling loop is the fold the theorems speak of |
| `Bars.ResampleIsBuild` | short_trading_bot/market/kis_history.py:204-229 | Minute bars resampled to any multiple equal the bars built at that resolution from the ticks |
| `Bars.BuildThenResample` | short_trading_bot/market/kis_history.py:204-229 | And so after every tick, open bar included |
| `RateLimiter.Limiter.Acquire` | short_trading_bot/infra/rate_limit.py:41-55 | One token per return, one wait counted per failed turn |
| `RateLimiter.CallsCompose` | short_trading_bot/infra/rate_limit.py:41-55 | Calls one after another are one run over all their clock readings, so the bounds hold across calls |
| `RateLimiter.WindowIsBounded` | short_trading_bot/infra/rate_limit.py:41-55 | Any window of any run sees at most burst plus rate times length grants |
| `RateLimiter.TokensStayInRange` | short_trading_bot/infra/rate_limit.py:46-51 | Tokens never leave the range from zero to burst |
| `RateLimiter.GrantsArePaidFor` | short_trading_bot/infra/rate_limit.py:46-51 | Grants and tokens left are paid for by burst and earnings |
| `RateLimiter.SleepEnds` | short_trading_bot/infra/rate_limit.py:53-55 | The sleep ends in a grant if and only if the bucket can hold a token |
| `Backtest.ConservesExactlyWhen` | short_trading_bot/backtest/harness.py:161-213 | An intent conserves cash if and only if it does not buy into a lot whose trade is booked with a flow other than zero |
| `Backtest.EveryBarConserves` | short_trading_bot/backtest/harness.py:82-116 | After every bar cash is start plus booked net profits plus the flow of open tracks, for every tape and strategy whose buys precede its sells on a bar |
| `Backtest.OneIntentIsBuysFirst` | short_trading_bot/backtest/harness.py:111-114 | A strategy with at most one intent per bar is such a strategy |
| `Backtest.EveryBarIsSolvent` | short_trading_bot/backtest/harness.py:161-204 | Cash never goes below zero, whatever the strategy asks |
| `Backtest.SaleBringsInExactlyWhen` | short_trading_bot/backtest/harness.py:190-212 | A sale costs no money if and only if it is worth nothing or fee and tax together leave something |
| `Backtest.CostlySaleOverdraws` | short_trading_bot/backtest/harness.py:190-212 | Where the code falls short: with costs above the proceeds a sale makes the cash negative |
| `Backtest.LiquidatedRunReconciles` | short_trading_bot/backtest/harness.py:118-136 | With forced liquidation end equity is cash, and cash less start is the sum of net profits |
| `Backtest.BookedTradeIsSquare` | short_trading_bot/backtest/harness.py:215-239 | A booked trade sold what it bought; net is gross less fees and tax; prices times quantity are its notionals |
| `Backtest.RebuyShiftsBooks` | short_trading_bot/backtest/harness.py:185-189 | Where the code falls short: a buy into a lot closed on the same bar puts the books off by exactly its booked flow |
| `Backtest.RoundTripCountedTwice` | short_trading_bot/backtest/harness.py:185-213 | A concrete round trip counted twice |
| `Backtest.EquityIs` | short_trading_bot/backtest/harness.py:154-159 | Equity beyond the start is booked profit, open flow and the worth of what is held |
| `Backtester.Replay.Execute` | short_trading_bot/backtest/harness.py:161-213 | The fill simulation changes the books as modelled and nothing else |
| `Backtester.Replay.ProcessBar` | short_trading_bot/backtest/harness.py:93-116 | One bar of the replay |
| `Backtester.Replay.EquityNow` | short_trading_bot/backtest/harness.py:154-159 | Cash plus shares at last prices |
| `Backtester.Replay.Liquidate` | short_trading_bot/backtest/harness.py:118-135 | Every open lot is sold out in order of appearance |
| `Backtester.Replay.Run` | short_trading_bot/backtest/harness.py:82-150 | The whole replay, with one equity per bar |
| `Backtester.Replay.RunCampaign` | short_trading_bot/backtest/harness.py:82-150 | A liquidated campaign whose budget is its start reconciles exactly |
| `Backtest.ReportReconcilesExactlyWhen` | short_trading_bot/reports/campaign_report.py:34-62 | A liquidated run's report reconciles if and only if budget and start differ by at most a cent |
| `Paper.EveryRunIsSolvent` | short_trading_bot/execution/broker/paper.py:69-126 | With funds enforced, every interleaving of submits, cancels and prices leaves cash less reservations at zero or more in every currency, and reservations belong to resting buys at their cost |
| `Paper.SubmitKeepsDesk` | short_trading_bot/execution/broker/paper.py:69-98 | So does one submit, filled, resting or refused |
| `Paper.CancelKeepsDesk` | short_trading_bot/execution/broker/paper.py:100-105 | So does one cancel |
| `Paper.MetKeepsDesk` | short_trading_bot/execution/broker/paper.py:120-126 | So does one touched order, filled out of its own reservation |
| `Paper.SaleBringsInExactlyWhen` | short_trading_bot/execution/broker/paper.py:196-253 | A sale costs no money if and only if it is worth nothing or fee and tax together leave something |
| `Paper.CostlySaleOverdraws` | short_trading_bot/execution/broker/paper.py:196-253 | Where the code falls short: with costs above the proceeds a sale leaves less than nothing available |
| `Paper.ChunksAddUp` | short_trading_bot/execution/broker/paper.py:178-194 | Pieces add up to the order, are positive, as few as allowed, and whole for a whole order |
| `Paper.EveryRunFillsAllOrNothing` | short_trading_bot/execution/broker/paper.py:69-126 | In every run an order that rests has no fill, and one that was filled no longer rests |
| `Paper.SubmitFillsAllOrNothing` | short_trading_bot/execution/broker/paper.py:84-98 | An accepted order rests unfilled or is filled to its whole quantity; others are untouched |
| `Paper.MetFillsAllOrNothing` | short_trading_bot/execution/broker/paper.py:120-126 | A touched resting order is filled to its whole quantity and leaves the book |
| `PaperBroker.PaperBrokerAdapter.SubmitOrder` | short_trading_bot/execution/broker/paper.py:69-98 | Submit as modelled, records cumulative |
| `PaperBroker.PaperBrokerAdapter.CancelOrder` | short_trading_bot/execution/broker/paper.py:100-105 | Order and reservation go together |
| `PaperBroker.PaperBrokerAdapter.OnMarketPrice` | short_trading_bot/execution/broker/paper.py:107-126 | Resting orders are met in order of arrival |
| `PaperBroker.PaperBrokerAdapter.AvailableCash` | short_trading_bot/execution/broker/paper.py:166-172 | Cash less reservations of the currency |
| `PaperBroker.PaperBrokerAdapter.Chunk` | short_trading_bot/execution/broker/paper.py:178-194 | The chunking loop |
| `PaperBroker.PaperBrokerAdapter.ApplyAndEmit` | short_trading_bot/execution/broker/paper.py:196-253 | One piece: holding, cash, fill and a cumulative record |
| `PaperBroker.PaperBrokerAdapter.EmitRecord` | short_trading_bot/execution/broker/paper.py:219-248 | Records carry the order's running quantity, fee and tax |
| `Auc.ComputeAuc` | scripts/mitra_filter_experiment.py:1590-1607 | The sort, tie-run averaging and rank-sum formula give pairs won plus half the ties over all pairs; not a number when a class is missing; an error for lists of different length |
| `Auc.RankSumIsPairCounting` | scripts/mitra_filter_experiment.py:1606-1607 | Rank sum of the positives less its least value is the number of pairs won and half the ties |
| `Auc.Ranks` | scripts/mitra_filter_experiment.py:1597-1605 | Every score gets its average rank |
| `Auc.RunHasAverageRank` | scripts/mitra_filter_experiment.py:1600-1605 | A run of ties at positions i to j has rank (i+j)/2+1 |
| `Auc.OrderSorts` | scripts/mitra_filter_experiment.py:1596 | Every index is there and the scores come out ascending |
| `AucBounds.ComputeBounds` | scripts/mitra_filter_experiment.py:1930-1949 | For a labeled pool, the least and greatest AUC over all labelings of the censored scores with both classes, each attained; when an error is raised instead |
| `AucBounds.BoundsForCount` | scripts/mitra_filter_experiment.py:1933-1934 | For a fixed number of positives nothing is below the lowest or above the highest scores as positives |
| `AucBounds.RankSumDecides` | scripts/mitra_filter_experiment.py:1933-1934 | For a fixed number of positives the AUC compares as the rank sum of the censored positives |
| `AucBounds.LowestAreLeast` | scripts/mitra_filter_experiment.py:1940 | Exchange argument: the k lowest have the least rank sum |
| `AucBounds.HighestAreGreatest` | scripts/mitra_filter_experiment.py:1941 | And the k highest the greatest |
| `AucBounds.Attained` | scripts/mitra_filter_experiment.py:1942-1943 | What a labeling of the sorted scores gives, some labeling of the scores as they came gives too |
| `AucBounds.Search` | scripts/mitra_filter_experiment.py:1938-1949 | The loop over the number of positives covers and attains |
| `Blocks.NoLookAhead` | scripts/mitra_filter_experiment.py:1095-1121 | For every planned block: support labels known strictly before its start, its start no later than any query, the most recent support within the maximum, both classes sufficient |
| `Blocks.PlannedExactlyWhen` | scripts/mitra_filter_experiment.py:1109-1121 | A block is planned if and only if it has queries and sufficient support |
| `Blocks.PlannedBlockIsWhole` | scripts/mitra_filter_experiment.py:1105-1121 | A planned block holds exactly the queries from its start to the next block's, in order |
| `Blocks.EveryQueryInOneBlock` | scripts/mitra_filter_experiment.py:1104-1108 | Every query from the first block on falls in exactly one block |
| `Blocks.LabeledIsStableSort` | scripts/mitra_filter_experiment.py:1099 | The support is a stable sort of the labeled pool by label day |
| `Blocks.PlansAscend` | scripts/mitra_filter_experiment.py:1110-1121 | Plans come in block order, one per block |
| `Blocks.PlanBlocks` | scripts/mitra_filter_experiment.py:1086-1122 | The planning loops |
| `Blocks.GroupByBlock` | scripts/mitra_filter_experiment.py:1104-1108 | Queries grouped by block |
| `Predictions.WalkForward` | scripts/mitra_filter_experiment.py:1125-1161 | Rows of exactly the planned blocks not done, predicted from their own support |
| `Predictions.PredictBlock` | scripts/mitra_filter_experiment.py:1144-1158 | One row per query |
| `Predictions.FindCompleteBlocks` | scripts/mitra_filter_experiment.py:1168-1178 | Blocks whose keys are neither missing, doubled nor extra |
| `Predictions.CompleteMeansExact` | scripts/mitra_filter_experiment.py:1181-1184 | A file is complete if and only if it has every expected key exactly once and nothing else |
| `Resume.ResumedIsFull` | scripts/mitra_filter_experiment.py:1497-1521 | From any earlier file with whole, torn, doubled or unknown blocks: kept plus new rows are the rows of an uninterrupted run, each once, and complete |
| `Resume.AnyInterruptionsThenFull` | scripts/mitra_filter_experiment.py:1492-1525 | However often a run was cut off anywhere, the first one that finishes has everything, once |
| `Resume.InterruptedIsTrusted` | scripts/mitra_filter_experiment.py:1498-1518 | A run cut off anywhere leaves a file the next one can trust |
| `Resume.FullRunIsExact` | scripts/mitra_filter_experiment.py:1164-1184 | An uninterrupted run has exactly the expected keys |
| `Resume.PredictResumed` | scripts/mitra_filter_experiment.py:1497-1521 | The resume loop, with its completeness flag |
| `Resume.SplitPoolQueries` | scripts/mitra_filter_experiment.py:1454-1470 | The pool is every liquid sample from the support start on, in order; the queries are, in order, the first qualifying sample of every ticker and day, no key twice and none missing |

## Left out

- Decimal rounding and the column scale of stored amounts: amounts are exact reals, so rounding of broker averages is
  not modelled; neither is floating point in the experiment and the rate limiter.
- `PositionLot` objects inside the service: the service keeps lots as values in a map by lot id (the class is proved
  separately in `Position`), so aliasing between slot and id index is not captured, nor which lot occupies a watch
  slot, slot collisions, one-shot scanner lots and their retirement to CANCELLED.
- Change of trading day: `expire_stale_orders`, `poll_day` and prior-day recovery; all safety statements are for one
  session, and an execution id fixes order number and cumulative quantity within it.
- Interleaving of coroutines inside a step: one read of a report, one resolver pass, one submit and one cancel are
  atomic towards each other; crashes are allowed at every commit, every broker call, and between the two commits of a
  read.
- Runs.EveryRunIsSafe: an order the resolver expired is assumed never to have reached the broker; when that holds is
  proved in `ResolverRuns`.
- Service.TradingService.HandleIntent: regime filter and risk manager are one boolean, notifications never fail, and a
  trim with an explicit quantity above the holding is excluded, because the code would send it.
- Service.TradingService.ProcessBar: indicators and strategy are an oracle that may change any runtime field of its
  lot and asks for at most one thing per bar.
- Service.TradingService.RelockOrder: rebuilding a lot that is not in memory is left out, because an open order's lot
  always is.
- Service.TradingService.FlatAll: for sells only the per-lot statement of `FlatLot` is given, because a poll for a
  later lot may change an earlier one.
- Service.TradingService.CancelPending: an order the broker cancelled although its answer was lost counts as working
  until it is read; nothing is promised about when that happens.
- Service.TradingService.ReceiveFill: fills reach the service through polls; the simulated broker's direct delivery is
  modelled only in `Paper`.
- OrderManager's idempotent re-submission of a known client order id: ids are fresh on every submit.
- Ledgers.RestoreRiskState: the peak equity kept in the audit log is not modelled.
- Backtest.BookedTradeIsSquare: the risk multiple, timestamps and exit reason of a trade are not modelled.
- Bars.ResampleIsBuild: daily bars, which bucket by calendar date, are not modelled; time zones do not matter for the
  others.
- RateLimiter.Limiter.Acquire: the lock that orders callers; the readings of the clock are taken in the order the lock
  gives, and rate and burst are fixed.
- Routing.RoutingBroker.GetExecutions: balances, open orders and past days of the same adapter, which only merge
  lists.
- Predictions.WalkForward: the predictor is any function of support and query features; reading and writing CSV files
  appears only as the list of rows they hold, with torn rows already dropped.
- Blocks.PlanBlocks: bisection is stated on ascending block starts, as the trading calendar gives them.
- KIS adapters, HTTP, WebSocket, authentication, notifiers, web frontend, database migrations, reconciler, scanner,
  regime, campaigns' states, text of reports: outside calls or easy members.
