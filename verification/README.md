# Paper-trading ledger: a verified model

A Dafny model of the paper-trading backend and proofs about it. At the centre are the wallet (`PaperBroker`), the ledger
that mirrors it into database rows (`LedgerBroker`), the lifecycle that replays closed bars (`PaperLifecycle`), the
orchestrator's catch-up pass over a unit, and the backtest driver that claims to hold the same account. Around them stand
the orchestrator lease, the decision pipeline, the directional indicators, the rate limiter and the refresh-token families.

The model has two layers. Values and functions say what every operation does to a wallet, a ledger or a store; classes
and methods with the source's own fields and loops are proved to compute exactly those functions, and the theorems are
proved about the functions.

| file | contents |
|---|---|
| `Prelude.dfy` | options, decimal rounding (half to even), sums, stable sorting by a key |
| `Paper.dfy`, `Accounting.dfy`, `Equity.dfy` | the wallet; cash conservation, drawdown, what entries and exits mean for equity |
| `PaperBroker.dfy` | `PositionSet` and `PaperBroker` as objects |
| `Ledger.dfy`, `LedgerInvariant.dfy`, `OrderLife.dfy` | rows and operations; the ledger state machine; one order from submission to close |
| `Recovery.dfy`, `Valuation.dfy` | what a restart recovers; what an account and a bar's snapshot are worth |
| `LedgerBroker.dfy` | the row store and `LedgerBroker` as objects |
| `Lifecycle.dfy`, `CatchUp.dfy`, `Bars.dfy`, `Counters.dfy` | arbitration, one unit-bar, the throttled pass, facts about one bar, what a pass reports |
| `Restart.dfy`, `EarlyBars.dfy`, `Discovery.dfy` | a pass as a run of bars; a second pass over a stopped one; when a cycle discovers the unit, and when it can die without a trace |
| `Crashes.dfy`, `Throttled.dfy`, `Stall.dfy` | repeated crashes; catching up cycle by cycle; progress under the throttle |
| `Driver.dfy`, `GateView.dfy`, `Parity.dfy`, `ParityLimits.dfy`, `GateParity.dfy`, `EndToEnd.dfy` | the backtest loop, what its decisions read of the account, and its agreement with the live side |
| `LifecycleService.dfy` | lifecycle, orchestrator pass and backtest loop as methods over the objects |
| `Lease.dfy` | the lease as a protocol of interleaved steps |
| `Fusion.dfy`, `Decision.dfy`, `ParentContext.dfy` | fusion, risk gates, sizing, decisions, the backtest's parent context |
| `Indicators.dfy`, `RateLimit.dfy`, `Tokens.dfy` | Wilder smoothing and ADX, the sliding window, token families |

## What the proofs found

- Entry costs leave cash twice. `Accounting.CashConservation` states the law with the extra term, and
  `Accounting.FlatRunKeepsNetsIff` says a flat run keeps the trades' results exactly when no entry ever cost anything.
- The catch-up anchor stays at the entry of the open position, so "throttled but never skipped" stops being progress: a
  position as old as `paper_catchup_max_bars` is never looked at again, whatever is decided and submitted in between
  (`Stall.StallsForever`), and a pass reaches a new bar exactly when the position is younger than that
  (`Stall.ProgressIff`). A breached stop-loss is then never acted on.
- A crash in the middle of catching up is not always harmless. `_outstanding_stamps` calls the bars between an anchor and
  a later fill harmless, but an order due before the open position's entry makes the pass walk over bars that the next one
  skips; and once the unit's last order is settled under another timeframe's position, the next cycle does not discover
  the unit at all. A cycle may die anywhere without a trace exactly when no bar that can be left out in these two ways, and
  is reached with the position still held, breaches a threshold or is due a snapshot (`Discovery.RestartIff`, and
  `Crashes.RepeatedCrashes` for any number of crashes). `Crashes.BacklogCrash` reaches such a store by two submissions and
  one hourly pass ahead of a five-minute backlog, and `Crashes.StopIsLost` is a stop-loss that the unit
  no longer sees after the crash.
- Catching up under the throttle ends where one unthrottled cycle ends exactly when no cycle on the way uses up its
  throttle on bars the position has already survived, with a bar that matters beyond them (`Throttled.ThrottledIff`).
- Cash survives a restart exactly when the bar was due a snapshot or its fills and exit move no cash
  (`Recovery.BarCashDurableIff`); over any run of bars of any symbols a restart has lost exactly the cash of the bars that
  were not due one (`Recovery.LostCash`). Two symbols filled on one stamp show it: the second entry's cost is never booked
  (`Recovery.SecondFillIsFree`).
- A snapshot values only the symbol whose bar wrote it: every bar restores, a restore marks positions at their entry, and
  so the row, its peak and its drawdown leave out what all other symbols' positions have gained or lost
  (`Valuation.BarSnapshot`).
- Live/backtest parity holds on contiguous series as long as both sides decide alike and no intent without size is
  scheduled against an open position (`Parity.LiveMatchesBacktest`, `ParityLimits.ParityIffNoEmptyFlip`). For policies
  that read position, cash and trades only and size positively, it holds exactly on series without a gap
  (`ParityLimits.ParityIffContiguous`); at a gap the driver fills at the next bar, the ledger has no bar to fill at.
- The two sides do not decide alike in general. The driver's gate reads equity and drawdown before the bar is valued, the
  live gate after, and their daily-loss bases differ; `GateView.GateInputsAgreeIff` says when the inputs agree. Parity
  holds for every positively sizing policy, whatever it reads, exactly when no bar is missing and both sides see the same
  at every decision that can still be filled (`GateParity.ParityForAllIff`); `ParityLimits.GateReadersDiverge` gives a
  policy that parts the accounts on contiguous bars.
- In a backtest with several timeframes a parent frame runs to its end before the fine frame starts. The context fed to
  the fine frame is the same as if the parent had stopped at that moment exactly when the parent is not heard, persists
  nothing later, or its later decision says what is heard without it (`ParentContext.ContextIsCausalIff`).
  `ParentContext.DriverLooksAhead` is a run in which the frame is fed a decision made an hour later.
- The exposure gate tests the risk share, the sizing spends up to the whole cap. Whether a PAPER decision keeps the cap is
  another test on the percentages, exact up to the rounding of the units (`Decision.ExposureCapIff`). Gate and sizing
  together bound exposure by twice the cap less the risk share (`Decision.ExposureBound`); `Decision.ExposureCapExceeded`
  is a PAPER decision at 59 percent under a cap of 30.
- The reported `risk_pct_account` is the share of the account at risk multiplied by the price of a unit
  (`Decision.RiskShareIsTimesPrice`), and the reward-to-risk gate compares two configured multiples, not the market
  (`Decision.RatioIsConfigured`).
- The lease excludes dual leases, not dual work: two clients work at once only if the one confirmed first works on past
  the end of its lease (`Lease.DualWorkIsOverrun`). A bound on the work after a confirmation excludes dual work exactly
  when it is no longer than the lease (`Lease.LimitIff`).
- The generic `risk` veto is unreachable (`Decision.BlockedNamesAGate`), and so is the reconciliation abort
  (`Recovery.EveryRunReconciles`).
- Fusion looks a weight up in vain when one voter's weight is positive and another's is not (`Fusion.FuseFailsIff`), and the
  limiter indexes an empty deque exactly for limits that are not positive (`RateLimit.BrokenIffNoLimit`).

## Model

| member | source | states |
|---|---|---|
| Accounting.CashConservation | backend/app/broker/paper.py:91-200 | after any sequence of entries, exits, closes, marks and valuations: cash = start + gross - exit costs - entry costs of every position opened - entry costs of every position closed, the open entry costs make up the difference, and the trade list is the book's |
| Accounting.EntryPaysEveryUnit | backend/app/broker/paper.py:98-141 | an entry is accepted iff it has a side, a positive size and a symbol that is not open; it takes the cost rate of the notional times the units from cash and appends the requested position carrying that amount; anything else changes nothing |
| Accounting.EnterThenClose | backend/app/broker/paper.py:98-200 | entering and closing again, on a signal or at the close that breaches the stop or else the target, restores the account but for the mark, the trade with its rounded figures, and cash, which moves by units times the price move less the exit cost and twice the entry cost of all units |
| Accounting.PerUnitConservation | backend/app/broker/paper.py:91-200 | with a constant cost k per unit, every run from an account with nothing open ends with cash = start + gross results - k * (units opened + 2 * units closed) |
| Accounting.UnitsBalance | backend/app/broker/paper.py:98-200 | the units opened less the units closed by a run are the change of the units held |
| Accounting.RoundedNetsDrift | backend/app/broker/paper.py:181-197 | the sum of the rounded trade results is within half a micro-unit per trade of the unrounded sum |
| Accounting.FlatRunKeepsNetsIff | backend/app/broker/paper.py:139-183 | with non-negative costs, a run from flat to flat leaves start + unrounded trade results in cash iff no position ever paid an entry cost; the recorded results miss cash by the entry costs up to their rounding |
| Accounting.PositionAddsItsGain | backend/app/broker/paper.py:91-96 | a position adds to equity what it has gained at its symbol's mark, and nothing while the symbol has none; with nothing open equity is cash |
| Accounting.EveryPositionIsMarked | backend/app/broker/paper.py:86-141 | over every run from a fresh account each open position's symbol has a mark |
| Accounting.OnlineDrawdownFromStart | backend/app/broker/paper.py:202-210 | for positive equities the tracked peak is the maximum of start and all valuations, and the tracked drawdown is the largest relative fall from an earlier to a later one |
| Accounting.DrawdownNeverFalls | backend/app/broker/paper.py:202-210 | peak and drawdown never fall, whatever the equities |
| Equity.ExitAgainstClose | backend/app/broker/positions.py:44-65 | against the close, a stop-loss exit books no less and a take-profit exit no more |
| Equity.EntryCostsEquity | backend/app/broker/paper.py:98-141 | an accepted entry lowers equity by its entry cost and by nothing else; a refused one changes nothing |
| Equity.CloseCostsEquity | backend/app/broker/paper.py:164-200 | closing at the current mark lowers equity by the booked costs and by nothing else |
| Equity.EquityCurve | backend/app/backtest/driver.py:225-228 | over ascending bars the equity curve holds one point a bar, its stamp and the equity after that bar |
| Equity.CurveKeepsLastOfStamp | backend/app/backtest/driver.py:305-309 | over bars whose stamps never go back the curve is strictly ascending and holds exactly the last bar of each stamp with the equity after it |
| Equity.PendingAfterBar | backend/app/backtest/driver.py:233-257 | a fill is pending after a bar iff there is a next bar and the decision at the close has a side the position is not on; it closes what is open and carries the decision's terms |
| Equity.FillTakesTheSymbol | backend/app/backtest/driver.py:259-271 | a pending fill enters when nothing is open; an open position stays and nothing changes unless the fill was to close it, and then it goes at that price before the entry |
| PaperBrokers.PositionSet.Find | backend/app/broker/positions.py:74-78 | finds the first open position of a symbol |
| PaperBrokers.PositionSet.Close | backend/app/broker/positions.py:93-98 | deletes exactly that position and reports whether there was one |
| PaperBrokers.PaperBroker.EnterAtNextOpen | backend/app/broker/paper.py:98-141 | the object's whole new state is the wallet function of the old one: guards, cost, mark, new position |
| PaperBrokers.PaperBroker.ExitOnClose | backend/app/broker/paper.py:143-155 | new state and returned trade of a stop-loss or take-profit exit |
| PaperBrokers.PaperBroker.CloseAtSignal | backend/app/broker/paper.py:157-162 | new state and returned trade of a signal close |
| PaperBrokers.PaperBroker.ClosePosition | backend/app/broker/paper.py:164-200 | cash, trade list and positions after a close |
| PaperBrokers.PaperBroker.Equity | backend/app/broker/paper.py:91-96 | the loop returns cash plus the unrealized result of every open position at its mark |
| PaperBrokers.PaperBroker.State | backend/app/broker/paper.py:202-217 | equity, running peak and running drawdown after a valuation |
| LedgerInvariant.RunKeepsSound | backend/app/broker/ledger.py:159-395 | over every run of broker operations: memory equals the rows (positions, trades and pending orders), at most one OPEN row per symbol, at most one order per decision, FILLED orders and position rows one to one |
| LedgerInvariant.RunKeepsHistory | backend/app/models/paper_ledger.py:64-141 | every later store extends every earlier one: an order leaves PENDING once, to FILLED or CANCELLED, and is frozen; a position row closes once; snapshots are only appended |
| LedgerInvariant.SubmitKeeps | backend/app/broker/ledger.py:159-215 | a submission stores one PENDING order or changes nothing, and keeps the invariant |
| LedgerInvariant.FillKeeps | backend/app/broker/ledger.py:217-270 | a fill keeps store and memory equal |
| LedgerInvariant.CloseKeeps | backend/app/broker/ledger.py:281-293 | a close removes the position from memory and closes its row, keeping both equal |
| LedgerInvariant.OpenAgrees | backend/app/broker/ledger.py:108-120 | the position memory finds for a symbol is the store's OPEN row |
| OrderLife.SubmissionIff | backend/app/broker/ledger.py:185-215 | in a sound ledger a submission is declined iff it has no side, no size, a position held on its side or a decision whose order waits; otherwise refused by the database iff its key is taken or its decision's order is settled; otherwise stored |
| OrderLife.FilledRows | backend/app/broker/ledger.py:159-270 | submit and fill: the order row ends FILLED at the fill's price and stamp with the cost of every unit, an OPEN row and a position carry the request's terms, cash pays that cost, the queue is as before, and nothing else moves |
| OrderLife.ClosedRows | backend/app/broker/ledger.py:281-395 | a close writes price, stamp, reason and rounded results to the symbol's OPEN row and to a new trade, moves cash by the unrounded result, and touches no other row, order or position |
| OrderLife.CancelledRow | backend/app/broker/ledger.py:272-279 | a cancel changes the status of a waiting order and takes it out of the queue, and does nothing to any other |
| OrderLife.QueueOldestFirst | backend/app/broker/ledger.py:374-380 | the restored queue holds exactly the waiting orders, each once, by creation time and then by key |
| OrderLife.TradesByExit | backend/app/broker/store.py:140-147 | the restored trades are the closed rows, by exit time |
| LedgerBrokers.LedgerStore.SaveOrder | backend/app/models/paper_ledger.py:75-79 | a new row is stored iff it violates neither the primary key nor the one-order-per-decision constraint |
| LedgerBrokers.LedgerStore.ListPendingOrders | backend/app/broker/store.py:45-52 | the pending orders, oldest first |
| LedgerBrokers.LedgerStore.GetOpenPosition | backend/app/broker/store.py:74-83 | the first OPEN row of a symbol |
| LedgerBrokers.LedgerStore.Latest | backend/app/broker/store.py:155-159 | the snapshot with the greatest timestamp |
| LedgerBrokers.LedgerBroker.SubmitPaperOrder | backend/app/broker/ledger.py:159-215 | outcome and new state of a submission: declined, refused by the database, or stored |
| LedgerBrokers.LedgerBroker.FillPending | backend/app/broker/ledger.py:217-270 | new store, memory and queue of a fill, and when it creates a position |
| LedgerBrokers.LedgerBroker.CancelPending | backend/app/broker/ledger.py:272-279 | a PENDING order becomes CANCELLED and leaves the queue; any other is left alone |
| LedgerBrokers.LedgerBroker.ExitOnClose | backend/app/broker/ledger.py:281-286 | the wallet's exit with its row closed |
| LedgerBrokers.LedgerBroker.CloseAtSignal | backend/app/broker/ledger.py:288-293 | the wallet's signal close with its row closed |
| LedgerBrokers.LedgerBroker.PersistClosed | backend/app/broker/ledger.py:384-395 | the OPEN row of the trade's symbol takes the trade's values |
| LedgerBrokers.LedgerBroker.EquitySnapshot | backend/app/broker/ledger.py:301-318 | the valuation and the stored snapshot with the sum of the rounded results |
| LedgerBrokers.LedgerBroker.RestoreState | backend/app/broker/ledger.py:322-380 | memory after a restore: cash from the latest snapshot, positions marked at entry, trades by exit time, the pending queue |
| Recovery.EveryRunReconciles | backend/app/broker/lifecycle.py:276-289 | reconciliation holds in every reachable state |
| Recovery.RestoreKeepsHoldings | backend/app/broker/ledger.py:322-380 | restoring a reachable ledger changes no position, trade or pending order |
| Recovery.RestoreAfterSnapshot | backend/app/broker/ledger.py:301-380 | restoring any time before the next snapshot, after any operations including other restores, changes nothing but cash, which goes back to its value at the snapshot |
| Recovery.SnapshotBalances | backend/app/broker/ledger.py:301-318 | a snapshot's equity is cash plus the open result, and its realized result is the sum over the store's closed rows |
| Valuation.RestoredIsWorthItsCash | backend/app/broker/ledger.py:322-354 | whatever is open, a restored account is worth exactly its cash, every position being marked at its entry; cash, peak and drawdown are the latest snapshot's, or the broker's own without one |
| Valuation.BarKeepsOthers | backend/app/broker/lifecycle.py:291-343 | the bar of one symbol leaves positions and marks of every other symbol as they are, and their OPEN rows in the store |
| Valuation.BarSnapshot | backend/app/broker/lifecycle.py:329-343 | a bar writes a snapshot iff it finds or makes a position of its symbol and one is due; the whole row is told from the store: restored cash plus what the bar moves, the open result of that symbol's position at the close alone, the realized result of the closed rows, peak and drawdown carried on |
| Recovery.BarCash | backend/app/broker/lifecycle.py:291-343 | a bar moves the cash foretold by the store before it (close at the open, entry, threshold exit), and a fresh broker sees it exactly when the bar was due a snapshot |
| Recovery.BarCashDurableIff | backend/app/broker/lifecycle.py:338-343 | a bar's cash survives a restart iff the bar was due a snapshot or the fills and exit told from the store before it move no cash |
| Recovery.LostCash | backend/app/broker/lifecycle.py:386-394 | over any run of unit-bars of any symbols, restored cash is the start plus all cash moved minus the cash moved on bars that were not due a snapshot |
| Recovery.SecondFillIsFree | backend/app/broker/lifecycle.py:386-394 | two symbols filled on one stamp: the second position is open with its cost on the row, memory paid it, and a restored broker has the money back |
| Lifecycle.OnlyOneActs | backend/app/broker/lifecycle.py:151-184 | exactly one candidate acts: the first whose side is not the open one, a fill when nothing is open and a flip otherwise; all others are superseded |
| OrderLife.DueOldestFirst | backend/app/broker/lifecycle.py:151-184 | the orders due at a bar are exactly those with its stamp, oldest first, and the one that acts is the oldest that the open side does not already satisfy |
| Lifecycle.ExecutionAgrees | backend/app/broker/lifecycle.py:309-327 | running a bar's actions leaves the acting order FILLED as the only position of the symbol, every other due order CANCELLED, none PENDING, no other order moved, at most one fill |
| Bars.BarFacts | backend/app/broker/lifecycle.py:291-343 | one bar keeps the store sound, settles exactly the due orders, and leaves open only a position that survived its close with the bar valued |
| Bars.QuietBarChangesNothing | backend/app/broker/lifecycle.py:291-343 | replaying a bar the open position has survived changes nothing in the store |
| Services.ArbitrateFills | backend/app/broker/lifecycle.py:151-184 | the arbitration loop computes the arbitration function |
| Services.PaperLifecycle.Candidates | backend/app/broker/lifecycle.py:239-249 | the pending orders with a resolvable fill bar, by fill bar, age and key |
| Services.PaperLifecycle.ProcessUnitBar | backend/app/broker/lifecycle.py:291-343 | new store, memory and counters of one unit-bar |
| Services.PaperLifecycle.SnapshotIsDue | backend/app/broker/lifecycle.py:386-394 | when a snapshot is written |
| Services.Orchestrator.ProcessUnit | backend/app/workers/orchestrator_worker.py:573-662 | one pass of the orchestrator over a unit is the pass function of the store; bars processed, depth left, and the counters of fills, exits, superseded, missing and snapshots |
| Counters.ReportIsChange | backend/app/workers/orchestrator_worker.py:621-662 | the counters of a pass are the changes of the store: positions entered, orders settled (filled, superseded or missing), snapshots written |
| Counters.ReportedExits | backend/app/workers/orchestrator_worker.py:621-662 | the exits a pass reports are the rows it closed at a stop-loss or take-profit |
| CatchUp.WindowNeverSkips | backend/app/broker/lifecycle.py:187-195 | the window is an ascending, non-empty prefix of the distinct stamps; window + depth = count |
| CatchUp.DrainVisitsAll | backend/app/broker/lifecycle.py:187-195 | draining window by window visits every distinct stamp once, ascending, in exactly ceil(n / max) rounds |
| Restart.OutstandingExact | backend/app/workers/orchestrator_worker.py:875-899 | a bar is outstanding iff it has closed and is no earlier than some due order or the open entry |
| Restart.MissingFacts | backend/app/broker/lifecycle.py:198-214 | exactly the unit's orders whose fill bar can no longer come are cancelled before the bars are processed |
| Restart.RunFacts | backend/app/workers/orchestrator_worker.py:647-657 | a run over bars settles exactly the orders due on them and leaves open only a position that survived all of them since its entry |
| Services.Orchestrator.DiscoverUnits | backend/app/workers/orchestrator_worker.py:490-497 | the discovered units are exactly those with a waiting order of known fill bar or an open position of that symbol and timeframe |
| Services.Orchestrator.ProcessLifecycle | backend/app/workers/orchestrator_worker.py:440-515 | a cycle, for one unit, is a pass if discovery finds the unit and nothing otherwise |
| Discovery.DiscoveredIff | backend/app/workers/orchestrator_worker.py:490-497 | a cycle visits a unit iff one of its own orders waits with a known bar or a position of its own is open |
| Discovery.OwnCycleIsPass | backend/app/workers/orchestrator_worker.py:490-497 | a unit whose symbol has no position of another timeframe loses nothing when it is not discovered |
| EarlyBars.SecondPassEquals | backend/app/workers/orchestrator_worker.py:573-662 | when the bars before the open entry are calm, stopping a pass after any number of committed bars and running a second one ends in the same orders, positions, trades, cash and snapshots, for any snapshot interval and any other symbols in the store |
| Discovery.RestartIff | backend/app/workers/orchestrator_worker.py:440-515 | a cycle that dies after any number of bars, followed by a whole one, ends where a whole one ends iff no bar that the next cycle may leave out (before the entry, or under another timeframe's position with no order left to discover the unit by), reached with the position held, breaches a threshold or is due a snapshot |
| Discovery.UncalmStopDiffers | backend/app/workers/orchestrator_worker.py:875-899 | when the cycle dies before a bar that breaks the condition, the whole cycle closes the position or values the account at that bar's stamp, the next one never does |
| Discovery.EntryFirstIsSafe | backend/app/workers/orchestrator_worker.py:875-899 | the condition holds when no order is due before the open entry and the position is the unit's own or an order is still to come |
| Crashes.RepeatedCrashes | backend/app/workers/orchestrator_worker.py:440-515 | whatever crashes after whichever bars, the next whole cycle ends where an uninterrupted one ends: iff the store is safe |
| Throttled.ThrottledCatchUp | backend/app/workers/orchestrator_worker.py:638-657 | from a safe store throttled cycles never leave the way of one unthrottled cycle, and the first that owes no more than the throttle ends where that ends |
| Throttled.ThrottledIff | backend/app/workers/orchestrator_worker.py:638-657 | throttled cycles get to the end of one unthrottled cycle iff none of them finds its throttle used up on bars already survived with a bar that matters beyond |
| Throttled.StuckIsOld | backend/app/workers/orchestrator_worker.py:875-899 | in such a store a position is open and has survived at least as many bars since its entry as the throttle lets through |
| Crashes.CycleTwiceIsOnce | backend/app/workers/orchestrator_worker.py:440-515 | from a safe store a second cycle over the same candles changes nothing |
| Crashes.RestartApplies | backend/app/workers/orchestrator_worker.py:573-662 | a store with an open position and an order due after its entry survives any number of crashes |
| Crashes.BacklogCrash | backend/app/workers/orchestrator_worker.py:490-497 | a store reached by two submissions and one hourly pass: the five-minute unit's backlog survives crashes iff the bars after the due bar close above the hourly position's stop and none has closed after the entry's |
| Crashes.StopIsLost | backend/app/workers/orchestrator_worker.py:490-497 | three concrete bars: the whole cycle stops the hourly position out at 3600; after a crash behind the due bar the unit is not visited again and the position stays open |
| Stall.PassFromSettled | backend/app/workers/orchestrator_worker.py:638-657 | a pass over a position settled up to a moment processes exactly the first (throttle - age) bars after it |
| Stall.ProgressIff | backend/app/workers/orchestrator_worker.py:875-899 | a pass reaches a new bar iff one has closed and the open position is younger, in bars, than the throttle |
| Stall.StallsForever | backend/app/workers/orchestrator_worker.py:875-899 | once the position is as old as the throttle, no later cycles over longer series, with decisions and orders submitted in between, change positions or snapshots |
| Crashes.StalledStop | backend/app/workers/orchestrator_worker.py:875-899 | a concrete stall: a close through the stop-loss that a pass leaves unseen |
| Driver.NoLookAhead | backend/app/backtest/driver.py:174-271 | two series agreeing on their first k bars give the same wallet, pending fill and equity points over them, for any decision function of the bar prefix and the whole broker state |
| GateView.GateInputsAgreeIff | backend/app/backtest/driver.py:275-296 | the driver's gate inputs (equity and drawdown before the bar is valued, start equity as loss base) equal the live ones (after valuation) iff the account counts as worth its start equity before and at the close and the close sets no new drawdown |
| GateView.EquityNeverReadsZero | backend/app/decisions/ledger_gate.py:95-108 | each side reads its own equity, the driver the total at its marks and the live side the last valuation, with the start equity in place of a zero, so the gates never divide by zero |
| GateView.LiveSeesMoreDrawdown | backend/app/decisions/ledger_gate.py:89-117 | the live gate never sees less drawdown than the driver's |
| Services.BacktestDriver.ScheduleFill | backend/app/backtest/driver.py:233-257 | when a decision becomes the pending fill |
| Services.BacktestDriver.ApplyFill | backend/app/backtest/driver.py:259-271 | close and entry of a pending fill at the open |
| Services.BacktestDriver.RunFine | backend/app/backtest/driver.py:167-226 | the loop over a symbol's bars computes the run function from the object's state, for any decision function of the bar prefix and the broker |
| Parity.BarLikeDriver | backend/app/broker/lifecycle.py:291-343 | the wallet restored after a bar of the ledger is the driver's after the same bar |
| Parity.DecideLikeDriver | backend/app/broker/ledger.py:185-196 | after submitting a bar's decision the store's queue holds exactly the driver's pending fill, when both sides decide alike and the intent does not flip to nothing |
| Parity.LiveMatchesBacktest | backend/app/backtest/driver.py:167-271 | for one unit, contiguous bars, equal seeds, no snapshot interval, both sides deciding alike on their own views and no flip to an empty size, submit + process_unit_bar and the driver agree after every bar on position, cash, equity, peak, drawdown and trades |
| ParityLimits.ParityIffContiguous | backend/app/broker/lifecycle.py:139-148 | the accounts agree after every bar for every positively sizing policy that reads position, cash and trades only, iff no bar is missing |
| ParityLimits.ParityIffNoEmptyFlip | backend/app/broker/ledger.py:185-187 | on contiguous bars, with both sides deciding alike, the accounts agree after every bar iff no intent of non-positive size is scheduled against an open position of the other side |
| ParityLimits.GateReadersDiverge | backend/app/decisions/ledger_gate.py:89-117 | a positively sizing policy that reads equity parts the two accounts on every contiguous series of at least three bars whose second bar moves, unless one of the two valuations there is zero |
| GateParity.ParityForAllIff | backend/app/decisions/ledger_gate.py:89-117 | the accounts agree after every bar for every positively sizing policy, whatever it reads, iff no bar is missing and both sides see the same account at every decision that can still be filled |
| GateParity.DifferentViewsPart | backend/app/backtest/driver.py:233-296 | at the first decision at which the views differ, a policy that tells them apart parts the accounts on the next bar |
| EndToEnd.OrchestratorMatchesBacktest | backend/app/workers/orchestrator_worker.py:440-515 | one cycle per closed bar, each from a fresh broker over all candles, agrees with the backtest while both sides decide alike and no position outgrows the throttle |
| EndToEnd.LongThrottleNeverBinds | backend/app/workers/orchestrator_worker.py:461-461 | a throttle as long as the series never binds |
| Lease.LeaseExclusion | backend/app/workers/orchestrator_worker.py:244-307 | over every interleaving of steps, at every moment at most one client is inside a confirmed lease |
| Lease.ForeignKeyUntouched | backend/app/workers/orchestrator_worker.py:261-307 | a renewal or release only extends or deletes a live key holding the client's own token |
| Lease.AcquireSucceedsIff | backend/app/workers/orchestrator_worker.py:244-259 | an acquisition succeeds exactly when no confirmed lease is running |
| Lease.AcquireTakesOrLoses | backend/app/workers/orchestrator_worker.py:244-259 | an attempt draws a fresh token; it takes a free key for a whole lease, and on a live one leaves key and history alone while the client loses the token it had |
| Lease.RenewalExtends | backend/app/workers/orchestrator_worker.py:261-286 | an undisturbed renewal gives the holder a whole lease from now and lets it work; anyone else changes nothing and does not work |
| Lease.ReleaseFrees | backend/app/workers/orchestrator_worker.py:288-307 | an undisturbed release by the holder deletes the key, and any client takes a whole lease at once; anyone else's release changes nothing |
| Lease.CrashedLeaseEnds | backend/app/workers/orchestrator_worker.py:244-307 | a crashed client takes no part in the lock until it acquires again, and after a lease's length without a renewal the next client takes the key |
| Lease.DualWorkIsOverrun | backend/app/workers/orchestrator_runtime.py:142-155 | over every interleaving, when two clients work on a confirmed renewal at once, the lease of the one confirmed first ended before the other was confirmed, so it overruns |
| Lease.PunctualWorkIsExclusive | backend/app/workers/orchestrator_runtime.py:142-155 | where no client works beyond its last confirmation plus the lease, at most one works |
| Lease.BothWork | backend/app/workers/orchestrator_runtime.py:142-155 | for every lease there is a run that ends with two clients working, the first overrunning |
| Lease.LimitIff | backend/app/workers/orchestrator_runtime.py:142-155 | runs whose work lasts less than a limit after its confirmation have at most one client at work iff the limit is no longer than the lease |
| Fusion.FuseSignals | backend/app/decisions/fusion.py:100-166 | the voting loop and the weighted sum compute the fusion function |
| Fusion.FusedOfThree | backend/app/decisions/fusion.py:79-166 | without a weighted voter the result is the empty FLAT one; otherwise the score is the sum of the three agents' signed weighted confidences over the voters' weight, the agreement the weight on the fused side over the same, each rounded, and each voter's share its part of it |
| Fusion.SidesSumToOne | backend/app/decisions/fusion.py:89-156 | before rounding the agreements of LONG and SHORT sum to 1, and a side has it all iff every voter is on it |
| Fusion.TurningAddsShare | backend/app/decisions/fusion.py:155-156 | a voter that changes over to a side adds exactly its share to that side's agreement before rounding |
| Fusion.FuseBounds | backend/app/decisions/fusion.py:89-166 | score in [-1, 1], confidence its magnitude, agreement in [0, 1] and 0 when FLAT, weights of the voters sum to 1 |
| Fusion.FuseIsOdd | backend/app/decisions/fusion.py:100-166 | turning every agent round turns score and direction round and nothing else |
| Fusion.ContextAdds | backend/app/decisions/fusion.py:169-190 | a usable context adds its weight times its confidence, capped at one, on its own side before rounding, and keeps the old score, the votes and the agreement; any other changes nothing |
| Fusion.FuseFailsIff | backend/app/decisions/fusion.py:89-155 | fusion fails exactly when some voter has a positive weight and another has none |
| Fusion.ContextNeverReverses | backend/app/decisions/fusion.py:169-190 | a context lighter than twice the threshold never turns a side into its opposite |
| Fusion.ReversiblePair | backend/app/decisions/fusion.py:169-190 | some agents' side can be turned by some context iff the weight reaches the threshold plus the threshold rounded up to a micro-unit |
| Decision.Assess | backend/app/decisions/risk.py:122-185 | the gate table filled one gate at a time is the assessment function |
| Decision.AssessedIs | backend/app/decisions/risk.py:122-185 | on a side the assessment reports each of the five gates by its own inequality (none holds without a size), passes iff all hold, is a paper intent iff risk is also enabled, and the first failing gate is known |
| Decision.OutcomeIs | backend/app/decisions/engine.py:139-212 | every outcome as an iff on the inputs: the failure, each skip with its reason, ANALYSIS for low agreement, BLOCKED with the name of the first failing gate, ANALYSIS with risk disabled, PAPER; a kept decision carries its fused result and assessment |
| Decision.PaperIff | backend/app/decisions/engine.py:139-212 | a decision is PAPER iff votes, coverage, direction, agreement, ATR and price, all five gates and the risk switch each hold |
| Decision.UsageNeverPromotes | backend/app/decisions/risk.py:156-185 | more usage of any gate never turns a decision into PAPER |
| Decision.BlockedNamesAGate | backend/app/decisions/engine.py:194-202 | a blocked decision names a gate that is reported and failed; the generic veto never occurs |
| Decision.ContextOnlyVetoes | backend/app/decisions/engine.py:146-190 | with agreement_min > 0 and a context lighter than twice the threshold, every PAPER decision has the direction of the agents' own score |
| Decision.SizingBounds | backend/app/decisions/risk.py:84-119 | notional within equity times max exposure and risk at the stop within equity times max risk, up to half a micro-unit of units |
| Decision.StopsStraddle | backend/app/decisions/risk.py:92-96 | stop and target stand on opposite sides of the price, at their ATR distances up to rounding |
| Decision.RatioIsConfigured | backend/app/decisions/risk.py:92-97 | the reward-to-risk ratio is that of the configured multiples up to rounding, whatever price and ATR are; 0 without a stop distance |
| Decision.UnitsAreLesser | backend/app/decisions/risk.py:99-104 | the units are, within half a micro-unit, the smaller of risk budget over stop distance and exposure cap over price |
| Decision.RiskShareIsTimesPrice | backend/app/decisions/risk.py:106-119 | the reported risk share is, up to rounding and the cap at 1, the money at risk at the stop over the equity multiplied by the price of a unit; 0 without equity |
| Decision.ExposureBound | backend/app/decisions/risk.py:91-185 | used exposure plus the candidate's notional is within (2 max_exposure - max_risk) times equity, up to rounding |
| Decision.ExposureCapIff | backend/app/decisions/risk.py:99-160 | a PAPER decision's notional is min(budget * price / stop distance, cap) within half a micro-unit at the price; that minimum keeps the exposure cap iff nothing is used or the risk share at the stop distance fits in what is left, and with the rounding as margin the same test is sufficient and necessary for the decision |
| Decision.ExposureCapExceeded | backend/app/decisions/risk.py:99-160 | concrete inputs whose decision is PAPER with 59 percent exposure under a 30 percent cap |
| ParentContext.BacktestDecisionEngine.Decide | backend/app/backtest/orchestrator_sim.py:51-100 | the decision uses the remembered parent context and is remembered when persisted |
| ParentContext.BacktestDecisionEngine.ParentContext | backend/app/backtest/orchestrator_sim.py:102-117 | the context of the nearest usable larger timeframe |
| ParentContext.RunContexts | backend/app/backtest/driver.py:96-107 | the loops over larger timeframes and symbols leave the memory of running every context frame over all its bars, in that order |
| ParentContext.RunContextFrame | backend/app/backtest/driver.py:130-166 | the loop over a context frame's bars decides on each with the memory so far and remembers what is persisted |
| ParentContext.RunRemembersLast | backend/app/backtest/driver.py:96-107 | after the context frames, each frame's memory is the last decision of its whole run, or nothing |
| ParentContext.PersistedHasSide | backend/app/decisions/engine.py:146-212 | a persisted decision takes a side with positive confidence |
| ParentContext.ParentsAreAbove | backend/app/backtest/orchestrator_sim.py:102-117 | the parents of a frame are the configured timeframes above it |
| ParentContext.NearestIsHeard | backend/app/backtest/orchestrator_sim.py:102-117 | the context is that of the shortest longer configured timeframe with a side, confidence and validity at the moment, with weight 0.15, and there is none iff no such timeframe is |
| ParentContext.HeardForFourBars | backend/app/backtest/orchestrator_sim.py:93-100 | a kept decision replaces its timeframe's memory and nothing else, and is heard up to four of its own bars after its bucket and not later; any other leaves the memory as it was |
| ParentContext.BacktestThresholds | backend/app/backtest/orchestrator_sim.py:51-92 | the backtest skips below half coverage and below a score of 0.15, and calls agreement low below half |
| ParentContext.ContextIsCausalIff | backend/app/backtest/orchestrator_sim.py:93-116 | for any configured timeframes and any other memory, the context at a moment equals the one of the parent stopped there iff the parent is not heard (not above, or a nearer one speaks), persists nothing later, or its later decision equals what is heard without it |
| ParentContext.FutureChangesContext | backend/app/backtest/driver.py:96-107 | wherever a parent is heard, its bars up to a moment have two continuations by one later bar, with concrete inputs, that feed different contexts at that moment |
| ParentContext.DriverLooksAhead | backend/app/backtest/driver.py:96-107 | a whole run over two timeframes in which the fine frame at moment 0 is fed the hourly decision of 3600 |
| Indicators.WilderSmooth | backend/app/agents/indicators.py:51-65 | the array filled in place is the seeded smoothing on the input grid |
| Indicators.TrueRange | backend/app/agents/indicators.py:104-111 | the true ranges with the first row overwritten |
| Indicators.TrueRangeSpansClose | backend/app/agents/indicators.py:104-111 | the true range is the higher of high and last close less the lower of low and last close |
| Indicators.WilderRecurrence | backend/app/agents/indicators.py:51-65 | n times the seed is the sum of the first n values, and n times a row the new value plus n - 1 times the row before |
| Indicators.WilderDominates | backend/app/agents/indicators.py:51-65 | smoothing is additive and monotone: two series dominated by a third stay dominated |
| Indicators.WilderWithin | backend/app/agents/indicators.py:51-65 | smoothing does not leave the range of its input |
| Indicators.MovementWithinRange | backend/app/agents/indicators.py:133-148 | both movements are non-negative, at most one is positive, and together they fit in the true range |
| Indicators.DirectionalIndexBounds | backend/app/agents/indicators.py:148-151 | +DI and -DI are non-negative and sum to at most 100 wherever defined; undefined only as 0/0 |
| Indicators.DirectionalIndexIs | backend/app/agents/indicators.py:148-151 | a directional index times the smoothed true range is a hundred smoothed movements; it is missing exactly before the seed and for a vanishing range |
| Indicators.DxIs | backend/app/agents/indicators.py:153-154 | DX times the sum of the two indices is a hundred times their difference; 0 iff they are equal, 100 iff one vanishes, missing iff one is missing or both vanish |
| Indicators.AdxFollowsDx | backend/app/agents/indicators.py:155-157 | ADX is missing wherever DX is and before n values of it; it starts with their mean and follows Wilder's recurrence from one defined row to the next across gaps |
| Indicators.TrendHasFullAdx | backend/app/agents/indicators.py:133-157 | in a market whose lows never fall ADX is 100 wherever it is defined |
| Indicators.FlippingSwaps | backend/app/agents/indicators.py:133-157 | turning the market upside down swaps +DI and -DI and keeps true range and ADX |
| Indicators.AdxBounds | backend/app/agents/indicators.py:153-157 | ADX lies in [0, 100] wherever defined |
| RateLimit.SlidingWindowLimiter.Check | backend/app/core/ratelimit.py:33-45 | answer and new deque of a check; no other key is touched |
| RateLimit.DequeAnswersLikeHistory | backend/app/core/ratelimit.py:38-45 | with a monotone clock the pruned deque accepts a hit iff the full history of accepted hits has room in the window |
| RateLimit.NoWindowOverLimit | backend/app/core/ratelimit.py:38-45 | no window of the span, wherever it ends, holds more than the limit of accepted hits |
| RateLimit.RetryAfterIsLeast | backend/app/core/ratelimit.py:41-43 | retry-after is the least whole number of seconds after which a hit is accepted, if none comes between |
| RateLimit.BrokenIffNoLimit | backend/app/core/ratelimit.py:41-42 | the lookup in an empty deque happens iff the limit is not positive |
| Tokens.AuthService.IssueTokenPair | backend/app/services/auth_service.py:175-208 | one new unrevoked row, in the given family or a fresh one |
| Tokens.AuthService.RevokeFamily | backend/app/services/auth_service.py:211-219 | every unrevoked token of the family, and no other row, is revoked; the result is their number |
| Tokens.RevocationsAreFew | backend/app/services/auth_service.py:211-219 | in a reachable state that number is one, or none when the family is dead |
| Tokens.AuthService.RotateRefresh | backend/app/services/auth_service.py:227-289 | outcome and new rows of a rotation, with each refusal |
| Tokens.RotationIff | backend/app/services/auth_service.py:227-289 | each answer to a presented token as an iff on its row and user; it is rotated iff it is known, unrevoked and its user active |
| Tokens.NewTokenIsForActiveUser | backend/app/services/auth_service.py:175-313 | a request makes at most one token, for an active user; an older row keeps user and family, is revoked at most once, at the time of the request, and is linked only to the token it was rotated into |
| Tokens.DisabledGetsNoToken | backend/app/services/auth_service.py:266-268 | over every run a disabled user who is not enabled again gets no new token, and none of the user's tokens rotates |
| Tokens.SessionGoesOn | backend/app/services/auth_service.py:175-289 | the token of a login and the token of a rotation rotate while the user is active, and the token just rotated is answered as reuse |
| Tokens.OnlyThePresentedFamily | backend/app/services/auth_service.py:211-313 | a rotation or logout touches the presented row only, a detected reuse rows of its family only, a refused request none |
| Tokens.AuthService.RevokeRefresh | backend/app/services/auth_service.py:292-313 | a logout revokes the presented token iff it is known and unrevoked |
| Tokens.FamiliesAreChains | backend/app/services/auth_service.py:175-313 | in every reachable state a family has at most one unrevoked token, its newest, and its links lead from each token to the family's next |
| Tokens.LinksAreDistinct | backend/app/services/auth_service.py:278-279 | no two tokens are replaced by the same one, and links only lead forward |
| Tokens.LogoutKills | backend/app/services/auth_service.py:292-313 | logging out with the active token leaves its family without an unrevoked token |
| Tokens.DeadForEver | backend/app/services/auth_service.py:211-313 | a family without an unrevoked token never gets one again |
| Tokens.ReuseEndsFamily | backend/app/services/auth_service.py:247-264 | after a reuse no token of the family is ever rotated again |

## Left out

- Numbers are exact reals: IEEE floats, `Decimal` conversion and the scale of the database's numeric columns are not modelled, so agreement is up to those conversions.
- Cost per unit is an arbitrary deterministic function of price, seed, symbol, side and notional; the slippage formula behind it is not modelled.
- The SQL queries for open positions and for snapshots or exits with equal stamps leave the order open; the model takes insertion order (and the later of two equal snapshots). The invariants speak of bags and do not depend on it.
- Rows are addressed by handles instead of shared row objects; a session's rollback after an integrity error is one step that leaves no trace in memory.
- Symbols are taken as already upper-case, and the 100 000-candle limit of a load is not modelled.
- The PENDING-expiry sweep, alerts and metrics are not modelled; a cycle is followed for one unit, and a failed reconciliation is shown not to happen.
- Discovery.RestartIff: needs a throttle that covers the outstanding bars (`Throttled.ThrottledIff` takes smaller ones from there) and orders of the broker's own seed; it compares the unit's own cycles, with no other unit of the same symbol running in between.
- Stall.StallsForever: the cycles are the stalled unit's own; those of another timeframe of the same symbol may close the position.
- ParentContext.ContextIsCausalIff: cuts one parent's bars; decisions of nearer parents that were themselves fed by it are compared through the memory they left.
- Parity.LiveMatchesBacktest: compares trades as a bag, because a restored trade list is ordered by exit time only.
- `process_unit`, the lifecycle's own loop over a list of bars, is not modelled; the orchestrator drives the unit-bars itself.
- The policies of the parity theorems read open position, cash, trades, equity, drawdown and the daily-loss base as each side computes them; the daily loss itself, the correlation basket and the warm-up window are inside the policy, and several symbols on one shared broker are not compared.
- EndToEnd.OrchestratorMatchesBacktest: assumes that both sides decide alike on their own views; `GateView.GateInputsAgreeIff` says when the gate inputs agree, and `GateParity.ParityForAllIff` that this is needed.
- Agents, their features, sentiment and fundamentals, and the database side of the decision engine (hashing, cooldown, hysteresis bookkeeping) are not modelled; inputs arrive as signals.
- Redis is one key with token and expiry whose watched change or expiry aborts a transaction; network failures are dropped or crashed steps.
- Refresh requests are atomic, decoding a token yields its identifier or nothing, and identifiers are fresh; password checks, audit rows and access tokens are left out.
- Of the indicators only Wilder smoothing, the directional movements and ADX are modelled, because their bounds rest on how the smoothed series relate to each other. Moving averages, RSI, MACD, Bollinger, stochastic and Donchian are functions of one window each whose values feed agents that are not modelled.
