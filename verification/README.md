# A verified model of the trading kernel

The kernel is deterministic and event-sourced: orders, fills and risk holds are objects changed in
place, an append-only log records what must survive a crash, and an unreliable venue answers late or
not at all. This project models its hard core in Dafny and proves what the code promises about it.
Code that changes state step by step is modelled by classes and loops, each proved against a function on
values; the theorems are about those functions and about runs of any length.

- **Fills ledger** (`LedgerModel`, `LedgerTheorems`, `FillsLedger`, `LedgerHistory`,
  `LedgerViews`, `LedgerBooks`): netting positions
  made of FIFO lots. A conservation law, two refinements (a queue of units, a signed net), replay equals
  live, exactly-once counting and calling back, over restarts and lost writes; the same laws once more
  from the venue's views alone.
- **Order protocol** (`OrderState`, `Lifecycle`, `LifecycleTheorems`, `OrderAudit`, `LogScan`,
  `EventStore`, `TailReader`, `ExecutionEngine`): a machine of atomic effects with crashes anywhere and
  any readable suffix of the log at each restart. Every engine method is proved to be a run of that
  machine, so the theorems about runs hold for the engine.
- **Reconciler** (`Reconciler`, `ReconcilerTheorems`): one order's pass as a list of stages, the cycle as
  a loop over open orders, safety and idempotence.
- **Risk holds and approvals** (`RiskReservations`, `RiskCaps`, `PolicyGateway`, `ApprovalTheorems`):
  global caps under every interleaving of lanes, approvals used at most once.
- **Sizing and slippage** (`Primitives`, `RiskConfig`, `PositionSizer`, `SizingTheorems`, `Slippage`):
  bounds, maximality, two-run monotonicity, a telescoping sum.
- **Replay and fast structures** (`WalkForward`, `CandleLadder`, `MarketStateStore`, `StructureEngine`):
  each loop or cache against a simple specification.

`dafny verify dfyconfig.toml` verifies everything.

## Modelling choices

- Ledger quantities are whole lot units, so the source's epsilon tests become zero tests. Prices, rates
  and sizing quantities are exact reals.
- The clock is a parameter, a fresh id is a parameter not in use, and random or environment values are
  parameters. One reconcile cycle uses one clock value.
- The venue is an arbitrary answerer. Whether a write succeeds, the ledger's included, whether a rotation
  happens and whether the fill observer throws is arbitrary in every call.
- A position id is the triple (symbol, side, decision) that the source joins with colons; symbols and
  decisions are taken to contain no colon.
- `submit` is split at its await: `BeginSubmit` ends with the venue call, `FinishSubmit` starts with the
  answer, and anything may happen in between.
- Bar times are wrapped in `OpenTime` so that they can serve as keys.

## Where the code does something else than its comments say

- `closeFifo` fires the close callback for every close, partial ones included; its comment says only
  when the position fully closes (src/engines/fills-ledger.ts:313-347): `LedgerHistory.EveryCloseCallsBack`.
- The close fan-out is meant to be exactly-once over restarts (docs/ROADMAP.md:201). A restart repeats
  none, but in durable mode a lost `position.closed` record throws before the callbacks, and nothing makes
  up for them: `LedgerHistory.HeardExactlyOnce`. The same throw drops the rest of a flip
  (src/engines/fills-ledger.ts:286-290), which a rebuild then opens; and a lost `fill.recorded`, which is
  not a critical record, leaves a ledger the log does not rebuild: `LedgerHistory.LostWriteExactly`.
- Each new quantity is recorded at the running average of its order, not at what it cost
  (src/engines/fills-ledger.ts:183), so partial fills at different prices leave the ledger off the
  venue's bill by exactly the drift of the average: `LedgerViews.PaidIsBilledLessDrift`, with
  `PartialFillsMissTheBill` as an input.
- A rebuild forgets an order's price contract and takes every order for an entry
  (src/engines/execution-engine.ts:277-281): after a restart no fold of it is flagged, and an exit's fill
  is recorded as an entry, which comes to the same exactly as `LedgerViews.EntryForExitExactly` says.
- An approved intent whose price or tolerance the execution intent refuses is consumed all the same, and
  its hold stays until it runs out (src/engines/policy-gateway.ts:261-266).
- A full close drops the counters of the decisions it credited (src/engines/fills-ledger.ts:333), so a
  later view of such a decision is counted again. `LedgerHistory.CountedOnceAcrossRestarts` gives the
  exact condition, `ForgottenCounterCountsTwice` an input.
- `applyBrokerUpdate` overwrites the filled quantity before the transition is checked
  (src/engines/execution-engine.ts:198-200). A refused transition, or a lost record of the fold,
  therefore loses the fill for the observer, now and in every later cycle:
  `ReconcilerTheorems.FillHeardOnceOrNever`.
- An approved intent is still accepted at the millisecond it expires while a hold already expires at its
  own (src/engines/policy-gateway.ts:206, src/engines/risk-reservations.ts:117), so equal lifetimes are not
  enough: `ApprovalTheorems.TtlConditionIsExact`. The defaults, 60 and 90 seconds, are.
- The slippage check sees only folds that add quantity at a positive marginal price
  (src/engines/execution-engine.ts:204, 222). `Slippage.UnflaggedRunExactly` says when checking every
  delta still keeps every delta in the band, `UncheckedFoldExactly` when an unchecked fold keeps the
  average in it; `NonPositiveMarginalEscapes` and `SilentAverageChangeEscapes` are inputs.
- `floorToStep` truncates towards zero, so a negative value is rounded up
  (src/domain/primitives.ts:85-89): `Primitives.FloorIsBelowExactly`.
- At the loss-streak limit the circuit multiplier is not monotone in the daily loss
  (src/domain/risk/risk-config.ts:85-91): `RiskConfig.FallsWithDailyLossExactly`.
- At most one submission per registration needs the durable mode:
  `LifecycleTheorems.NonDurableCanPlaceTwice`.
- The global caps need portfolio snapshots that already show every committed hold, and those are
  exactly the snapshots that are safe: `RiskCaps.SafeSnapshotsExactly`; `StaleSnapshotBreaksCaps` is an
  input.

## Model

| member | source | states |
|---|---|---|
| LedgerTheorems.Conservation | src/engines/fills-ledger.ts:95-115 | For any sequence of positive fills and any mark prices, realized PnL plus open lots valued at the marks equals the sum over the fills of effective signed quantity times (mark - recorded price); flips included |
| LedgerTheorems.FoldWealth | src/engines/fills-ledger.ts:233-349 | One fold changes realized plus open worth by exactly the effective quantity times its distance to the mark |
| LedgerTheorems.RunRefines | src/engines/fills-ledger.ts:261-349 | After any run the maps are consistent, every symbol's lots are the queue of units of a reference model that only queues and dequeues, and its signed net follows a model that keeps one number per symbol |
| LedgerTheorems.FoldRefinesQueue | src/engines/fills-ledger.ts:261-292 | One fill moves its symbol's unit queue as the reference queue says and leaves every other symbol alone |
| LedgerTheorems.QueueRefinesNet | src/engines/fills-ledger.ts:256-260 | The queue step adds exactly the effective quantity to the signed net: entries in full, exits only towards zero |
| LedgerTheorems.FoldKeepsInv | src/engines/fills-ledger.ts:127-133 | Kept by every fold: at most one open position per symbol, the two maps agree, lots are non-empty and positive, opened minus closed is the number of open positions |
| LedgerTheorems.FoldAllocationsAreFifo | src/engines/fills-ledger.ts:95-115 | The allocations of a fill, spelled out unit by unit, are exactly the first units of the queue in order, each with its own PnL and the entry decision it is credited to |
| LedgerTheorems.DropIsFifo | src/engines/fills-ledger.ts:89-106 | Closing q from the lots leaves the unit queue without its first q units |
| LedgerTheorems.TakesAreFifo | src/engines/fills-ledger.ts:95-115 | Allocations of a close are the credits of the first q units, in order |
| LedgerTheorems.TakesAddUp | src/engines/fills-ledger.ts:107-114 | Allocations are positive and add up to the closed quantity |
| LedgerTheorems.ClosedQuantity | src/engines/fills-ledger.ts:318-348 | Whatever the lots hold, a close closes the smaller of the asked and the held quantity, and nothing when that is not positive |
| LedgerTheorems.CloseConserves | src/engines/fills-ledger.ts:95-115 | A close moves worth from open to realized; only the closed units' distance to the mark leaves |
| LedgerTheorems.CloseBook | src/engines/fills-ledger.ts:318-349 | A close shortens the symbol's queue from the front, ends the position when nothing is left, and touches no other symbol |
| LedgerTheorems.AttributeRefinesQueue | src/engines/fills-ledger.ts:261-292 | Attribution of a fill is the reference queue step for entry, scale-in, partial close, full close and flip |
| LedgerHistory.ReplayIsLive | src/engines/fills-ledger.ts:152-164 | Replaying the log of any run of record calls, restarts and lost position records rebuilds positions, lots, realized totals, counters and remembered fills, when every accepted fill's record arrived, no lost close record interrupted a flip, and no restart left a fill unread |
| LedgerHistory.LostWriteExactly | src/engines/fills-ledger.ts:187-196 | What a lost write costs: after one more accepted call the log still rebuilds the ledger if and only if the call's fill record arrived and no flip was interrupted |
| LedgerHistory.RestartEqualsLive | src/engines/fills-ledger.ts:156-160 | A restart that leaves no usable fill unread changes nothing: ledger, log and callbacks stay as they were |
| LedgerHistory.RestartEqualsLiveExactly | src/engines/fills-ledger.ts:156-160 | With the fill memory not full, a restart changes nothing if and only if it leaves no usable fill unread |
| LedgerHistory.RestartsAreInvisible | src/engines/fills-ledger.ts:152-164 | An unharmed run with restarts ends in the ledger, log and callbacks of the same run without them |
| LedgerHistory.FittingIsUnharmed | src/engines/fills-ledger.ts:156-160 | The condition of these theorems holds when the log fits the 50 000 event window at every restart, no fill record is lost and no close record throws |
| LedgerHistory.TruncationIsExact | src/engines/fills-ledger.ts:156-160 | With the fill memory not full, a truncated log rebuilds the same ledger if and only if no usable fill was cut off |
| LedgerHistory.CountedExactlyOnce | src/engines/fills-ledger.ts:171-190 | The units recorded for a decision equal its last cumulative quantity if and only if no fill of it arrived after a full close dropped its counter |
| LedgerHistory.CountedOnceAcrossRestarts | src/engines/fills-ledger.ts:171-190 | The same for every unharmed run of record calls and restarts: no accepted fill's record lost, no flip interrupted, no fill left unread |
| LedgerHistory.RepeatRefusedWhileCounted | src/engines/fills-ledger.ts:172-176 | A venue view repeated after it was recorded is refused if and only if the decision's counter is still there |
| LedgerHistory.RepeatRefusedAcrossRestarts | src/engines/fills-ledger.ts:172-176 | The same after any unharmed run with restarts |
| LedgerHistory.RunIsRecorded | src/engines/fills-ledger.ts:166-197 | Every unharmed run, restarts included, with named decisions and symbols is a recorded run of fills, so the counting theorems apply to it |
| LedgerHistory.ForgottenCounterCountsTwice | src/engines/fills-ledger.ts:332-333 | Buy, sell, same entry view again: the entry unit is recorded a second time |
| LedgerHistory.HeardExactlyOnce | src/engines/fills-ledger.ts:327-347 | Over any run, restarts and lost writes included, the live venue's close callback hears every allocation exactly once and in order if and only if no call threw over a lost close record |
| LedgerHistory.EveryCloseCallsBack | src/engines/fills-ledger.ts:313-347 | On the live venue a close calls back, partial or full, unless it was full and its record threw; the position stays open if and only if the close was partial |
| LedgerHistory.TallyHolds | src/engines/fills-ledger.ts:238-242 | Over any recorded run: counter, last view, delivered units and forgetting stay consistent for every decision |
| LedgerViews.PositionFollowsViews | src/engines/fills-ledger.ts:171-197 | From the venue's views alone: after any unharmed run with restarts in which no fill came after its counter was dropped, a symbol shows what its views bought less what they sold, by side, intent type and new cumulative quantity, exits only towards zero |
| LedgerViews.MoneyFollowsViews | src/engines/fills-ledger.ts:171-197 | Over the same runs and any marks, realized profit plus open worth is the sum over the views of each move times its distance from the view's average to the mark |
| LedgerViews.CallCountsAsSeen | src/engines/fills-ledger.ts:172-176 | A call is accepted exactly when its priced view shows more than all views of its decision before, and records the difference |
| LedgerViews.PaidIsBilledLessDrift | src/engines/fills-ledger.ts:180-189 | New quantity is recorded at the running average: what the ledger pays for a decision is the venue's bill, final average times final quantity, less every change of the average times the quantity filled before it |
| LedgerViews.PartialFillsMissTheBill | src/engines/fills-ledger.ts:180-189 | One such input: two partial fills, recorded 10 short of a bill of 220 |
| LedgerViews.EntryForExitExactly | src/engines/execution-engine.ts:274-283 | An exit that a restart has turned into an entry moves the net as the exit would if and only if it is against the position and not larger than it |
| LedgerBooks.CloseRecordsAddUp | src/engines/fills-ledger.ts:318-342 | Over any unharmed run with restarts whose close records all arrived, everything ever realized is the sum of the realized profit of the open positions and of the close records |
| LedgerBooks.AttributeSettles | src/engines/fills-ledger.ts:261-349 | One fill: the profit that leaves the open positions is the profit its close record states, through exits, nettings and flips |
| LedgerBooks.FoldCounts | src/engines/fills-ledger.ts:322-326 | A fold counts each of its allocations once |
| FillsLedger.AllocateFifo | src/engines/fills-ledger.ts:95-115 | The lot loop returns the FIFO allocations of the old lots and leaves exactly the remaining ones |
| FillsLedger.TakeHead | src/engines/fills-ledger.ts:102-112 | One turn of the loop: close from the oldest lot, shift it out when exhausted |
| FillsLedger.FillsLedger.constructor | src/engines/fills-ledger.ts:142-150 | A new ledger is empty and consistent |
| FillsLedger.FillsLedger.Persist | src/engines/fills-ledger.ts:247-254 | Lifecycle events are appended live, unless the write is lost, and suppressed during replay; a lost close record throws exactly in durable mode |
| FillsLedger.FillsLedger.OpenNew | src/engines/fills-ledger.ts:294-311 | Opens the symbol's position with one lot, indexes it, counts it, logs it unless the record is lost |
| FillsLedger.FillsLedger.TakeFifo | src/engines/fills-ledger.ts:318-321 | FIFO-closes from an open position and returns the allocations |
| FillsLedger.FillsLedger.BookAllocations | src/engines/fills-ledger.ts:322-326 | Adds every allocation's PnL to the position and to the totals, and counts it |
| FillsLedger.FillsLedger.Retire | src/engines/fills-ledger.ts:327-342 | An emptied position leaves both maps, is counted closed, the decisions it credited lose their counters, and the close is logged unless the record is lost |
| FillsLedger.FillsLedger.ForgetDecisions | src/engines/fills-ledger.ts:332-333 | The counters of exactly the credited decisions are dropped |
| FillsLedger.FillsLedger.RetireIfEmpty | src/engines/fills-ledger.ts:327-342 | Retires and logs the close exactly when the lots are gone; nothing else can throw |
| FillsLedger.FillsLedger.Settle | src/engines/fills-ledger.ts:318-342 | Close, book and retire together compute the value-level close |
| FillsLedger.FillsLedger.FanOut | src/engines/fills-ledger.ts:343-347 | The close callback hears every allocation, on the live venue and not during replay |
| FillsLedger.FillsLedger.CloseFifo | src/engines/fills-ledger.ts:318-349 | New ledger, closed quantity, logged events and callbacks of a close, from the old ledger; a close record that throws comes after the books and before any callback |
| FillsLedger.FillsLedger.Extend | src/engines/fills-ledger.ts:277-284 | Scale-in appends one lot and changes nothing else |
| FillsLedger.FillsLedger.NetThenFlip | src/engines/fills-ledger.ts:285-291 | An opposite entry nets the position down and opens the remainder on its own side, unless the close record threw in between |
| FillsLedger.FillsLedger.AttributeEntry | src/engines/fills-ledger.ts:272-292 | An entry opens, scales in, nets down or flips |
| FillsLedger.FillsLedger.AttributeFill | src/engines/fills-ledger.ts:261-269 | Attribution computes the value-level attribution, its events and its callbacks, cut short exactly when a full close's record threw |
| FillsLedger.FillsLedger.Note | src/engines/fills-ledger.ts:235-242 | Remembers the fill (at most 10 000) and raises the decision's counter |
| FillsLedger.FillsLedger.FoldIn | src/engines/fills-ledger.ts:233-244 | An unusable payload is ignored; a usable one, whatever its quantity, is noted and attributed |
| FillsLedger.FillsLedger.Record | src/engines/fills-ledger.ts:171-197 | Refused exactly when the view has no price or no quantity beyond the counter; the recorded fill is the view's own, with its order, symbol, side, intent type, average, time and new units; cut short exactly when a full close's record throws; ledger, log and callbacks step as the world of recorded calls does, and the invariant of the maps is kept |
| FillsLedger.FillsLedger.Hydrate | src/engines/fills-ledger.ts:153-164 | Ends in the replay of the last 50 000 events; appends nothing and calls nobody back |
| FillsLedger.FillsLedger.ReplayWindow | src/engines/fills-ledger.ts:156-160 | The replay loop folds every recorded fill of the window in order |
| FillsLedger.Boot | src/engines/fills-ledger.ts:152-164 | A new process on the same log is the restart step of the world of recorded calls |
| OrderState.NoWayBack | src/domain/orders/order-state.ts:19-38 | No edge of the table leads to ORDER_INTENT, only ORDER_INTENT leads to RISK_APPROVED, and none leaves a terminal state |
| OrderState.EdgesByTarget | src/domain/orders/order-state.ts:19-38 | The edge table read from its targets: which states lead to each state |
| LifecycleTheorems.NoDoubleSubmission | src/engines/execution-engine.ts:145-191 | Durable mode, crashes anywhere, any readable suffix of the log at each restart: an id reaches the venue at most as often as it was registered |
| LifecycleTheorems.PlacedIsNeverRevivedApproved | src/engines/execution-engine.ts:70-87 | An id registered once and placed is never rebuilt as RISK_APPROVED from any suffix of the log, nor submittable in memory |
| LifecycleTheorems.RevivedApprovedExactly | src/engines/execution-engine.ts:73-79 | A rebuild yields RISK_APPROVED if and only if the log registers the id and shows no sign that its submission had begun |
| LifecycleTheorems.NonDurableCanPlaceTwice | src/infrastructure/events/event-store.ts:201-209 | Without durability the promise fails: one registration, two placements |
| LifecycleTheorems.StepKeepsBudget | src/engines/execution-engine.ts:173-183 | Every effect keeps the invariant that placements plus possible placements stay within registrations |
| LifecycleTheorems.RunConcat | src/engines/execution-engine.ts:162-191 | Runs compose, so each engine method is one segment of a run and a crash between segments is a crash of the machine |
| OrderAudit.AuditChain | src/engines/execution-engine.ts:260-272 | Within one run each live order's logged transitions start at RISK_APPROVED, each from is the previous to, every edge is allowed, the last to is the live status |
| OrderAudit.RebuildEqualsLive | src/engines/execution-engine.ts:274-283 | Over every clean run, restarts included, rebuilding from the full log gives each order's live status with SUBMITTING read as UNKNOWN, and no terminal order |
| OrderAudit.TerminalForever | src/domain/orders/order-state.ts:30-33 | Over any run whose writes succeed, with any rotation and any unread part at each restart, a terminal order keeps its status, and no suffix of any later log revives it |
| OrderAudit.NoSuffixRevivesTerminal | src/engines/execution-engine.ts:74-78 | No readable part of the log brings a finished order back |
| LogScan.IndexEvents | src/engines/execution-engine.ts:47-67 | The indexing loop keeps, per decision, the last registration, the last transition and whether a submission intent was seen |
| LogScan.ScanOrderEvents | src/engines/execution-engine.ts:70-87 | The scan loop returns, for every id, the order the whole log describes |
| LogScan.ScanIsRevive | src/engines/execution-engine.ts:70-87 | What the scan returns is what the protocol machine revives |
| LogScan.RebuiltFromEvents | src/engines/execution-engine.ts:70-87 | A rebuilt order event by event: terms and time of its last registration, venue id and status of its last transition, SUBMITTING or a logged submission intent read as UNKNOWN, none when that status is CLOSED, REJECTED, CANCELLED or EXPIRED |
| LogScan.UnregisteredIsNotRebuilt | src/engines/execution-engine.ts:70-73 | What the log does not register is not rebuilt |
| EventStore.EventStore.Write | src/infrastructure/events/event-store.ts:106-121 | A failed append leaves the file and marks the store unhealthy; a successful one appends, heals, and at every 1000th looks whether to rotate, the only time the oldest records may be dropped |
| EventStore.EventStore.MaybeRotate | src/infrastructure/events/event-store.ts:91-104 | Rotation keeps the file or exactly its newest 10 000 records |
| EventStore.EventStore.Append | src/infrastructure/events/event-store.ts:188-193 | A lost telemetry record degrades health and throws nothing |
| EventStore.EventStore.AppendCritical | src/infrastructure/events/event-store.ts:201-209 | A lost audit record throws exactly in durable mode |
| EventStore.EventStore.ReadAll | src/infrastructure/events/event-store.ts:167-223 | Reading the file's text from its end and parsing it gives back exactly the last limit records, for every encoding that round-trips, one record a line |
| EventStore.ParsedBack | src/infrastructure/events/event-store.ts:44-50 | Parsing the lines of a file gives back its records, none dropped |
| TailReader.ReadFileTail | src/infrastructure/events/event-store.ts:167-182 | For any file of non-blank lines, complete or with a torn last one, the tail reader returns the last limit lines of the whole file, parsed, unparsable ones dropped; a torn line takes one of the places |
| TailReader.ReadGrowing | src/infrastructure/events/event-store.ts:172-177 | The doubling loop terminates and gives the same lines from any first chunk size that covers the torn line |
| TailReader.ChunkIsSuffix | src/infrastructure/events/event-store.ts:150-161 | A chunk read from any offset gives exactly the last so many lines; from the start, all of them |
| TailReader.AfterNextNewline | src/infrastructure/events/event-store.ts:156-159 | What follows the next newline anywhere inside a log is the text of its last lines |
| TailReader.LinesOfText | src/infrastructure/events/event-store.ts:160 | Trim, split and filter give back the lines of a log, its two outer ends trimmed |
| TailReader.LinesOfTorn | src/infrastructure/events/event-store.ts:160 | The same for a file with a torn last line |
| TailReader.TrimmedParsesAlike | src/infrastructure/events/event-store.ts:146-148 | Trimming the outer ends changes no parsed record |
| ExecutionEngine.TerminalSetAgrees | src/engines/execution-engine.ts:31 | The terminal set of the rebuild is the set of states without outgoing edges |
| ExecutionEngine.ExecutionEngine.RegisterApproved | src/engines/execution-engine.ts:126-142 | Tracks the order as RISK_APPROVED with the pair, symbol, side, quantity and reservation of its spec and nothing filled or contracted, then logs the registration; a run of the protocol machine |
| ExecutionEngine.ExecutionEngine.Move | src/engines/execution-engine.ts:260-271 | Same status does nothing, an edge not in the table throws, otherwise memory moves and old and new status are logged |
| ExecutionEngine.ExecutionEngine.AssertSubmittable | src/engines/execution-engine.ts:145-159 | Passes exactly for a RISK_APPROVED order, a healthy store and an open gate |
| ExecutionEngine.ExecutionEngine.StartSubmitting | src/engines/execution-engine.ts:173 | The transition to SUBMITTING is logged first; a lost record in durable mode stops the submission |
| ExecutionEngine.ExecutionEngine.LogSubmissionIntent | src/engines/execution-engine.ts:174-177 | Logs the submission intent |
| ExecutionEngine.ExecutionEngine.PlaceOrder | src/engines/execution-engine.ts:179 | The venue call, possible only for a cleared submission, once per clearance |
| ExecutionEngine.ExecutionEngine.SendToVenue | src/engines/execution-engine.ts:173-179 | Transition, intent record, venue call, in that order |
| ExecutionEngine.ExecutionEngine.BeginSubmit | src/engines/execution-engine.ts:162-179 | submit up to the venue call: a ready, priced order reaches it unless its durable transition is lost; it reports success exactly when the call was made, and then the order is SUBMITTING and carries the price, the tolerance and the intent type of the request |
| ExecutionEngine.ExecutionEngine.FinishSubmit | src/engines/execution-engine.ts:178-191 | submit after the answer: quantity and average are folded and the observer is called once for a new quantity; the order ends in the answered status exactly when nothing was thrown, else it is given up as UNKNOWN; no answer folds nothing |
| ExecutionEngine.ExecutionEngine.Submit | src/engines/execution-engine.ts:162-191 | submit end to end: the answer's new units are held to the request's own price and tolerance, on both sides: the breach is logged if and only if their money is outside the band, and the cancel requested if and only if something cancellable is left and was not asked for before; which answers are refused, what the observer hears, and UNKNOWN otherwise |
| ExecutionEngine.ExecutionEngine.GiveUp | src/engines/execution-engine.ts:182-189 | Moves to UNKNOWN exactly when the table allows it, then logs order.unknown; throws exactly when the move is refused or a record is lost in durable mode |
| ExecutionEngine.ExecutionEngine.ApplyBrokerUpdate | src/engines/execution-engine.ts:194-208 | Overwrites quantity and average, moves the status, checks slippage, calls the observer once for a new quantity; a refused transition throws after the overwrite; which cancel requests are sent is stated for every ending |
| ExecutionEngine.ExecutionEngine.TakeView | src/engines/execution-engine.ts:197-199 | Quantity and order id are overwritten, the average only when the view carries one |
| ExecutionEngine.ExecutionEngine.ObserveFill | src/engines/execution-engine.ts:202-207 | Slippage first, observer second; a lost breach record silences the observer |
| ExecutionEngine.ExecutionEngine.EnforceSlippage | src/engines/execution-engine.ts:216-238 | Flags exactly the folds outside the band, logs the breach, asks to cancel the remainder |
| ExecutionEngine.ExecutionEngine.RecordBreach | src/engines/execution-engine.ts:225-237 | The breach is logged before the remainder is stopped |
| ExecutionEngine.ExecutionEngine.CancelRemainder | src/engines/execution-engine.ts:241-250 | One cancel request per intent at most, and exactly for an unfilled remainder of a SUBMITTED, ACKNOWLEDGED or PARTIALLY_FILLED order with a venue id |
| ExecutionEngine.ExecutionEngine.Cancel | src/engines/execution-engine.ts:253-258 | Needs a venue id and the venue's consent; then CANCELLED exactly when the table allows it |
| ExecutionEngine.ExecutionEngine.ListOpen | src/engines/execution-engine.ts:118-123 | Every tracked order that is not terminal, each once |
| ExecutionEngine.ExecutionEngine.Hydrate | src/engines/execution-engine.ts:274-283 | Puts exactly what the log revives into memory, over whatever is tracked, with the pair, symbol, side, quantity and reservation of the registration, nothing filled, no price contract, and every order an entry |
| ExecutionEngine.ScannedStatuses | src/engines/execution-engine.ts:70-87 | What the scan found is, id by id, what the machine revives |
| ExecutionEngine.Boot | src/engines/execution-engine.ts:274-276 | A new process on the log a crash left is the machine's restart from that point |
| Slippage.FoldBalances | src/domain/orders/slippage.ts:25-37 | One fold keeps marginal price times delta in the books if and only if its view adds quantity, repeats quantity and average, or spreads the old notional over a smaller quantity |
| Slippage.ChargesTelescope | src/domain/orders/slippage.ts:25-37 | Marginal times delta, summed over the folds, is the final average times the final quantity |
| Slippage.InsideBand | src/domain/orders/slippage.ts:40-45 | Not a breach if and only if the price is on the right side of the band edge, for both sides |
| Slippage.FlaggedExactly | src/engines/execution-engine.ts:216-224 | The guard in money: a fold is flagged if and only if the notional its new units added is positive and, for their number, above what a buy may cost or below what a sell must bring |
| Slippage.UnflaggedIsInBandExactly | src/engines/execution-engine.ts:216-224 | What the guard on non-positive marginals lets through: an unflagged checked delta is in the band if and only if it is a buy or its marginal is positive, or the sell band has no positive edge |
| Slippage.UnflaggedRunExactly | src/engines/execution-engine.ts:210-224 | An unflagged run has every delta in the band if and only if it buys or every marginal was positive |
| Slippage.UncheckedFoldExactly | src/engines/execution-engine.ts:204 | A fold that adds no quantity is never flagged, and leaves the filled quantity within the band if and only if the average it leaves is on the right side of the edge |
| Slippage.WithinBandIsAverage | src/domain/orders/slippage.ts:40-45 | Notional against the band edge is the average price against the band |
| Slippage.UnflaggedAverageInBand | src/engines/execution-engine.ts:216-224 | If no fold was flagged, the final average price lies within the band: for buys without any condition on the marginals, for sells when they were positive |
| Slippage.SilentAverageChangeEscapes | src/engines/execution-engine.ts:204 | A change of the average without new quantity is never checked and can end outside the band |
| Slippage.NonPositiveMarginalEscapes | src/engines/execution-engine.ts:222 | A marginal price that is not positive is skipped and a sell can end outside the band |
| Slippage.Telescopes | src/domain/orders/slippage.ts:25-29 | The marginal price accounts exactly for the change of average times quantity |
| Reconciler.Reconciler.Reconcile | src/engines/reconciler.ts:84-122 | Every open order gets its own pass from the state the cycle found and ends as its own answer, the snapshot and its pair say; an error stays with its order; holds, observer calls and report are the sums over the passes; orders not open are untouched; a report with changes ends in one "reconcile" record, whose loss is the only throw |
| Reconciler.Reconciler.PassOverAll | src/engines/reconciler.ts:104-112 | The loop: each order ends where its own pass leads, independent of the others |
| Reconciler.Reconciler.ReconcileOne | src/engines/reconciler.ts:124-202 | One order's pass ends at a stage of its policy, at the last one unless an audit write was lost or the observer threw; in terms of the answer, the position snapshot and the order's pair: a missing order whose pair is in an available snapshot keeps status and hold, another is cancelled and released exactly when its edge or its timeout allows, and FILLED is lifted exactly with its pair in the snapshot |
| Reconciler.FitsEnds | src/engines/reconciler.ts:150-202 | Every pass that fits the policy ends as the answer, the snapshot and the pair say, status, quantity and hold alike |
| Reconciler.FitsCounts | src/engines/reconciler.ts:124-202 | What one pass adds to each counter of the report, from the answer, the snapshot, the pair and the verdict |
| Reconciler.SettlesOne | src/engines/reconciler.ts:172-194 | Committing or releasing ends exactly the active hold the order names, in that state |
| Reconciler.Reconciler.OnNotFound | src/engines/reconciler.ts:151-178 | Missing-order policy: held on position evidence, SUBMITTING only after ten seconds, then CANCELLED and the hold released |
| Reconciler.Reconciler.CancelMissing | src/engines/reconciler.ts:170-176 | The hold is released only after the cancellation was logged |
| Reconciler.Reconciler.OnFound | src/engines/reconciler.ts:181-202 | Fold when the view differs, commit the hold of a fill, lift to POSITION_OPEN with a live position |
| Reconciler.Reconciler.CommitAndLift | src/engines/reconciler.ts:192-201 | After the fold: commit the hold of a fill, then lift exactly for FILLED with a live position and an allowed edge |
| Reconciler.Reconciler.FoldFound | src/engines/reconciler.ts:186-190 | Folds exactly a differing view; throws exactly when the edge is refused |
| Reconciler.Reconciler.Lift | src/engines/reconciler.ts:195-201 | POSITION_OPEN exactly when the venue says FILLED, a position exists and the edge is allowed |
| Reconciler.Reconciler.SettleHold | src/engines/reconciler.ts:172-174 | Commits or releases the order's own hold, if it has one |
| Reconciler.Reconciler.LogReport | src/engines/reconciler.ts:118-120 | Exactly a cycle that changed something attempts one "reconcile" record; it throws exactly when that record is lost in durable mode |
| ReconcilerTheorems.OutageChangesNothing | src/engines/reconciler.ts:137-148 | A cycle in which every lookup fails leaves every order and hold as it found them, calls no observer, and reports nothing but failed lookups and the orders still UNKNOWN |
| ReconcilerTheorems.ReportAddsUp | src/engines/reconciler.ts:104-117 | Resolved and repaired are the sums over the passes |
| ReconcilerTheorems.CancelledByAbsence | src/engines/reconciler.ts:150-178 | A pass that runs to its end cancels by absence if and only if the venue answered NOT_FOUND, no position speaks against it, and the order may be cancelled or its submission timed out; the hold is released exactly then |
| ReconcilerTheorems.NeverCancelledOtherwise | src/engines/reconciler.ts:36-41 | No other answer cancels an order or frees its budget, however the pass ended |
| ReconcilerTheorems.HoldsSettleForAReason | src/engines/reconciler.ts:172-194 | A release implies a cancelled order; a commit implies a venue fill or an open position |
| ReconcilerTheorems.HoldFollowsOwnPass | src/engines/reconciler.ts:104-112 | An order's hold ends the cycle as its own pass leaves it, whatever the other passes did |
| ReconcilerTheorems.UnnamedHoldKept | src/engines/reconciler.ts:104-112 | A hold no pass names keeps its state |
| ReconcilerTheorems.SecondCycleIsQuiet | src/engines/reconciler.ts:181-202 | A second pass on the same answers and clock changes neither status nor quantity, calls no observer and leaves the hold, unless the first was cut short |
| ReconcilerTheorems.ReconcileTwice | src/engines/reconciler.ts:84-122 | Two calls of reconcile on the same answers, positions and clock: unless something cut the first one short, the second leaves every status, every hold and the observer's history as the first left them |
| ReconcilerTheorems.RepeatHearsNothing | src/engines/execution-engine.ts:196-207 | Whatever cut either pass short, repeating a found answer tells the observer nothing |
| ReconcilerTheorems.FillHeardOnceOrNever | src/engines/execution-engine.ts:196-207 | Over any number of cycles, however each ended, a newly reported quantity reaches the observer exactly once, or never; never if and only if the reported status is refused or a record of the fold itself is lost |
| ReconcilerTheorems.LostWriteLosesFill | src/engines/execution-engine.ts:200-206 | Such a lost record does make the observer miss a fill for good, also when the next cycle goes through |
| RiskReservations.RiskReservationManager.SweepExpired | src/engines/risk-reservations.ts:114-126 | Exactly the active holds past their time expire and are reported |
| RiskReservations.RiskReservationManager.Active | src/engines/risk-reservations.ts:128-130 | The active holds in placement order |
| RiskReservations.RiskReservationManager.Reserve | src/engines/risk-reservations.ts:147-157 | Sweeps, then approves exactly when positions, symbol, gross and cluster exposure and the trade's own notional keep the five limits, summed over broker, live holds and candidate; otherwise names exactly the broken limits; places one active hold with the request's terms |
| RiskReservations.RejectionsExactly | src/engines/risk-reservations.ts:47-89 | Each rejection code is reported if and only if its own inequality fails, on sums spelled out over exposures and live holds |
| RiskReservations.ApprovedExactly | src/engines/risk-reservations.ts:66-89 | Nothing is rejected if and only if all five inequalities hold |
| RiskReservations.RiskReservationManager.Place | src/engines/risk-reservations.ts:176-203 | Adds one active hold and changes no other |
| RiskReservations.RiskReservationManager.Commit | src/engines/risk-reservations.ts:206-215 | Commits an active hold and nothing else |
| RiskReservations.RiskReservationManager.Release | src/engines/risk-reservations.ts:218-227 | Releases an active hold and nothing else |
| RiskReservations.ActiveSumsAgree | src/engines/risk-reservations.ts:47-64 | Projecting over the active holds is projecting over all holds: ended ones weigh nothing |
| RiskCaps.CapsHold | src/engines/risk-reservations.ts:91-104 | In every reachable state of every interleaving, broker exposure plus active holds stays within the gross, every symbol, every cluster and the position-count cap |
| RiskCaps.ApprovedFits | src/engines/risk-reservations.ts:66-89 | An approved request projects inside the cap of every scope it belongs to |
| RiskCaps.StepKeepsCaps | src/engines/risk-reservations.ts:147-227 | Each of reserve, commit, release, expiry and broker movement keeps the caps |
| RiskCaps.PlacedHoldsAreTradeSized | src/engines/risk-reservations.ts:85-87 | Over any run no hold is larger than the limit for one trade |
| RiskCaps.SafeSnapshotsExactly | src/engines/risk-reservations.ts:147-157 | Reserving against a portfolio snapshot keeps the caps, whatever limits, clock and request, if and only if the snapshot shows at least the broker's exposure in every scope and at least its positions |
| RiskCaps.LaggingScopeIsUnsafe | src/engines/risk-reservations.ts:66-89 | A snapshot that lags in the gross, a symbol's or a cluster's exposure breaks the caps for some limits and request |
| RiskCaps.LaggingPositionsAreUnsafe | src/engines/risk-reservations.ts:66-89 | So does one that lags in the number of positions |
| RiskCaps.StaleSnapshotBreaksCaps | src/engines/risk-reservations.ts:147-157 | One such input: a snapshot older than the last commit |
| PolicyGateway.PolicyGateway.Propose | src/engines/policy-gateway.ts:224-247 | A hold is reserved and, only with it, an intent remembered |
| PolicyGateway.PolicyGateway.Verify | src/engines/policy-gateway.ts:198-210 | Passes exactly for a remembered intent that is pending, not past its expiry millisecond, while trading is allowed; NOT_FOUND, ALREADY_CONSUMED and HALTED exactly in their own cases, expired in all others |
| PolicyGateway.PolicyGateway.ExecuteApproved | src/engines/policy-gateway.ts:250-273 | An intent is handed over exactly when it is pending, in time, trading is allowed and its price and tolerance are sound; it is consumed before; a lapsed or halted one loses its hold; an unsound one throws, consumed, with its hold kept |
| PolicyGateway.PolicyGateway.SettleReservation | src/engines/policy-gateway.ts:76-79 | Exactly the named active hold is committed by FILLED or POSITION_OPEN and released by REJECTED, CANCELLED or EXPIRED; every other hold and status is left alone |
| ApprovalTheorems.SubmittedAtMostOnce | src/engines/policy-gateway.ts:250-267 | Under any interleaving each approved decision reaches submit at most once, after it was consumed |
| ApprovalTheorems.SubmittedExactly | src/engines/policy-gateway.ts:250-267 | Under any interleaving the decisions that reach submit are exactly, and in order, those whose execution found them pending, in time, with trading allowed and a sound price and tolerance |
| ApprovalTheorems.IntentLife | src/engines/policy-gateway.ts:224-273 | An intent starts pending with an approved proposal's terms exactly when the five limits are kept, ends consumed or expired only by its own execution, and changes nothing else |
| ApprovalTheorems.HoldLife | src/engines/risk-reservations.ts:114-227 | For every step of every lane: when a hold runs out, is released, is committed, and that an ended hold stays ended |
| ApprovalTheorems.LapsedHasNoActiveHold | src/engines/policy-gateway.ts:253-259 | An intent marked expired has no active hold |
| ApprovalTheorems.VerifiedAlwaysOwnsActiveHold | src/engines/policy-gateway.ts:198-210 | Under any interleaving in which intents are built to expire before their holds, an intent that passes verification owns an active hold |
| ApprovalTheorems.VerifiedOwnsActiveHold | src/engines/policy-gateway.ts:206 | The same for one intent, from its own and its hold's expiry times |
| ApprovalTheorems.TtlConditionIsExact | src/engines/policy-gateway.ts:173-190 | From a fresh approval some later moment verifies the intent on a hold another lane has swept if and only if the intent does not expire strictly first; equal lifetimes are not enough |
| Primitives.FloorIsGreatest | src/domain/primitives.ts:85-89 | For a value that is not negative the floor is the greatest step multiple not above it |
| Primitives.CeilIsLeast | src/domain/primitives.ts:91-99 | For a value that is not negative the ceiling is the least step multiple not below it |
| Primitives.FloorIsBelowExactly | src/domain/primitives.ts:85-89 | The floor is not above its value if and only if there is no step, the value is not negative, or it is on the step |
| RiskConfig.MoreDamageNeverRaises | src/domain/risk/risk-config.ts:79-103 | More daily loss, drawdown or streak never raises the multiplier, for a streak below its limit |
| RiskConfig.FallsWithDailyLossExactly | src/domain/risk/risk-config.ts:85-91 | The multiplier falls with the daily loss if and only if the streak is below its limit, or drawdown already stopped trading, or the daily limit is not positive |
| RiskConfig.LevelsExactly | src/domain/risk/risk-config.ts:79-103 | The multiplier is 0, 0.5, 0.75 or 1, and exactly when it is 0, at most a half, and 1 |
| PositionSizer.ResolveQuantity | src/engines/position-sizer.ts:67-100 | Floor, minimum checks, bump and cap in the source's order, with its refusals and warnings, wherever nothing is divided by zero |
| PositionSizer.SizePosition | src/engines/position-sizer.ts:108-139 | The whole pipeline with every refusal, for any input that divides nothing by zero |
| PositionSizer.CostsArePositive | src/engines/position-sizer.ts:55-65 | With a positive price and non-negative rates the effective risk per unit is positive |
| SizingTheorems.SizeIsBounded | src/engines/position-sizer.ts:93-133 | An accepted size is within the exchange's range, its notional within the trade cap, its margin within what is available, its risk within 1.02 of the budget |
| SizingTheorems.SizeInMoney | src/engines/position-sizer.ts:55-139 | An accepted size in money: distance to the stop, fees and slippage both ways and funding are what it says it risks, at most 1.02 of the allowed share of equity; the margin is the notional over a leverage that is one or one of those offered, none exceeded |
| SizingTheorems.EarlyRefusals | src/engines/position-sizer.ts:108-116 | Refused for an empty budget or a missing stop distance exactly then |
| SizingTheorems.RefusalsExactly | src/engines/position-sizer.ts:67-100 | The quantity step refuses exactly when no tradable quantity is affordable, when what is affordable is too small and what is large enough risks too much, or when none fits the cap |
| SizingTheorems.MarginDecides | src/engines/position-sizer.ts:118-133 | After that a size comes out exactly when its notional is at most the available margin times the leverage |
| SizingTheorems.FinalCheckNeverFires | src/engines/position-sizer.ts:130-133 | The last risk check never rejects |
| SizingTheorems.SizeIsOptimal | src/engines/position-sizer.ts:67-100 | Neither bumped nor capped: the largest lot multiple in the budget; bumped: the least quantity meeting both minima; capped: the largest lot multiple under the cap |
| SizingTheorems.SizeMeetsItsCase | src/engines/position-sizer.ts:74-98 | What the accepted size satisfies in each case: on the lot step and affordable, meeting the minima, or under the cap |
| SizingTheorems.ResolvedGrows | src/engines/position-sizer.ts:67-100 | A smaller budget never resolves to a larger quantity, through floor, bump and cap |
| SizingTheorems.SizeGrowsWithMultiplier | src/engines/position-sizer.ts:108-119 | With everything else equal and both runs accepted, a smaller circuit multiplier never buys a larger size |
| SizingTheorems.MoreDamageNeverBuysMore | src/domain/risk/risk-config.ts:78-103 | More daily loss, drawdown or streak never buys a larger size, for a streak below its limit |
| SizingTheorems.ResolvedBounds | src/engines/position-sizer.ts:93-98 | Every resolved quantity is in range, under the notional cap and inside the tolerated budget |
| SizingTheorems.InBudgetIsGreatest | src/engines/position-sizer.ts:74-75 | The first quantity is the largest lot multiple the budget pays for |
| SizingTheorems.BumpedIsLeast | src/engines/position-sizer.ts:81-86 | The bumped quantity is the least that meets minimum notional and minimum quantity |
| SizingTheorems.InCapIsGreatest | src/engines/position-sizer.ts:93-95 | The capped quantity is the largest lot multiple within the cap, and below any quantity over it |
| WalkForward.Simulate | src/learning/walk-forward.ts:143-167 | The bar loop resolves a trade at the first bar that touches stop or target |
| WalkForward.ResolutionMeans | src/learning/walk-forward.ts:142-167 | Timeout if and only if no held bar touches; otherwise the first touching bar decides, and the stop wins an ambiguous one |
| WalkForward.ExtremesTell | src/learning/walk-forward.ts:147-158 | Stopped exactly when the recorded worst price reached the stop, on target exactly when only the target was reached, out of time exactly when neither was, for both directions |
| WalkForward.ExtremesAreTight | src/learning/walk-forward.ts:150-151 | Worst and best bound the entry and every bar held, and are attained |
| WalkForward.TouchIsFinal | src/learning/walk-forward.ts:147-161 | A trade that touched a level ends the same way whatever bars follow |
| WalkForward.GenerateTrades | src/learning/walk-forward.ts:217-240 | The loop with the sorted list of close times generates exactly the trades decided at bars where fewer than the slots of earlier trades outlived every decision bar since their own, for bars in any time order |
| WalkForward.NeverMoreOpenThanSlots | src/learning/walk-forward.ts:224-231 | For strictly increasing bar times, at every moment no more generated trades are open than there are slots |
| WalkForward.Prune | src/learning/walk-forward.ts:228 | Pruning a sorted list keeps exactly the close times still to come, in order |
| WalkForward.PushSorted | src/learning/walk-forward.ts:236-237 | Pushing and sorting adds one close time and keeps the order |
| WalkForward.SlotsAreSurvivors | src/learning/walk-forward.ts:228-229 | After pruning, the length of the slot list is the number of trades still holding a slot |
| WalkForward.SurvivingIsOpenAt | src/learning/walk-forward.ts:224-231 | For increasing bar times, holding a slot at a decision bar is being open at its time |
| CandleLadder.LadderIsNewestOfHistory | src/engines/market-state-store.ts:130-148 | After any mix of upserts and backfills a ladder holds exactly the newest cap open times ever written, each with its last candle |
| CandleLadder.BackfillIsUpsertsOneByOne | src/engines/market-state-store.ts:140-148 | A backfill leaves the ladder that the same candles upserted one by one leave |
| CandleLadder.InsertAbsorbed | src/engines/market-state-store.ts:135-136 | An insertion after trimming leaves the same newest entries as an insertion before |
| CandleLadder.NewestIsNewest | src/engines/market-state-store.ts:77-82 | Dropping the oldest beyond the cap keeps the newest: agreement, size, and order against everything dropped |
| CandleLadder.OnlyOneNewest | src/engines/market-state-store.ts:77-82 | The newest cap entries of a map are unique |
| MarketStateStore.TrimOldest | src/engines/market-state-store.ts:77-82 | The delete loop over sorted keys computes the newest entries |
| MarketStateStore.CapCandles | src/engines/market-state-store.ts:84-87 | Sort and slice list the newest entries in ascending order |
| MarketStateStore.InOrderAscends | src/engines/market-state-store.ts:84-87 | The listing is strictly ascending and holds exactly the ladder's candles |
| MarketStateStore.MarketStateStore.UpsertKline | src/engines/market-state-store.ts:131-138 | One candle is written to one symbol and timeframe and its last event time moves forward; no other symbol's history or last event changes |
| MarketStateStore.MarketStateStore.BackfillCandles | src/engines/market-state-store.ts:141-148 | A batch is written and trimmed once, with the same effect on event times |
| MarketStateStore.MarketStateStore.Snapshot | src/engines/market-state-store.ts:255-260 | Per timeframe, the newest of everything written, ascending; none before the first event |
| MarketStateStore.SnapshotAfter | src/engines/market-state-store.ts:131-260 | End to end: after any mix of upserts and backfills of any symbols, a snapshot exists if and only if its symbol was mentioned, and lists per timeframe the newest of everything written to that ladder, ascending |
| MarketStateStore.SnapshotSize | src/engines/market-state-store.ts:74 | A listing is as long as there were open times written, up to 220 for four-hour bars and 300 for the others |
| MarketStateStore.ArchiveIsHistory | src/engines/market-state-store.ts:131-148 | The history of each ladder is the history of the writes made to it, whatever was written to others in between |
| MarketStateStore.MarketStateStore.Book | src/engines/market-state-store.ts:117-124 | A book is created empty on first use |
| StructureEngine.FindSwings | src/engines/structure-engine.ts:11-27 | The nested loops return the swings of the whole series in index order |
| StructureEngine.Examine | src/engines/structure-engine.ts:15-22 | The window loop decides exactly whether a candle is a strict high or a strict low |
| StructureEngine.ExactlyTheExtrema | src/engines/structure-engine.ts:13-25 | A swing is listed if and only if it is a strict window extremum, with its index, price and time |
| StructureEngine.PivotsExactly | src/engines/structure-engine.ts:13-25 | A swing is found if and only if its price is strictly above the highs, or strictly below the lows, of its k neighbours on both sides |
| StructureEngine.InOrder | src/engines/structure-engine.ts:26 | Swings are strictly ordered by index, a high before a low of the same candle |
| StructureEngine.SameKindFarApart | src/engines/structure-engine.ts:10-27 | Two swings of the same kind are more than k candles apart |
| StructureEngine.NeverRepaints | src/engines/structure-engine.ts:11-27 | The swings of a series are a prefix of the swings of any extension |

## Left out

- FillsLedger.FillsLedger.Record: latency, pair and strategy fields are not modelled; rotation of the ledger's log is not, only its 50 000 event window.
- FillsLedger.FillsLedger.Hydrate: an exception inside the replay is not modelled.
- Reconciler.Reconciler.Reconcile: the cycle is one sequential pass; engine calls made by other lanes during its awaits are covered by the protocol machine but not by this contract. The detail strings are not modelled, and a reconciler without a reservation manager behaves like orders without a reservation.
- ReconcilerTheorems.SecondCycleIsQuiet: the average price is not promised to stay: a lift to POSITION_OPEN followed by a refused fold can overwrite it.
- TailReader.ReadFileTail: a torn last line is taken to be shorter than the first chunk of 65 536 characters, and white space around a line not to matter to the parser; characters stand for bytes, so a multi-byte character cut by a chunk is not modelled.
- EventStore.EventStore.ReadAll: the encoding is any pair of functions that round-trips, not JSON itself; the limit is positive, and the file ends in a complete record. The in-memory buffer, listeners and health counters are not modelled.
- WalkForward.GenerateTrades: the setup detector, candle slicing and the replay sizing check are one function from a bar to an optional candidate; a zero step, which never ends in the source, is excluded.
- WalkForward.Simulate: excursions in R, fees, funding and accounting of the finished trade are not modelled.
- MarketStateStore.MarketStateStore.Snapshot: the candle part only; quotes, depth, trades and microstructure are not modelled.
- PositionSizer.SizePosition: inputs that divide by zero, where the source continues with infinities, are excluded. Message texts are constructors.
- SizingTheorems.SizeIsBounded: assumes a positive price, costs that are not negative, and an exchange minimum and maxima that are not negative.
- RiskReservations.RiskReservationManager.Reserve: the detail text, the risk amount and the telemetry records are not modelled.
- PolicyGateway.PolicyGateway.Propose: starts after validation, gates and risk evaluation, whose outcome is the proposal it is given.
- Floating-point rounding, display strings, JSON encoding and environment parsing.
- Strategy id, pair, latency and expected-price metrics of fill records, and the quality report.
- Protective orders, kill switch, strategy registry, performance counters and alerting.
- Paper broker, venue adapters, streams, user interfaces, bots and language-model roles.
- Trend, liquidity levels and sweeps on top of the swings: filters that would only add easy members.
