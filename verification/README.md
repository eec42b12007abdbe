# Execution gateway: orders, positions, slices

A Dafny model of the execution gateway's order and position engine, with proofs of what it keeps
over every run. `dafny verify dfyconfig.toml` checks the whole project.

The gateway has several writers for one order row (broker webhooks, reconciliation, the slice
scheduler) and several threads that act on one position or slice. Most results below are therefore
about sequences: every delivery order of status updates, every sequence of fills, every interleaving of
transactions or of slice jobs with a cancel, a recovery pass after a restart and a second one after it.
Where the code does not do what one would expect of it, the model keeps the code, and a theorem
states exactly when the expectation is met and so which inputs fail it; most have a lemma with one such run.

| file | what it models |
|---|---|
| `Base.dfy` | nullable values, results, order sides |
| `OrderStatus.dfy` | statuses, conflict ranks, the terminal set |
| `OrderStore.dfy` | the orders table: compare-and-set write, cancel of pending slices, child count |
| `CasOrdering.dfy` | every sequence of compare-and-set deliveries |
| `PositionMath.dfy` | the position update and its P&L |
| `FillOrder.dfy` | when realized P&L depends on the order of fills |
| `TradeReplay.dfy` | the Decimal twin and the recalculation of realized P&L from the trades table |
| `PositionLocking.dfy` | interleaved fill transactions under the symbol lock |
| `SqlLike.dfy` | SQL LIKE, for the reconciliation patterns |
| `FillLedger.dfy` | fills in order metadata, superseding, the mirrored trades table |
| `SyntheticFills.dfy` | the synthetic fill that reconciliation computes and appends |
| `ActivityFills.dfy` | fills read back from the broker's account activities, and three writers of one order's fills |
| `WebhookRecords.dfy` | the fills a webhook books and records, event by event |
| `WebhookFills.dfy` | the webhook transaction: order row, position and recorded fills together |
| `TwapSlicer.dfy` | the TWAP planner and the request validators |
| `OrderIds.dfy` | the text that deterministic order ids are hashed from |
| `SliceExecution.dfy` | slice jobs as a state machine, with cancellation and other writers |
| `SliceEndings.dfy` | what the row shows of a slice job |
| `SharedSlice.dfy` | several jobs on one slice |
| `ZombieRecovery.dfy` | the scheduler's job store, cancellation and the recovery pass |
| `RecoveryOutcomes.dfy` | what a recovery pass makes of each pending slice, read off its inputs |
| `OrderPaging.dfy` | the paging loop over the broker's order list |
| `ComponentRecovery.dfy` | initialisation and recovery of the safety components |

Decimals and prices are reals, shares and times are integers (a time is a number of ticks), SQL NULL and
Python None are `None`. Tables are maps, an UPDATE is a guarded assignment. Clocks, the random sample, the
hash, failures of PostgreSQL, Redis and the broker, and the answers of the breaker, the kill switch and
the market clock are parameters over which every theorem quantifies. A fresh order row has no stamp and
no rank, is not terminal and has filled nothing.

Recovery relies on three facts about the orders table: (parent, slice number) is unique, which is an index
(`db/migrations/0001_extend_orders_for_slicing.sql`); a parent order is not itself a slice; and, for the
second pass, a `pending_new` row is not flagged terminal, which inserts and compare-and-set writes see to.

Where code and comments differ, the model follows the code:

- `filled` is a terminal status, and the docstring says terminal rows are protected; the guard lets a
  strictly later-stamped update of any status replace it and clear `is_terminal`.
- `cancel_pending_slices` sets only the status. The row keeps `is_terminal` FALSE: it is not locked, and
  a canceled child keeps its parent from being expired by recovery.
- The underscores in the pattern `%_recon_%` are wildcards, so it does not mean the text `_recon_`.
- `total_realized_pl` is not reduced when synthetic fills are superseded. It stays equal to the P&L of the
  live fills all the same, because reconciliation writes synthetic fills without P&L.
- Account activities are recorded as real fills under ids of their own: an execution that the webhook recorded
  too is live twice, and nothing takes it back.
- `update_position_on_fill` takes no lock.
- The webhook books a fill whose row write is then refused, once per delivery; the metadata records it once.
- The id of a synthetic fill repeats when the same gap returns on the same path, and the append then ignores it;
  the path over the database row has ids of its own.
- The scheduler removes a job only after the database shows `canceled`, to close a race; a webhook for a
  submission whose response was lost can still reopen the row for the next retry, and the failure that one job
  records can reopen it for another job of the same slice.
- Recovery moves the scheduled time of a slice whose job already exists, and leaves the job's time alone.
- The setters of the recovery manager take any instance and any flag; only its own initialisation and recovery
  fail closed.

## Model

| member | source | states |
|---|---|---|
| OrderStatus.RanksMatchTerminalSet | apps/execution_gateway/database.py:34-79 | the ranks follow an order's life, and agree with the terminal set, which is written separately: rank 4 and above is exactly terminal, rank 5 exactly filled |
| OrderStore.OrdersTable.UpdateOrderStatusCas | apps/execution_gateway/database.py:2179-2270 | one guarded UPDATE: the new table is the old one with that row decided by the guard, and a row is returned exactly when the guard held |
| OrderStore.OrdersTable.CancelPendingSlices | apps/execution_gateway/database.py:1061-1084 | every row is as before, except that a pending child of the parent is canceled in its status; none is left pending, the count is exact |
| OrderStore.OrdersTable.CountNonTerminalChildren | apps/execution_gateway/database.py:1124-1135 | counting row by row gives the number of children whose is_terminal is FALSE |
| CasOrdering.OrderIndependentIffConsistent | apps/execution_gateway/database.py:2207-2266 | for any finite set of updates to a fresh row: every delivery order with any repetitions gives the same status, stamp, rank, filled quantity and priority if and only if one update wins pairwise against all the others |
| CasOrdering.BrokerHistoryConverges | apps/execution_gateway/database.py:2207-2266 | a broker-consistent set always ends in what its greatest-key update reports, however it is delivered |
| CasOrdering.DeliveriesRaiseTheKey | apps/execution_gateway/database.py:2213-2266 | over any deliveries the row is untouched or its key (stamp, rank, filled, priority) has strictly risen; the filled quantity never falls |
| CasOrdering.TakesIff | apps/execution_gateway/database.py:2224-2234 | a row takes an update if and only if it is not locked and was never stamped or has a smaller key |
| CasOrdering.ColumnsOfDeliveries | apps/execution_gateway/database.py:2207-2244 | over any deliveries: status, stamp, rank, priority, error message and terminal flag are those of the last update taken, the filled quantity the largest, average price, fill time and broker ids those of the last update taken that gave one; nothing else changes |
| CasOrdering.RedeliveryIsIgnored | apps/execution_gateway/database.py:2213-2266 | an update delivered again changes nothing, whatever came between |
| CasOrdering.LockedRowIsFrozen | apps/execution_gateway/database.py:2224-2230 | a terminal row other than filled is unchanged by every later sequence |
| CasOrdering.FilledIsLeftExactlyByALaterStamp | apps/execution_gateway/database.py:2224-2234 | a filled row stays filled over a sequence exactly when no update with another status is stamped after it and the fills delivered before |
| CasOrdering.FilledCanBeReverted | apps/execution_gateway/database.py:2202-2230 | the counterexample to a full terminal lock |
| CasOrdering.EarlyCancelIsOrderDependent | apps/execution_gateway/database.py:2224-2230 | a cancel stamped before a fill makes the outcome depend on arrival order |
| CasOrdering.CanceledSliceIsNotLocked | apps/execution_gateway/database.py:1064-1071 | after a cancel of pending slices a later write still replaces the status exactly when it would have replaced pending_new |
| PositionMath.AccountingIdentity | apps/execution_gateway/database.py:103-197 | over any fills and for every mark price, realized P&L plus the open value moves by the sum of signed quantity times (mark - fill price), and the quantity by the sum of signed quantities |
| PositionMath.FillOrderKeepsEquity | apps/execution_gateway/database.py:103-197 | any reordering of the fills gives the same quantity and equity at every mark, and the same realized P&L when it ends flat |
| FillOrder.RealizedIgnoresOrderIff | apps/execution_gateway/database.py:103-197 | from flat, every order of a list of positive fills realizes the same P&L if and only if they net to zero, lie on one side, or the outweighing side has a single price |
| PositionMath.SplitFill | apps/execution_gateway/database.py:162-195 | two fills at one price and side equal one fill of their sum in quantity, average and realized P&L, including splits that land on or cross zero |
| PositionMath.PiecesMakeOneFill | apps/execution_gateway/database.py:162-195 | the same for any number of pieces |
| PositionMath.AverageStaysWithinFillPrices | apps/execution_gateway/database.py:146-197 | the average entry price always lies between the lowest and highest fill price, and is zero when flat |
| TradeReplay.DecimalTwinAgrees | apps/execution_gateway/database.py:200-240 | the Decimal twin computes the same position and the change of realized P&L |
| TradeReplay.ReplayRefinesPosition | apps/execution_gateway/database.py:1680-1709 | replaying trades ends in the incremental position, and the deltas sum to its realized P&L |
| TradeReplay.ReplayRows | apps/execution_gateway/database.py:1684-1709 | the loop: which rows are updated and with which delta, skipping the unusable ones |
| TradeReplay.WriteRealized | apps/execution_gateway/database.py:1711-1716 | the writes reach exactly those rows and change nothing but their realized P&L |
| TradeReplay.TradesTable.RecalculateTradeRealizedPnl | apps/execution_gateway/database.py:1648-1718 | the whole new table and both counts; with update_all the rows are fully recalculated in the sense of the next row |
| TradeReplay.UpdatedRowsIff | apps/execution_gateway/database.py:1655-1716 | a usable row is updated if and only if all are, or it is synthetic, or its source is one of those named; the reported number is the number of such rows |
| TradeReplay.RecalculatedPnlIsPositionPnl | apps/execution_gateway/database.py:1680-1718 | after such a recalculation the stored P&L of the usable trades sums to the P&L of the position they build |
| PositionLocking.NoLostFills | apps/execution_gateway/database.py:2409-2434 | in every interleaving the stored position is the fold of the committed fills in commit order, when of any two transactions on the symbol both take the lock |
| PositionLocking.OnePastTheLock | apps/execution_gateway/database.py:2409-2434 | in every run at most one transaction of a symbol is past the lock |
| PositionLocking.AnyTransactionCanCommit | apps/execution_gateway/database.py:2409-2434 | from every reachable state every unfinished transaction can still commit |
| PositionLocking.InterleavingDoesNotMatter | apps/execution_gateway/database.py:2730-2774 | two interleavings that commit the same transactions agree on quantity and on equity at every mark, so on realized - qty * avg |
| PositionLocking.NoFillIsLostIff | apps/execution_gateway/database.py:2860-2965 | over every run from a start, no fill on a symbol is lost if and only if no fill that moves the position shares the symbol with another transaction unless both take the lock |
| PositionLocking.OverwriteLosesTheFill | apps/execution_gateway/database.py:2913-2965 | for any such pair the run in which one overwrites the fill of the other |
| SqlLike.UnderscoresAreWildcards | apps/execution_gateway/database.py:2684-2703 | what a pattern with underscores around a word asks for: the word with at least one character on each side |
| FillLedger.FillTables.AppendFillToOrderMetadata | apps/execution_gateway/database.py:2436-2576 | ledger and trades after one append, and when it is ignored |
| FillLedger.FillTables.InsertTradeFromFill | apps/execution_gateway/database.py:2585-2703 | the trades table after the mirrored insert and the superseding of synthetic trades |
| FillLedger.MirroredIff | apps/execution_gateway/database.py:2599-2676 | a fill gets a trade if and only if its trimmed id is not empty and quantity and price are positive; an id that has a trade keeps it, and no other trade changes but in its superseded flag |
| FillLedger.StripTrims | apps/execution_gateway/database.py:2599-2602 | trimming drops the white space at both ends and nothing else |
| FillLedger.TradesShowTheFills | apps/execution_gateway/database.py:2533-2676 | after any clean appends every fill of an order has a trade of the same quantity, price, time, P&L and source, with the order's strategy, symbol and side |
| FillLedger.LedgerInvariant | apps/execution_gateway/database.py:2488-2560 | over all appends: fill ids stay unique, total_realized_pl is the sum over all fills ever appended, every synthetic fill that precedes a real one is superseded |
| FillLedger.TotalIsLivePlIff | apps/execution_gateway/database.py:2488-2560 | after any appends of fills not superseded on arrival, total_realized_pl is the P&L of the live fills if and only if the synthetic fills that a real one followed sum to zero |
| FillLedger.TotalStaysLivePl | apps/execution_gateway/reconciliation/helpers.py:97-108 | so the two never differ while synthetic fills carry no P&L, as reconciliation writes them |
| FillLedger.SupersededPlStaysInTotal | apps/execution_gateway/database.py:2488-2560 | a synthetic fill with P&L, once replaced, stays in the total |
| FillLedger.ReappendIsIgnored | apps/execution_gateway/database.py:2488-2576 | an id appended again, however much later, changes neither table |
| FillLedger.ReconciliationPatternsMeanReconInside | apps/execution_gateway/database.py:2692-2702 | the reconciliation patterns together match exactly the ids with recon strictly inside |
| FillLedger.TradesAgreeWithLedger | apps/execution_gateway/database.py:2533-2703 | the order's live trade ids equal its live fill ids after any appends if and only if no live real fill has recon strictly inside its id |
| FillLedger.OrderIdWithReconIsMistaken | apps/execution_gateway/database.py:2647-2703 | an order id containing recon is enough to break the agreement |
| SyntheticFills.CalculateSyntheticFill | apps/execution_gateway/reconciliation/helpers.py:20-108 | a synthetic fill is computed exactly when both sums fall short; its quantity is the gap, its price the broker's average, its time the one given, its P&L zero, its id made of order, path, broker quantity and gap |
| SyntheticFills.Reconciler.BackfillFillMetadata | apps/execution_gateway/reconciliation/fills.py:215-286 | both tables after one backfill, and when it reports a fill as injected |
| SyntheticFills.GapStaysOpenIff | apps/execution_gateway/reconciliation/helpers.py:94-99 | after any appends to an order, reconciliation leaves its gap open if and only if a fill with the very id it computes was appended to the order before |
| SyntheticFills.ReturningGapStaysOpen | apps/execution_gateway/reconciliation/helpers.py:94-99 | 3 shares, then 10, then a real fill of 3: the next pass over the broker's order computes the id it used before, and no pass on that path closes the gap of 7 |
| SyntheticFills.DatabasePassClosesTheGap | apps/execution_gateway/reconciliation/fills.py:295-365 | in the same run one pass over the database row, whose id is new, closes the gap |
| ActivityFills.ActivityBackfill.BackfillAlpacaFills | apps/execution_gateway/reconciliation/fills.py:113-168 | both tables after the activities were matched, grouped by order and appended, and how many were inserted and unmatched |
| ActivityFills.MatchedTellsActivities | apps/execution_gateway/reconciliation/fills.py:123-152 | the appends are exactly those of the listed activities of known orders, each with the activity's quantity, price, time and id, or a generated id when that is blank, and no P&L |
| ActivityFills.GroupingKeepsLedgers | apps/execution_gateway/reconciliation/fills.py:120-168 | grouping by order leaves every ledger as appending in the listed order would |
| ActivityFills.RealQtyIsBothSources | apps/execution_gateway/reconciliation/fills.py:136-168 | over every interleaving of webhook events whose reports are in order, activities and reconciliation on an order, the live real shares are those the webhook booked plus those of the activities, each id once |
| ActivityFills.SourcesAgreeIff | apps/execution_gateway/reconciliation/fills.py:136-168 | they are the broker's quantity if and only if the executions recorded by both sources weigh as much as those recorded by neither and the fraction the webhook drops |
| ActivityFills.EachRecordedOnceIff | apps/execution_gateway/reconciliation/fills.py:136-168 | with whole shares and nothing missed, if and only if no execution is recorded by both |
| ActivityFills.ExecutionIsLiveTwice | apps/execution_gateway/reconciliation/fills.py:142-151 | ten shares from the webhook and again from an activity are twenty live shares, and ten in the position |
| ActivityFills.OvercountStays | apps/execution_gateway/reconciliation/helpers.py:62-92 | no later event, activity or reconciliation takes an excess back |
| WebhookFills.OrderWebhook.HandleOrderWebhook | apps/execution_gateway/routes/webhooks.py:168-337 | the transaction's whole effect on row, position, metadata and trades |
| WebhookFills.DriftIsTheSumOfItsCauses | apps/execution_gateway/routes/webhooks.py:168-337 | over any events, booked shares minus the row's filled shares is exactly the sum of refused increments and of quantities raised without a fill |
| WebhookFills.PositionMatchesRecordsIff | apps/execution_gateway/routes/webhooks.py:286-311 | over all deliveries with repetitions of a set of events, the position is what the metadata fills imply if and only if no fill can be refused by an event that reports fewer whole shares |
| WebhookFills.NeverOvercountsIff | apps/execution_gateway/routes/webhooks.py:263-337 | under the same deliveries the position never exceeds the row if and only if the same condition holds |
| WebhookFills.BrokerHistoryIsBookedInFullIff | apps/execution_gateway/routes/webhooks.py:168-337 | for a broker history the position never exceeds the row, and equals it if and only if no status event reports more whole shares than every event before it |
| WebhookFills.RefusedFillIsBookedEachTime | apps/execution_gateway/routes/webhooks.py:266-296 | every redelivery of a fill whose row write is refused is booked again |
| WebhookFills.EarlyReportIsNeverBooked | apps/execution_gateway/routes/webhooks.py:194-205 | shares that a status event reports first are never booked, whatever follows until more is reported |
| WebhookRecords.HistoryMovesThePosition | apps/execution_gateway/routes/webhooks.py:234-296 | however a broker history is delivered, the position moves by exactly the whole shares by which each fill event exceeds all that was reported before it, each at that event's price |
| WebhookRecords.RecordsTellEvents | apps/execution_gateway/routes/webhooks.py:298-311 | whatever is delivered, each recorded fill is named after the shares one fill event reported and has that event's price and time |
| WebhookRecords.RealizedTotalIsThePositions | apps/execution_gateway/routes/webhooks.py:275-311 | while reports are in order, the order's realized total is what its fills moved the position's realized P&L by |
| OrderIds.RawTextIdentifiesTheOrder | apps/execution_gateway/order_id_generator.py:228-245 | two orders, neither of whose symbols swallows the other, are hashed from the same text if and only if all nine fields agree, prices to the cent; symbol and strategy may contain the separator |
| OrderIds.SymbolsCollideIff | apps/execution_gateway/order_id_generator.py:228-245 | two symbols have different orders with one text if and only if the longer is the shorter followed by the text of some order's next six fields, alone or followed by a separator |
| OrderIds.RequestTextIdentifiesTheOrder | apps/execution_gateway/schemas.py:156-162 | symbols that are upper-cased, as the request validators leave them, or free of the separator never collide |
| OrderIds.LowerCaseSymbolsCollide | apps/execution_gateway/order_id_generator.py:182-249 | two such symbols, written out, with two orders of one text |
| OrderIds.PriceTextReadsBack | apps/execution_gateway/order_id_generator.py:35-60 | two optional prices format alike if and only if they round to the same cent |
| OrderIds.PriceTextShows | apps/execution_gateway/order_id_generator.py:35-60 | a price is written as whole dollars, a point and two digits that make up its cents, and the cents are the nearest, halves upwards |
| OrderIds.TextIsTheFields | apps/execution_gateway/order_id_generator.py:130-141 | the nine fields in their documented order, and the words they use |
| TwapSlicer.DistributeQty | apps/execution_gateway/order_slicer.py:191-211 | the loop that adds one share at each sampled index conserves the quantity |
| TwapSlicer.TWAPSlicer.Plan | apps/execution_gateway/order_slicer.py:137-294 | which error, and otherwise a plan that is good: quantities sum, differ by at most one, respect the cap, times strictly increase and end within the duration; quantities are those of the seed text, ids those of the request and its trading day |
| TwapSlicer.RetryKeepsTheParentIff | apps/execution_gateway/order_slicer.py:213-230 | on another day the parent is hashed from the same text if and only if the request names its trading day |
| TwapSlicer.SeedNamesTheDayIff | apps/execution_gateway/order_slicer.py:196-202 | the seed of the quantities is the same for two trading days if and only if they are the same, and naming none is one of them |
| TwapSlicer.ParentTextsAgreeIff | apps/execution_gateway/order_slicer.py:213-230 | two requests hash their parents from one text if and only if they agree in symbol, side, quantity, prices to the cent, type, time in force, duration, spacing and day |
| TwapSlicer.SliceTextsAgreeIff | apps/execution_gateway/order_slicer.py:232-252 | two slices, of one plan or of two, are hashed from one text if and only if they agree in parent id, number, quantity and those fields |
| TwapSlicer.SliceCountIsLeast | apps/execution_gateway/order_slicer.py:147-157 | a count is enough for spacing and cap if and only if it is at least the planner's count |
| TwapSlicer.RefusedOnlyWhenNothingFits | apps/execution_gateway/order_slicer.py:137-185 | a request with its prices is planned if and only if some count meets spacing, cap, one share a slice and one second a gap |
| TwapSlicer.FailuresIff | apps/execution_gateway/order_slicer.py:137-185 | which error a request is refused with: an argument out of range, no count that the duration has room for, none that the shares suffice for, or a missing price |
| TwapSlicer.IntervalIsGood | apps/execution_gateway/order_slicer.py:159-189 | the interval is kept while it yields enough slices, otherwise it is the greatest that fits the duration, and never above the requested one |
| TwapSlicer.TextsOfAPlanAreDistinct | apps/execution_gateway/order_slicer.py:217-252 | for every symbol, no two orders of a plan, parent included, are hashed from the same text |
| TwapSlicer.TwapIsAcceptedIff | apps/execution_gateway/schemas.py:196-260 | what the schema accepts, by the numbers, without rounding: among them that some count of slices covers the duration with ten shares each |
| TwapSlicer.AcceptedTwapIsPlanned | apps/execution_gateway/schemas.py:172-260 | an accepted TWAP order is planned without error, in at least two slices of at least ten shares each |
| TwapSlicer.CappedTwapIsRefusedIff | apps/execution_gateway/schemas.py:196-246 | with a liquidity cap an accepted order is refused if and only if the cap needs more slices than the duration has seconds, plus one |
| TwapSlicer.CappedSlicingIsRefusedIff | apps/execution_gateway/schemas.py:1032-1051 | with a cap a validated slicing request is refused for its counts if and only if the cap needs more slices than the duration has seconds, plus one |
| TwapSlicer.CapKeepsMinimumIff | apps/execution_gateway/schemas.py:233-246 | under a cap every slice of an accepted order keeps the ten-share minimum if and only if as many slices as the cap alone requires would each have it |
| SliceExecution.SubmitOrder | apps/execution_gateway/alpaca_client.py:191-196 | at most three raw calls; the result is that of the last one, all before it lost the connection, and a connection error means three were made |
| SliceExecution.EverySubmissionIsGuarded | apps/execution_gateway/slice_scheduler.py:741-1173 | over every run: at most three submissions and nine raw calls a job, each after two uncanceled reads, a clear kill switch and a clear breaker in its own attempt; only the last can have returned normally |
| SliceEndings.SubmissionIsRecorded | apps/execution_gateway/slice_scheduler.py:1014-1052 | whatever else happens in between: after the broker took the order and at most two confirmations failed, the row shows submitted, the broker's id, no error and no terminal flag, unless it refuses the write, and then it is untouched |
| SliceEndings.UnconfirmedIsRecorded | apps/execution_gateway/slice_scheduler.py:1072-1099 | after three failed confirmations it shows submitted_unconfirmed and the id |
| SliceEndings.RefusalIsRecorded | apps/execution_gateway/slice_scheduler.py:1135-1144 | a refused order is rejected, for good |
| SliceEndings.ThirdLossIsRecorded | apps/execution_gateway/slice_scheduler.py:711-728 | a third lost connection is failed, for good |
| SliceEndings.LostConnectionStartsOver | apps/execution_gateway/slice_scheduler.py:741-746 | an earlier one starts the job over, an unexpected error ends it, and neither touches a row |
| SliceEndings.DryRunIsRecorded | apps/execution_gateway/slice_scheduler.py:988-1013 | without a broker the slice is a dry run |
| SliceEndings.ChecksAreRecorded | apps/execution_gateway/slice_scheduler.py:798-910 | an engaged kill switch, a tripped breaker and a failing database or Redis each leave their own status |
| SliceEndings.ChecksGoOn | apps/execution_gateway/slice_scheduler.py:798-985 | a clear check leads to the next one and on to the submission, a canceled row to the end |
| SliceEndings.HealthySliceIsSubmitted | apps/execution_gateway/slice_scheduler.py:798-1052 | from its firing to its end: with everything clear and a broker that takes the order, the row shows the submission |
| SliceEndings.WritesTellTheTruth | apps/execution_gateway/slice_scheduler.py:798-1173 | over every run: when a job changes a row, its log tells the new status; an order the broker took is never recorded as anything but submitted, under its own id, and nothing else is |
| SliceExecution.CanceledSliceStops | apps/execution_gateway/slice_scheduler.py:798-1173 | over every run after a cancel committed on a pending slice, while no other writer turns canceled into something else, nothing more is submitted, except at most once by a job already past its second read, even after its own blocked or failed write replaced canceled |
| SliceExecution.CanStillSubmitIff | apps/execution_gateway/slice_scheduler.py:798-1018 | from any state, some such continuation submits if and only if the job is past its second read, or has checks left to make and its row is not canceled |
| SliceExecution.WebhookReopensACanceledSlice | apps/execution_gateway/slice_scheduler.py:1202-1217 | a run in which a lost response, a cancel and then a webhook that reopens the row let the retry submit again |
| SharedSlice.SliceCanStillSubmitIff | apps/execution_gateway/slice_scheduler.py:798-1173 | from any state of a slice with any number of jobs, some continuation without a new job or a writer that reopens it submits if and only if one job can still submit by itself, or the row is canceled but not locked, one job still has a write to make and another still has checks to make |
| SharedSlice.SecondJobDefeatsTheCancel | apps/execution_gateway/slice_scheduler.py:597-622 | one job making its checks and one waiting when the cancel commits: the first records a failure and the second submits |
| ZombieRecovery.SliceScheduler.CancelRemainingSlices | apps/execution_gateway/slice_scheduler.py:1175-1234 | pending rows canceled, exactly the parent's jobs removed, both counts; none of either is left |
| ZombieRecovery.SliceScheduler.RecoverSlice | apps/execution_gateway/slice_scheduler.py:376-622 | one slice of the loop: the row, the job store and the category it is counted under |
| ZombieRecovery.SliceScheduler.RecoverZombieSlices | apps/execution_gateway/slice_scheduler.py:329-666 | the whole table, job store and counts after a pass, for every order the query returns |
| ZombieRecovery.SliceScheduler.ExpireParents | apps/execution_gateway/slice_scheduler.py:637-660 | the second loop, for every order of the set |
| ZombieRecovery.CountsAddUp | apps/execution_gateway/slice_scheduler.py:366-374 | pending = scheduled + blocked + failed + canceled + expired + skipped |
| RecoveryOutcomes.RowOfEachSlice | apps/execution_gateway/slice_scheduler.py:376-595 | the row of every pending slice after the pass, from its parent, its age, the breaker, its columns and the clock: failed with which reason, canceled, expired, blocked, given which time to run, or untouched |
| RecoveryOutcomes.StatusOfEachSliceIff | apps/execution_gateway/slice_scheduler.py:376-595 | each status a pending slice can end in, if and only if which of these hold and the row takes the write |
| RecoveryOutcomes.JobOfEachSliceIff | apps/execution_gateway/slice_scheduler.py:597-622 | a numbered slice has a job after the pass if and only if it had one or nothing stands in its way, and a new job runs it at its own time, now, or at the next opening |
| RecoveryOutcomes.CountersOfEachSlice | apps/execution_gateway/slice_scheduler.py:366-622 | each counter is the number of slices found in its state |
| RecoveryOutcomes.ParentsCounted | apps/execution_gateway/slice_scheduler.py:637-660 | and the parents expired are those with a stale slice in this pass and no child left with is_terminal FALSE |
| RecoveryOutcomes.RowOfEachParent | apps/execution_gateway/slice_scheduler.py:637-660 | a parent's row either stays or is expired for good, with nothing else changed |
| RecoveryOutcomes.ReasonTexts | apps/execution_gateway/slice_scheduler.py:382-572 | the error message of each reason |
| ZombieRecovery.AddedJobsAreSafe | apps/execution_gateway/slice_scheduler.py:433-622 | an added job matches its row's scheduled time, belongs to a still pending slice of a recoverable parent, is the slice's only one, and runs before now only if the clock's next opening is in the past |
| ZombieRecovery.ExistingJobKeepsItsTime | apps/execution_gateway/slice_scheduler.py:581-602 | a slice that has a job keeps the job's time; its row still shows that time after the pass if and only if the slice was not overdue, or did not reach the scheduling step, or the market is closed and opens next at that very time or at none known |
| ZombieRecovery.TimesAgreeAfterPassIff | apps/execution_gateway/slice_scheduler.py:347-622 | a pass keeps all rows and jobs in agreement if and only if it overtakes no slice that has a job |
| ZombieRecovery.ParentExpiresIff | apps/execution_gateway/slice_scheduler.py:637-660 | a parent's row changes if and only if a child was found stale in this pass, no child is left with is_terminal FALSE and the write is accepted |
| ZombieRecovery.CanceledChildKeepsParentAlive | apps/execution_gateway/database.py:1064-1135 | a child canceled by cancel_pending_slices blocks that |
| ZombieRecovery.SecondPassChangesNothingIff | apps/execution_gateway/slice_scheduler.py:347-666 | a second pass adds no job, and changes no row if and only if the first moved no slice to an opening that is already stale |
| ZombieRecovery.SecondPassChangesNothing | apps/execution_gateway/slice_scheduler.py:515-579 | recovery is idempotent when the clock's next opening is not in the past |
| OrderPaging.GetOrders | apps/execution_gateway/alpaca_client.py:541-645 | terminates on every finite list with ties, returns no duplicate, keeps the order, and returns everything after the cursor if and only if no tie crosses a page boundary (exclusive bound) or no tie exceeds a page (inclusive bound); an order that is lost ties with a returned one |
| OrderPaging.AddNew | apps/execution_gateway/alpaca_client.py:584-626 | the inner loop appends exactly the orders not seen before |
| OrderPaging.DistinctTimesAreComplete | apps/execution_gateway/alpaca_client.py:550-553 | with distinct creation times every limit returns everything |
| OrderPaging.TiesCanBeLost | apps/execution_gateway/alpaca_client.py:550-553 | two tied orders are enough to lose one |
| ComponentRecovery.Component.Recover | apps/execution_gateway/recovery_manager.py:355-503 | instance, flag and last check after one recovery; true if and only if an instance is present or the factory gives one and its check passes, and then it is available and checked |
| ComponentRecovery.ComesBackIff | apps/execution_gateway/recovery_manager.py:355-503 | a component that needs recovery ends available and checked if and only if an instance is present or the factory gives one and its check passes |
| ComponentRecovery.Component.Initialize | apps/execution_gateway/recovery_manager.py:610-805 | the same for initialisation: which instance is kept, when the flag is cleared and when an error passes through |
| ComponentRecovery.RecoveryManager.AttemptRecovery | apps/execution_gateway/recovery_manager.py:249-353 | from any instances and flags: each component is recovered as its own call says, up to the first uncaught error; all_recovered if and only if each was available or can be restored; each result, the scheduler's included, if and only if which conditions; the scheduler is touched only while kill switch and breaker are available, and components that fail closed still do |
| ComponentRecovery.EveryRunFailsClosed | apps/execution_gateway/recovery_manager.py:355-805 | over any initialise, recover and mark-unavailable calls with failing factories and checks, a cleared flag means a present instance whose last check passed |
| ComponentRecovery.TrustedThroughoutIff | apps/execution_gateway/recovery_manager.py:112-185 | over any calls, setters of instance and flag included, an available component passed its last check after every call if and only if no call recovers a cleared instance with an uncaught error under a clear flag, installs an unchecked instance under a clear flag, or clears the flag over one |
| ComponentRecovery.UncheckedInstances | apps/execution_gateway/recovery_manager.py:112-185 | a run of each of the three kinds |

## Left out

- `update_order_status` and `update_order_status_simple_with_conn` bypass the guard; the run theorems are about compare-and-set writes. In `SliceExecution` another writer may set a row to anything.
- Decimal rounding: quotients are exact reals here, while the Python context rounds averages and the database column rounds again.
- `math.ceil` of a float quotient in planner and validators is modelled as the exact ceiling; they agree below 2^53.
- SHA-256 is a parameter: order ids are distinct as far as the hash does not collide on distinct texts.
- Upper-casing and stripping of symbols beyond ASCII letters.
- SliceExecution.CanceledSliceStops: promises nothing once another writer turns the canceled row into something else; `CanStillSubmitIff` says from which states the job can then submit.
- The text of an infrastructure error, of a refusal and of the kill switch's own message is a parameter in `SliceExecution`.
- SliceExecution.EverySubmissionIsGuarded: bounds each job; a slice with several jobs has the bound for each. It does not say that broker and row agree after a lost response; a retried duplicate may be recorded as rejected.
- ZombieRecovery.SliceScheduler.RecoverZombieSlices: assumes the calls of the pass succeed; an exception leaves the rows handled so far, and a parent whose stale child was handled before it is then no longer looked at. The wording of the expiry message omits its threshold.
- Job ids are pairs of parent and slice number; the prefix match on their text, the thread pool, the misfire window and the limit of one running instance per job id of the job library are not part of this model. A job may be dropped at any time before it fires.
- Retry waiting times.
- SyntheticFills.Reconciler.BackfillFillMetadata: reads the locked row; the optional cached copy of the order, which may be older, is not modelled. How a fractional quantity is written as text is a parameter, and a whole one is written without decimals.
- ActivityFills.ActivityBackfill.BackfillAlpacaFills: starts from the listed activities; the paging over them, the high-water mark and the rollback when the recalculation of `TradeReplay` that follows fails are not modelled.
- ActivityFills.RealQtyIsBothSources: takes activity ids to differ from the ids the webhook and reconciliation make for the order.
- WebhookFills.OrderWebhook.HandleOrderWebhook: parsing of payload, timestamps and prices; the position is that of one order's symbol between other orders' fills.
- OrderPaging.GetOrders: the broker's list does not change between pages, and every order has a creation time.
- ComponentRecovery.RecoveryManager.AttemptRecovery: calls do not overlap; a flag set by another thread between a passing check and the clearing of the flag would be lost.
- The kill switch and breaker are booleans; their Redis state machines, position reservations and the liquidity service are not part of this model.
- Signature checks, connection pooling, HTTP routes, logging, metrics and configuration.
- The read-only queries and position synchronisation would add branch readings only.
