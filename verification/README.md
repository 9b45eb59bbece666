# Bond trading: verified model

A Dafny model of the parts of the bond-trading service that keep a customer's Google Sheet up to
date, calculate yields, hold accounts and import portfolios, with proofs of what these parts
promise. `dafny verify dfyconfig.toml` checks the whole project.

## What is modelled

**The job queue** (`SyncQueue*.dfy`, `SheetQueue.dfy`). `SyncQueue` is a state machine over jobs,
connections, a clock and W worker slots; every committed transaction is one step. Manual requests,
events of other services and the scheduler produce jobs, workers claim them with skip-locked,
failures are retried with a doubling pause, and a worker can crash at any point while it holds a
job. `SheetQueue.Queue` is the imperative form over mutable tables; each committed call is proved to
be a step, and one worker pass a run of steps, so the theorems about runs hold of any interleaving
of passes. `SyncQueueSchedule` says what the scheduler and the retries do in the fields of the records.

**The synchronisation pass** (`Sheet*.dfy`, `GoogleRead.dfy`, `GoogleSync.dfy`). A sheet is a map from
(row, column number) to a value. `SheetSync` gives the cells of every row on its own, asking the exchange afresh
for each. `SheetSyncPass.Execute` runs the pass as the service does: it reads, filters, refreshes
each ISIN once, keeps a table of historical answers, and writes one batch. It is proved to write the
same batch. `SheetSyncRows`, `SheetSyncMarket`, `SheetSyncInputs` and `SheetSyncBatch` say what the rows
and the sheet then show, in terms of the quotes and the input cells, `SheetSyncReport` what is reported,
`SheetSyncConvergence`, `SheetSyncSecondPass` and `SheetSyncOnePass` what repeated passes do.

**Both together** (`SyncSystem.dfy`, `SyncOverlap.dfy`). A system of the queue and the sheets: while a
worker runs a job it reads the sheet and later writes its batch, and other workers, the scheduler and
users who edit the sheet take steps in between.

**Calculations** (`YieldEngine.dfy`, `YieldMeaning.dfy`, `YieldLaws.dfy`, `SheetCalculations.dfy`,
`Rounding.dfy`). The cash-flow loop, purchase cost, tax and annual yields on exact reals, the stored calendar of an
instrument, the two independent coupon computations, and rounding to hundredths, halves to even.

**Codecs and checks** (`Columns.dfy`, `Isin.dfy`, `Text.dfy`, `Cells.dfy`). Column names in bijective
base 26, and ISINs of ISO 6166 with the Luhn check digit of Annex B of ISO/IEC 7812-1.

**Accounts** (`Accounts.dfy`, `AccountSafety.dfy`, `AccountLogin.dfy`, `AccountService.dfy`). Users and
login sessions, with creation, login, logout, password change, disabling and the bootstrap accounts.

**Imports** (`SpreadsheetReader.dfy`, `PreviewRoundTrip.dfy`, `Imports.dfy`). Reading a block of rows from a loaded
spreadsheet and committing the preview.

## What the proofs found

- `docs/google-sheets.md` says that events are merged while a job is queued. A connection can still
  come to have two QUEUED jobs, exactly if there is a worker and a job may be tried more than once
  (`TwoQueuedJobsIff`); the step that does it is a failed attempt that is queued again beside a
  follow-up (`SecondQueuedJobOnlyByRetry`). The true bounds are W + 1 active jobs, which is reached,
  and one QUEUED job that was never tried (`QueueBound`, `QueueBoundIsTight`).
- The same page promises exactly one following run for the events that arrive during a running pass.
  That holds as long as no job of the connection is claimed and no failed one is queued again
  (`EventsCoalesce`). A retry ends it without any claim: the next event is then answered with the
  older, retried job (`RetryEndsMerging`). No event is lost in either case (`NoEventLost`).
- Once a job that answered an event has succeeded, the sheet shows the results of a reading no older
  than the event, in every run in which no two workers are between the reading and the writing of one
  sheet at the same time (`ResultsFollowEvents`), and in every run at all exactly with at most one
  worker (`ResultsFollowEventsIff`). Two workers can run passes of one connection at the same time. The
  slower one then overwrites newer results with older ones: a price of a bond that a user has just
  entered is shown, its job has succeeded, and afterwards the price is blank, although the exchange
  gives the same answers throughout (`OlderResultsWrittenLast`).
- `docs/google-sheets.md` says that a filled J or L is never replaced. That holds for what the pass has
  read (`InputsKept`). A J or L that a user fills between the reading and the writing is kept exactly
  if the pass does not fill that cell (`LateEntryKeptIff`).
- The recorded time of the last attempt can lie before the creation of a finished job, because the
  slower of two sessions writes its older value last. It cannot exactly with at most one worker
  (`AttemptsRecordedIff`); scheduled jobs are spaced in any case (`ScheduledJobsSpaced`).
- There is no lease: a job whose worker crashed stays RUNNING and the scheduler never adds another
  job for its connection (`OrphanForever`).
- A second pass can change results that the first one wrote, because the first calculates with the
  exact historical accrued interest and the second with the rounded one it filled into J. One pass is
  enough for every sheet exactly when no answer of the exchange is sensitive to that rounding
  (`OnePassSufficesIff`); a third pass never changes anything (`ThirdPassChangesNothing`).
- Rows with an invalid ISIN keep their earlier results, and without a status column they are not
  marked at all (`RejectedRowKeepsResults`).
- The coupon totals of the sheet and of the engine agree exactly if no paid coupon of a positive
  amount is repeated, and their counts exactly if no two different paid coupons fall on one day
  (`CouponComputationsAgreeIff`). A calendar collected by `InstrumentCashflows` meets both
  conditions, so the sheet never shows the difference.
- The optional amounts of an imported row are not checked: a negative redemption price, sale
  commission or planned yield is accepted (`OptionalAmountsAreFree`, `OptionalAmountsNotNegativeIff`).
- A higher bid or redemption can lose an existing result, exactly if a flat tax rate outside [0, 1]
  meets the gain (`CurrentResultKept`, `PlannedResultKept`).

## Model

| member | source | states |
|---|---|---|
| SyncQueueRuns.NoEventLost | src/bond_trading/application/services/sheets.py:132-155 | after any enqueue is answered with a job, in every later state of every run that job waits or was started after the event; if it succeeded, the sheet was read after the event |
| SyncQueueRuns.EventsCoalesce | src/bond_trading/application/services/sheets.py:398-427 | from a state with at most one queued job, whatever workers and the scheduler do, running passes included, all events of a connection are answered with one and the same job, the only QUEUED one, as long as no job of the connection is claimed and no failed one is queued again |
| SyncQueueRuns.RetryEndsMerging | src/bond_trading/application/services/sheets.py:493-512 | for every number of workers from one on and every limit from two on, a run in which two events during one pass are answered with two jobs, because the failed job is queued again in between |
| SyncQueueRuns.QueueBound | src/bond_trading/application/services/sheets.py:430-512 | over all runs with W workers a connection has at most W + 1 active jobs plus one per crash, and at most one QUEUED job that was never tried |
| SyncQueueDrain.QueueBoundIsTight | src/bond_trading/application/services/sheets.py:136-155 | for every W a run without crashes reaches W + 1 active jobs |
| SyncQueueRuns.SecondQueuedJobOnlyByRetry | src/bond_trading/application/services/sheets.py:505-507 | a step makes two QUEUED jobs out of at most one exactly if it is a retry that meets a queued follow-up |
| SyncQueueRuns.TwoQueuedJobsIff | src/bond_trading/application/services/sheets.py:484-507 | some run leads to two QUEUED jobs of one connection exactly if there is a worker and a job may be tried more than once |
| SyncQueueInvariants.ReachableInv | src/bond_trading/application/services/sheets.py:468-512 | in every reachable state attempts, timestamps and status of each job agree (QUEUED below the limit, FAILED at it, completed iff terminal), and each busy worker holds a RUNNING job alone |
| SyncQueueRuns.TerminalForever | src/bond_trading/application/services/sheets.py:372-374 | a succeeded or failed job never changes again |
| SyncQueueRuns.OrphanForever | src/bond_trading/application/services/sheets.py:444-453 | a job whose worker crashed stays RUNNING in every later state, and its connection gets no scheduled job any more |
| SyncQueueTiming.ScheduledJobsSpaced | src/bond_trading/application/services/sheets.py:430-465 | when the scheduler adds a job, every earlier scheduled job of the connection is at least the interval older |
| SyncQueueTiming.AttemptsRecordedIff | src/bond_trading/application/services/sheets.py:193-193 | in every run the last attempt of a connection is no older than its finished jobs, exactly if there is at most one worker |
| SyncQueueTiming.SlowerWorkerWritesLast | src/bond_trading/application/services/sheets.py:193-193 | for every number of workers from two on, every limit and every start, a run after which a connection has a succeeded job that was created after the last attempt recorded for it |
| SyncQueueTiming.ClaimsBackOff | src/bond_trading/application/services/sheets.py:473-487 | in every run the claim after the k-th one of a job comes at least 2^k seconds later |
| SyncQueueTiming.RetryBackoff | src/bond_trading/application/services/sheets.py:505-510 | the n-th claim comes at least 2^n - 2 seconds after the first, and there are at most the permitted number of claims |
| SyncQueueDrain.RemainingStep | src/bond_trading/application/services/sheets.py:484-512 | the remaining work of all jobs falls with every claim and finish and with nothing else |
| SyncQueueDrain.DrainBound | src/bond_trading/application/services/sheets.py:468-512 | while no job is added, claims and finishes never exceed the remaining work |
| SyncQueueDrain.Drains | src/bond_trading/workers/sheet_sync.py:41-76 | from every state without orphaned jobs a run empties the queue |
| SyncQueueSchedule.DueMeaning | src/bond_trading/application/services/sheets.py:430-455 | the scheduler adds a job exactly for connections that are enabled, have no QUEUED or RUNNING job, and were last attempted, or else created, at least the interval ago |
| SyncQueueSchedule.DisabledOnlyManual | src/bond_trading/application/services/sheets.py:132-135 | over every run in which nobody enables a connection again, a disabled connection gets no job but manual ones |
| SyncQueueSchedule.SettingsInForce | src/bond_trading/application/services/sheets.py:84-119 | in every run the switch and the interval of a connection are those of its last configuration, and its creation time stays |
| SyncQueueSchedule.NewJobWaits | src/bond_trading/application/services/sheets.py:146-155 | a new job carries the trigger of its event and can be claimed at once and until somebody claims it, in every run |
| SyncQueueSchedule.RetryWaits | src/bond_trading/application/services/sheets.py:505-510 | after a failure below the limit the job can be claimed exactly from 2^attempts seconds later on; at the limit it has failed for good |
| SyncQueueSchedule.SuccessStays | src/bond_trading/application/services/sheets.py:371-374 | a job that succeeded keeps its record and the time of the success in every run |
| SyncSystem.ResultsFollowEvents | src/bond_trading/application/services/sheets.py:183-384 | with any number of workers, in every run in which no two of them are between the reading and the writing of one sheet at the same time: once a job that answered an event has succeeded, its sheet shows row by row the results of one reading no older than the event, whatever users edit |
| SyncSystem.OneWorkerApartAlong | src/bond_trading/workers/sheet_sync.py:35-76 | with at most one worker every run is of this kind |
| SyncOverlap.OlderResultsWrittenLast | src/bond_trading/workers/sheet_sync.py:41-76 | for every number of workers from two on and all sheets, a state in which the job of an event has succeeded and the sheet shows the results of the only reading made after the event, and one write of a slower worker later a state in which it does not show them; a price has been cleared, although the exchange gives the same answers throughout |
| SyncOverlap.ResultsFollowEventsIff | src/bond_trading/application/services/sheets.py:468-490 | in every run each sheet shows the results of some reading no older than each event answered by a succeeded job, exactly with at most one worker |
| SyncSystem.InvRun | src/bond_trading/application/services/sheets.py:183-384 | over every run with any number of workers, edits included, each written sheet shows exactly the results of the reading behind its latest batch, and every answered event still has a job that serves it |
| SheetQueue.Queue.Enqueue | src/bond_trading/application/services/sheets.py:132-155 | fails exactly without a connection or when automatic sync is off for a non-manual request; otherwise is one enqueue step, answered with the oldest queued job, or with a new one of this trigger if there is none |
| SheetQueue.Queue.EnqueueEvent | src/bond_trading/application/services/sheets.py:398-427 | silent exactly for a missing or disabled connection, otherwise one enqueue step |
| SheetQueue.Queue.EnqueueDue | src/bond_trading/application/services/sheets.py:430-465 | adds one new scheduled job for each connection that is enabled, has no QUEUED or RUNNING job and was last attempted, or created, at least its interval ago, and changes nothing else; the steps form a run |
| SheetQueue.Queue.ClaimNext | src/bond_trading/application/services/sheets.py:468-490 | claims the oldest due job that is not locked, and none exactly if all due jobs are locked |
| SheetQueue.Queue.RecordFailure | src/bond_trading/application/services/sheets.py:493-512 | is the failure step: queued again with a pause of 2^attempts seconds below the limit, failed at the limit |
| SheetQueue.Queue.RecordSuccess | src/bond_trading/application/services/sheets.py:372-384 | is the success step, which also makes a noted attempt visible |
| SheetQueue.Queue.BeginAttempt | src/bond_trading/application/services/sheets.py:193-193 | notes the attempt in the worker's session only |
| SheetQueue.Queue.FlushAttempt | src/bond_trading/infrastructure/db/session.py:25-25 | the noted attempt reaches the database at the next commit of that session |
| SheetQueue.Queue.ExecuteClaimed | src/bond_trading/workers/sheet_sync.py:47-56 | however the pass ends, the worker's steps form a run that ends in success or failure and leaves the worker idle |
| SheetQueue.Queue.ProcessOneJob | src/bond_trading/workers/sheet_sync.py:35-76 | one worker pass is a run of the state machine: schedule, claim, execute, record |
| Columns.ColumnNumber | src/bond_trading/infrastructure/google_sheets/ranges.py:33-37 | the loop computes the number of a name |
| Columns.ColumnName | src/bond_trading/infrastructure/google_sheets/ranges.py:40-48 | the loop computes the name of a number, and fails exactly outside 1 to 16384 |
| Columns.NumberOfName | src/bond_trading/infrastructure/google_sheets/ranges.py:40-48 | the number of the name of n is n |
| Columns.NameOfNumber | src/bond_trading/infrastructure/google_sheets/ranges.py:33-37 | the name of the number of an upper-case string is that string |
| Columns.OrderIsShortlex | src/bond_trading/infrastructure/google_sheets/ranges.py:33-37 | numbers order names by length first and then alphabetically |
| Columns.NormalizeAcceptsExactlyTheNames | src/bond_trading/infrastructure/google_sheets/ranges.py:18-26 | after trimming and upper-casing exactly the names of 1 to 16384 are accepted, unchanged |
| Columns.NormalizeIdempotent | src/bond_trading/infrastructure/google_sheets/ranges.py:18-26 | normalising twice is normalising once |
| Text.StripMeaning | src/bond_trading/infrastructure/google_sheets/ranges.py:18-21 | trimming removes all white space at both ends and nothing else |
| Text.StripAround | src/bond_trading/infrastructure/google_sheets/ranges.py:18-21 | white space around a text does not matter |
| Isin.ValidCheckDigit | src/bond_trading/domain/value_objects/isin.py:21-32 | the loop from the right with the toggled doubling decides the Luhn total of the expanded text |
| Isin.LuhnPairs | src/bond_trading/domain/value_objects/isin.py:25-31 | from the right, digits count alternately as they are and with the digit sum of their double, the check digit as it is |
| Isin.ExpandedText | src/bond_trading/domain/value_objects/isin.py:22-22 | letters count from 10 for A to 35 for Z, with both digits |
| Isin.KnownIsin | src/bond_trading/domain/value_objects/isin.py:21-32 | the identifier RU000A107SX3 is accepted |
| Isin.NormalizeIsinFixed | src/bond_trading/domain/value_objects/isin.py:8-11 | a normalised ISIN is valid and normalises to itself |
| Isin.ExactlyOneCheckDigit | src/bond_trading/domain/value_objects/isin.py:21-32 | every eleven-character body has exactly one accepted last digit |
| Isin.SingleDigitErrorDetected | src/bond_trading/domain/value_objects/isin.py:21-32 | replacing any one digit by another digit is always rejected |
| Isin.AdjacentSwapDetected | src/bond_trading/domain/value_objects/isin.py:21-32 | swapping adjacent different digits is accepted exactly for 0 and 9, wherever letters shift the parity |
| YieldEngine.ComputeCashflowTotals | src/bond_trading/domain/calculations/engine.py:111-133 | the loop computes quantity times the sum over the set of distinct flows in the window, and fails on any negative amount |
| YieldEngine.TotalsIgnoreOrderAndCopies | src/bond_trading/domain/calculations/engine.py:111-133 | order and repetition of flows change nothing |
| YieldEngine.TotalsAdditive | src/bond_trading/domain/calculations/engine.py:111-133 | the totals of consecutive windows add up to those of the whole window |
| YieldEngine.WindowEnds | src/bond_trading/domain/calculations/engine.py:122-123 | a flow on the day of purchase is not received, one on the day of exit is, and each under its own kind only |
| YieldEngine.ComputePlannedYield | src/bond_trading/domain/calculations/engine.py:51-75 | the planned calculation equals the specification that YieldMeaning.PlannedMeaning and PlannedFault explain, errors included |
| YieldEngine.ComputeCurrentYield | src/bond_trading/domain/calculations/engine.py:78-108 | the current calculation equals the specification that YieldMeaning.CurrentYieldMeaning and CurrentFault explain, errors included |
| YieldMeaning.PlannedMeaning | src/bond_trading/domain/calculations/engine.py:51-75 | the planned result exists exactly if no amount is negative, the purchase cost something and lies before the target, and the tax rate fits the gain; every bond brings its redemption and all distinct coupons and amortizations until the target less the sale commission, and profits, tax and both yields follow from that and the cost |
| YieldMeaning.CurrentYieldMeaning | src/bond_trading/domain/calculations/engine.py:78-108 | the same for the current result, with the quote and the accrued interest instead of the redemption |
| YieldMeaning.PlannedFault | src/bond_trading/domain/calculations/engine.py:51-57 | which error a refused planned calculation reports: the first thing wrong, in the order of the checks |
| YieldMeaning.CurrentFault | src/bond_trading/domain/calculations/engine.py:78-85 | which error a refused current calculation reports |
| YieldLaws.CurrentYieldIgnoresQuantity | src/bond_trading/domain/calculations/engine.py:78-108 | k times as many bonds give the same annual yields, or the same error |
| YieldLaws.PlannedYieldIgnoresQuantity | src/bond_trading/domain/calculations/engine.py:51-75 | the same for the planned scenario |
| YieldLaws.CurrentYieldMonotone | src/bond_trading/domain/calculations/engine.py:78-170 | a higher bid or current accrued interest never lowers a yield |
| YieldLaws.PlannedYieldMonotone | src/bond_trading/domain/calculations/engine.py:51-170 | a higher redemption price never lowers a yield |
| YieldLaws.CurrentResultKept | src/bond_trading/domain/calculations/engine.py:78-170 | a higher bid or current accrued interest keeps an existing result exactly if the tax on the new gain is not refused, that is unless the gain is positive under a flat rate outside [0, 1] |
| YieldLaws.PlannedResultKept | src/bond_trading/domain/calculations/engine.py:51-170 | the same for a higher redemption price |
| YieldLaws.TaxKeepsSign | src/bond_trading/domain/calculations/tax.py:7-16 | tax never raises a profit, never touches a loss and never turns a gain into a loss |
| YieldLaws.TaxOnYields | src/bond_trading/domain/calculations/engine.py:136-170 | in every tax mode the yield after tax is at most the one before and keeps its sign, except that a flat rate of one takes all of a gain |
| Rounding.MoneyIsNearest | src/bond_trading/application/services/sheets.py:626-631 | rounding chooses a nearest hundredth, and the even one of two |
| Rounding.MoneyFixes | src/bond_trading/application/services/sheets.py:626-631 | rounding leaves exactly the whole hundredths alone and is idempotent |
| Rounding.MoneyMonotone | src/bond_trading/application/services/sheets.py:626-631 | rounding keeps the order |
| SheetCalculations.LabelTellsCalculated | src/bond_trading/application/services/sheets.py:598-612 | no other outcome of a row is labelled as calculated |
| SheetCalculations.InstrumentCashflows | src/bond_trading/application/services/sheets.py:515-540 | the loop yields one flow for each type and date that has an amount, in calendar order, each with the first amount given |
| SheetCalculations.FlowsAreLatest | src/bond_trading/application/services/sheets.py:519-527 | with actions ordered newest first, every flow carries the newest amount stored for it |
| SheetCalculations.RankFollowsNames | src/bond_trading/application/services/sheets.py:540-540 | flows of one day are ordered as the stored names of their types are |
| SheetCalculations.SummaryMeaning | src/bond_trading/application/services/sheet_calculations.py:70-86 | on distinct flows the summary counts the paid coupons and sums their money |
| SheetCalculations.CouponComputationsAgree | src/bond_trading/application/services/sheet_calculations.py:70-86 | on a collected calendar without negative amounts the summary equals the engine's count and total |
| SheetCalculations.CouponComputationsAgreeIff | src/bond_trading/domain/calculations/engine.py:119-133 | on any list without negative amounts the two totals agree exactly if no paid coupon of a positive amount is repeated, and the counts exactly if no two different paid coupons share a day; a collected calendar meets both |
| SheetCalculations.SheetPurchaseTotal | src/bond_trading/application/services/sheet_calculations.py:137-148 | the purchase total of a row is exactly I times H plus J times H plus L |
| SheetCalculations.CurrentMeaning | src/bond_trading/application/services/sheet_calculations.py:129-175 | a row is calculable exactly if no amount is negative and a purchase with a cost lies before the valuation; its figures are then those of an independent definition over the set of paid flows |
| SheetGateway.ReadRows | src/bond_trading/infrastructure/google_sheets/client.py:314-342 | the rows read are those with a requested cell, in increasing order, with exactly the requested cells |
| SheetGateway.ReadingUnique | src/bond_trading/infrastructure/google_sheets/client.py:314-342 | a sheet has only one such reading |
| SheetGateway.BatchOrderIrrelevant | src/bond_trading/infrastructure/google_sheets/client.py:344-360 | a batch that writes no cell twice gives the same sheet in any order |
| SheetGateway.BatchIdempotent | src/bond_trading/infrastructure/google_sheets/client.py:344-360 | such a batch changes nothing when written again |
| SheetGateway.ReadingExists | src/bond_trading/infrastructure/google_sheets/client.py:314-342 | every sheet has such a reading |
| GoogleRead.GoogleReadRows | src/bond_trading/infrastructure/google_sheets/client.py:102-141 | the range from the least to the greatest column and the offset of each column in it pick exactly the requested cells of the rows that hold something |
| GoogleRead.GatewaysAgree | src/bond_trading/infrastructure/google_sheets/client.py:109-141 | the real and the in-memory gateway read the same cells, and the rows only one of them returns are blank |
| GoogleSync.GatewaysGiveTheSameBatch | src/bond_trading/application/services/sheets.py:195-201 | a pass over the rows of the real gateway writes the same batch as one over the in-memory reading of the same sheet |
| SheetConnection.ReservedByNumber | src/bond_trading/application/services/sheets.py:106-107 | a name is reserved exactly if its number is an input or calculation column |
| SheetConnection.ConfigureAcceptsExactlyTheValid | src/bond_trading/application/services/sheets.py:84-113 | normalised names are accepted exactly if the worksheet has a name and the four columns are distinct and outside the fixed ones |
| SheetConnection.ColumnsInPlace | src/bond_trading/application/services/sheets.py:86-94 | an accepted connection keeps each of the four columns in its own place |
| SheetConnection.ConfigureErrors | src/bond_trading/application/services/sheets.py:95-113 | which error a refused connection reports |
| SheetSyncRows.RowCellsFresh | src/bond_trading/application/services/sheets.py:242-353 | on every branch a row sets the own columns of the connection and all of AD to AL, adds L exactly if it was blank and J exactly if the history answered for a blank one, and nothing else; results are complete or blank |
| SheetSyncRows.CalculatedRowMeaning | src/bond_trading/application/services/sheets.py:298-353 | a row reads as calculated exactly if it was refreshed, its purchase can be read, the chosen side and the accrued interest are quoted and the figures exist; it then shows the reference figures, rounded |
| SheetSyncRows.FailedRowFresh | src/bond_trading/application/services/sheets.py:602-616 | a row whose refresh failed has its price and all results cleared |
| SheetSyncMarket.PriceShown | src/bond_trading/application/services/sheets.py:543-564 | the price cell in each of the six modes, in the fields of the quotes: the percent, clean or full price of that side, and blank exactly if a quote it needs is missing |
| SheetSyncMarket.MarketStateShown | src/bond_trading/application/services/sheets.py:247-258 | AD shows the rounded accrued interest, the time column the time of the quotes or else of their receipt, and the status column FRESH exactly with a price and otherwise the missing side |
| SheetSyncMarket.OtherSideIgnored | src/bond_trading/application/services/sheets.py:567-577 | no cell of a row depends on the quotes of the side that its mode does not look at |
| SheetSyncMarket.CalculationQuote | src/bond_trading/application/services/sheets.py:320-343 | a calculated row is valued at the rouble quote that the clean mode of the same side shows |
| SheetSyncInputs.ReadingMeaning | src/bond_trading/application/services/sheets.py:195-201 | a pass reads every line below the header with something in the ISIN column or in E, H, I, J, L or V, and of it exactly these cells |
| SheetSyncInputs.PurchaseIff | src/bond_trading/application/services/sheet_calculations.py:89-126 | a row has a purchase exactly if E, H, I, J, L and V describe one with a positive quantity and no negative amount, where a blank L is 0.4 and a blank J the history of the date in E |
| SheetSyncInputs.PurchaseRoundTrip | src/bond_trading/application/services/sheet_calculations.py:89-126 | a purchase that is written into its columns is read back, whatever the exchange says |
| SheetSyncInputs.SerialDates | src/bond_trading/application/services/sheet_calculations.py:192-206 | a serial number with any time of the day is read as its day |
| SheetSyncInputs.StatusShown | src/bond_trading/application/services/sheets.py:298-353 | column AL of every refreshed row names the first thing that it lacks, in the words of the service |
| SheetSyncInputs.CouponsShown | src/bond_trading/application/services/sheets.py:310-319 | AE and AF show the paid coupons of every purchase, quoted or not |
| SheetSyncInputs.FailureShown | src/bond_trading/application/services/sheets.py:602-616 | a row that could not be refreshed is marked, and its price, time and results are cleared |
| SheetSyncInputs.HeaderShown | src/bond_trading/application/services/sheets.py:237-240 | after a pass the header row shows the names of the nine result columns |
| SheetSyncBatch.BatchWrites | src/bond_trading/application/services/sheets.py:237-365 | the cells of a batch, exactly: header, rows with an accepted ISIN, marks of rejected ones |
| SheetSyncBatch.NoDoubleWrites | src/bond_trading/application/services/sheets.py:237-365 | no cell is written twice in one batch |
| SheetSyncBatch.AnyOrderGivesTheSameSheet | src/bond_trading/infrastructure/google_sheets/client.py:344-360 | every permutation of the batch yields the same sheet |
| SheetSyncBatch.SheetShowsRowCells | src/bond_trading/application/services/sheets.py:353-353 | after a pass each row shows exactly the cells computed for it |
| SheetSyncBatch.Frame | src/bond_trading/application/services/sheets.py:98-113 | every changed cell is a header cell of AD to AL or, on a data row with an ISIN, an own or calculation column or a J or L that was blank |
| SheetSyncBatch.InputsKept | src/bond_trading/application/services/sheets.py:260-296 | ISIN, date, quantity, price, plan and any filled J or L keep their values |
| SheetSyncBatch.NoStaleResult | src/bond_trading/application/services/sheets.py:242-353 | after a pass price and AD to AL of every row with an accepted ISIN are written, and AL reads as calculated exactly if AG to AJ are all non-blank |
| SheetSyncBatch.PassIsDetermined | src/bond_trading/application/services/sheets.py:183-384 | a pass is possible over every sheet, and with the same answers of the exchange its result is determined |
| SheetSyncBatch.RejectedRowKeepsResults | src/bond_trading/application/services/sheets.py:355-365 | a row with an invalid ISIN gets its two marks if there is a status column, and nothing else of it changes |
| SheetSyncExecute.ComputeSheetCurrent | src/bond_trading/application/services/sheet_calculations.py:129-175 | the calculation of a row equals its specification |
| SheetSyncExecute.ParseSheetPurchase | src/bond_trading/application/services/sheet_calculations.py:89-126 | reading a purchase with its list of missing columns equals its specification |
| SheetSyncExecute.CalculateRow | src/bond_trading/application/services/sheets.py:310-353 | the calculation part of a row, with its error report |
| SheetSyncExecute.AskHistory | src/bond_trading/application/services/sheets.py:276-296 | the table answers as the exchange would, asks only for an unknown key, and reports a failure once |
| SheetSyncExecute.ProcessRow | src/bond_trading/application/services/sheets.py:247-353 | a row computed with the table equals the row computed alone |
| SheetSyncExecute.MemoryGateway.Read | src/bond_trading/infrastructure/google_sheets/client.py:314-342 | returns the reading of the stored cells |
| SheetSyncExecute.MemoryGateway.UpdateCells | src/bond_trading/infrastructure/google_sheets/client.py:344-360 | applies the batch cell by cell and records it |
| SheetSyncPass.RefreshAll | src/bond_trading/application/services/sheets.py:214-235 | asks once for each listed ISIN and tables the answers |
| SheetSyncPass.ComputeRows | src/bond_trading/application/services/sheets.py:241-353 | the loop with both tables yields the updates of the rows computed alone, and only new questions |
| SheetSyncPass.MarkInvalidRows | src/bond_trading/application/services/sheets.py:355-365 | the loop over the errors marks the rows whose number no accepted row has |
| SheetSyncPass.Execute | src/bond_trading/application/services/sheets.py:183-384 | the pass writes exactly the batch of the row-by-row computation, with the listed requests, questions, counts and errors; SheetSyncMarket and SheetSyncInputs say what its cells show |
| SheetSyncPass.EveryInstrumentOnce | src/bond_trading/application/services/sheets.py:216-235 | an ISIN is refreshed exactly if some row has it, and then once |
| SheetSyncPass.EveryDateOnce | src/bond_trading/application/services/sheets.py:276-296 | an ISIN and purchase date are asked about exactly if some row leaves J blank, and then once |
| SheetSyncReport.ReportCounts | src/bond_trading/application/services/sheets.py:372-376 | the report counts the rows with something in the ISIN column, the rows with an accepted ISIN and the different instruments that were refreshed |
| SheetSyncReport.ReportErrors | src/bond_trading/application/services/sheets.py:203-345 | the errors of a pass are exactly the rejected rows, the instruments that could not be refreshed, the first row for each history that failed, and the rows that could not be calculated |
| SheetSyncConvergence.FilledIsSettled | src/bond_trading/application/services/sheets.py:260-296 | a row with its inputs filled fills nothing more |
| SheetSyncConvergence.NextReading | src/bond_trading/application/services/sheets.py:195-201 | the next pass reads the same rows with the filled inputs |
| SheetSyncConvergence.LateEntryKeptIff | src/bond_trading/application/services/sheets.py:260-296 | what users enter in a row between the reading and the writing is kept exactly if the pass does not fill that cell |
| SheetSyncConvergence.ThirdPassChangesNothing | src/bond_trading/application/services/sheets.py:183-384 | with the same answers of the exchange, three passes leave the sheet as two do |
| SheetSyncSecondPass.SecondPassChangesNothingIffStable | src/bond_trading/application/services/sheets.py:298-353 | two passes leave the sheet as one does exactly if every row shows the same results with its filled inputs |
| SheetSyncSecondPass.SecondPassChangesNothingOnCents | src/bond_trading/application/services/sheets.py:294-296 | and so whenever the historical accrued interest that is filled has two decimals |
| SheetSyncOnePass.OnePassSufficesIff | src/bond_trading/application/services/sheets.py:275-296 | one pass is enough for every sheet exactly if no history answer off the cents belongs to a priced bond and no negative one rounds to zero |
| SheetSyncOnePass.SecondPassCanChangeResults | src/bond_trading/application/services/sheets.py:294-296 | for a priced bond with an accrued interest of 0.005 some sheet changes in the second pass |
| AccountSafety.ReachableInv | src/bond_trading/application/services/auth.py:51-242 | in every reachable state names, addresses and tokens are unique, and every session that is not revoked belongs to an active user and was issued under the current password |
| AccountSafety.ResolvesIffAlive | src/bond_trading/application/services/auth.py:171-185 | a token resolves exactly if its session is neither revoked nor expired, and to that session only |
| AccountSafety.DeadTokenNeverResolves | src/bond_trading/application/services/auth.py:171-189 | a token that was revoked or has expired never resolves again, in any run |
| AccountSafety.OldTokensEnd | src/bond_trading/application/services/auth.py:197-213 | after a password change no earlier token of the user ever resolves |
| AccountSafety.DisablingEndsTokens | src/bond_trading/application/services/auth.py:221-242 | nor after disabling the user, even if enabled again |
| AccountSafety.LogoutEndsToken | src/bond_trading/application/services/auth.py:187-189 | nor does a token after logging out, and no other session changes |
| AccountSafety.AdminRemains | src/bond_trading/application/services/auth.py:221-231 | an active administrator, once present, remains in every run |
| AccountSafety.BootstrapTwice | src/bond_trading/application/services/auth.py:51-100 | a successful bootstrap leaves every account present and a second one changes nothing |
| AccountLogin.ChosenPasswordLogsIn | src/bond_trading/application/services/auth.py:197-213 | after an accepted change, in every run without another one, a login succeeds exactly if the user is enabled and gives the chosen password; the user need not change it again |
| AccountLogin.PasswordStays | src/bond_trading/application/services/auth.py:137-151 | over every run that sets no password of the user, a login succeeds exactly if the user is enabled and gives the password from the beginning |
| AccountLogin.NewUserLogsIn | src/bond_trading/application/services/auth.py:102-135 | a new user has the name and address in lower case and the given role for good, and logs in by either with the given password |
| AccountLogin.SwitchedUserLogsIn | src/bond_trading/application/services/auth.py:221-242 | a disabled user is refused whatever the password, and once enabled again logs in with the same one |
| AccountLogin.TokenLives | src/bond_trading/application/services/auth.py:152-185 | the token of a login resolves exactly until its time to live is over, in every run that does not revoke it |
| AccountLogin.KeepsUser | src/bond_trading/application/services/auth.py:51-242 | no run removes a user or changes the name, the address or the role |
| AccountLogin.BootstrapProvides | src/bond_trading/application/services/auth.py:51-100 | a bootstrap creates each missing account, enabled and with its own data, and gives an existing one the configured password exactly if it is synchronised |
| AccountLogin.CreateErrors | src/bond_trading/application/services/auth.py:111-122 | why a new user is refused: name, length of the password, or a name or address in use in any case |
| AccountLogin.CaseIgnored | src/bond_trading/application/services/auth.py:260-271 | the case of Latin letters in a name does not matter |
| AccountLogin.BlanksIgnored | src/bond_trading/application/services/auth.py:260-271 | nor do blanks around it |
| AccountLogin.ChangeErrors | src/bond_trading/application/services/auth.py:200-202 | a change is accepted exactly with the current password and a new one of at least twelve characters |
| AccountLogin.SwitchErrors | src/bond_trading/application/services/auth.py:222-231 | exactly the last active administrator cannot be disabled |
| AccountService.AuthService.CreateAccount | src/bond_trading/application/services/auth.py:102-135 | the new state and every error of creating a user |
| AccountService.AuthService.LogIn | src/bond_trading/application/services/auth.py:137-169 | a session starts only for an active user whose login and password fit; a refusal changes nothing |
| AccountService.AuthService.Resolve | src/bond_trading/application/services/auth.py:171-185 | returns a usable session of the token, and fails only if there is none |
| AccountService.AuthService.LogOut | src/bond_trading/application/services/auth.py:187-189 | revokes the session and changes nothing else |
| AccountService.AuthService.SetPassword | src/bond_trading/application/services/auth.py:197-213 | the new state and every error of a password change; AccountLogin.ChosenPasswordLogsIn says what the new state accepts |
| AccountService.AuthService.Enable | src/bond_trading/application/services/auth.py:221-242 | the new state of switching a user, and the refusal to disable the last active administrator |
| AccountService.AuthService.EnsureBootstrapUsers | src/bond_trading/application/services/auth.py:51-100 | all accounts are committed together or nothing is, with lookups that see only committed users |
| SpreadsheetReader.FindHeader | src/bond_trading/infrastructure/imports/xlsx_reader.py:269-274 | returns the first ISIN cell row by row, and fails exactly if there is none |
| SpreadsheetReader.ReadPreview | src/bond_trading/infrastructure/imports/xlsx_reader.py:126-164 | the block below the first header ends at the first empty line; rows and errors together report each of its lines; PreviewRoundTrip.RowIff says what each line gives |
| SpreadsheetReader.RowsAndErrorsDisjoint | src/bond_trading/infrastructure/imports/xlsx_reader.py:143-155 | no line is reported both as a row and as an error |
| SpreadsheetReader.AcceptedRowIsSound | src/bond_trading/infrastructure/imports/xlsx_reader.py:276-309 | an accepted row has a valid ISIN, a positive quantity, a price, accrued interest and commission that are not negative, and no formula in a manual field |
| SpreadsheetReader.OptionalAmountsAreFree | src/bond_trading/infrastructure/imports/xlsx_reader.py:374-377 | any numbers in the optional columns, negative ones included, leave an accepted row accepted with these numbers |
| SpreadsheetReader.OptionalAmountsNotNegativeIff | src/bond_trading/infrastructure/imports/xlsx_reader.py:374-386 | for every accepted row, each optional amount is not negative exactly if its cell is blank, a formula, or reads as a number that is not negative |
| PreviewRoundTrip.RowIff | src/bond_trading/infrastructure/imports/xlsx_reader.py:276-309 | for every line and every row, the line is read as that row exactly if it holds each field in its own column of the profile, as a value or as a text that reads as it, without a formula in a manual field, and the ISIN and the amounts are permitted |
| PreviewRoundTrip.MaturityWords | src/bond_trading/infrastructure/imports/xlsx_reader.py:390-396 | the word for a maturity in either language and any case |
| PreviewRoundTrip.OfferWords | src/bond_trading/infrastructure/imports/xlsx_reader.py:390-396 | and that for an offer |
| PreviewRoundTrip.HeaderInAnyCase | src/bond_trading/infrastructure/imports/xlsx_reader.py:269-274 | the header is found whatever its case and the blanks around it |
| PreviewRoundTrip.SheetRoundTrip | src/bond_trading/infrastructure/imports/xlsx_reader.py:126-164 | the preview of a sheet into which any permitted rows were written shows these rows in order, and no error |
| Imports.ImportService.CommitPreview | src/bond_trading/application/services/imports.py:61-164 | the new state of a commit with every figure of the batch, and a duplicate answered with its batch and no change |
| Imports.NamesAreFirst | src/bond_trading/application/services/imports.py:94-113 | instruments of all rows exist afterwards; a name other than the ISIN is never replaced, and otherwise the first such name that a row gives is taken |
| Imports.UpdatesMeaning | src/bond_trading/application/services/imports.py:94-113 | the number of updated instruments counts the rows that create one or name one that still goes by its ISIN |
| Imports.RunInv | src/bond_trading/application/services/imports.py:61-164 | over all runs there is at most one batch per owner, content and sheet; its lots are exactly the rows of one preview; no lot lacks its batch or instrument; every owner has requested one synchronisation for each own batch |
| Imports.ReplayAddsNothing | src/bond_trading/application/services/imports.py:62-78 | committing the same content again, however much later, adds nothing |
| Imports.DuplicateIff | src/bond_trading/application/services/imports.py:62-78 | over every run a commit is a duplicate exactly if the same owner has committed the same content of the same sheet before |

## Left out

- HTTP, Google and MOEX clients, routers, templates, metrics, logging and configuration: the exchange is a pure function of the request during one pass, and the gateway is its effect on cells.
- Transactions that interleave inside one service call, such as two producers that both find no queued job: every committed transaction is one atomic step, except that a worker's noted attempt time stays in its session until the next commit. The transaction of the scheduler is one step for each job it adds.
- The several clock readings inside one transaction are one time.
- A connection that is deleted while its job runs, the check of the worksheet name before a pass, and sheets with several worksheets.
- Text that is read as a number or a date: the parsers are parameters, so NaN, infinities and date formats are not modelled; the text of an ISIN cell that is not text is taken as empty, which is rejected as well.
- Letters outside ASCII in user names and addresses; Russian letters are folded only in the event type of an import.
- Decimal arithmetic with 28 digits and the conversion to floating point: amounts are exact reals, rounded only where the source rounds to hundredths.
- Spreadsheet ids, the payload hash, liquidity, settings and uploads: one-branch facts.
- In a run of `SyncSystem` the columns of a connection stay the same, and users do not edit the result cells themselves.
- ResultsFollowEvents: a job that ended in FAILED promises nothing about its sheet, because its passes may have ended before they wrote.
- Passwords, tokens and their hashes are compared directly; password epochs of users and sessions are bookkeeping of the model. `verify_csrf` is not modelled.
- TerminalForever: a failure of the refresh that follows the success commit inside the worker (sheets.py:382-383), which would hand a finished job to the failure record, is not a step of the model.
- `LogIn`: when the name of one user is the address of another, either may be chosen, as in the source without an order.
- The preview cache, the choice of a worksheet, and spreadsheet files; a preview starts from loaded cells.
- Lots that are added, changed or deleted outside an import, and the status of uploaded files.
- The lot-level yields of `LotService`: its calendar is not reduced to the latest amounts, so nothing is claimed about its agreement with the sheet.
- No fairness is assumed: `Drains` shows that the queue can always be emptied, and `DrainBound` that claims and finishes are bounded, not that workers run.
