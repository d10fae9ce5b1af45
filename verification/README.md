# Restaurant settlement, finance and backup: a verified model

This project models how a multi-branch restaurant back end settles money, reports on stock and profit, and backs
itself up, and proves what those parts keep.

- **Settlement.** Table sessions, bill requests, bills, payments, cash drops, disputes, a double-entry cash ledger,
  stored answers to retried requests and day locks change together. `Records` holds the rows; `Billing`, `FloorPlan`,
  `CashCustody` and `DailyClose` say what each command does to them; `Settlement`, `Seating`, `DoubleEntry` and
  `Pouches` say what each part keeps; `Charges`, `Takings`, `DropSteps` and `Disputes` say what one more
  unit, payment, count or resolution is worth, `DayClosing` what the close of a day reports, and `Guards` when each
  command goes through and what it answers with; `Protocol`, `DayLock` and `Runs` prove it over every run. `Interleaving` lets any
  number of payment requests load their bill before, and commit in, separate atomic steps; `Concurrent`,
  `StoredAnswers` and `LockRace` say which of the results survive that and exactly when the others do, and `Witnesses`
  gives, for each condition, a run from a fresh database (no sessions, bills or cash yet) that breaks it.
- **Services.** `Stores` is the database with one mutable field per table. `FloorServices`, `BillingServices`,
  `CashCustodyServices` and `DailyCloseServices` are the services as classes whose methods change those tables step by
  step; each method is proved to leave exactly the rows, and to give exactly the answer or error, of its command.
  The table below lists those whose loop, heap or rollback does work; the others follow their command guard by guard.
- **Finance.** `Finance` and `StockReports` specify the profit summary, its daily series, the branch rollups and the two
  stock reports over a ledger of any size; `ProfitEffects` says what one more row is worth to them and `StockAgreement`
  how they agree; `FinanceServices` holds their loops over buckets and per-day maps.
- **Backup.** `Archive` prints rows as SQL and splits the text into statements, `SqlReader` reads an INSERT line back,
  `Restore` executes upserts, `BackupServices` holds the exporter and the restorer, and `BackupCron` the scheduler, over
  the calendar in `Calendar`.

`Sums` and `Texts` hold the facts about totals, filters, groups and text that the others share.

Money is in cents, quantities in ten-thousandths, instants in milliseconds, a business date is a day number, an id is
the position of a row in its table (rows are never deleted), and one tenant is modelled. The request hash is taken to be
injective, so stored bodies are compared directly. A command other than a payment is one atomic step.

## What the code does that a reader might not expect

- A session is closed when `closedAt` is set; its status can leave CLOSED. A transfer that pays a counter bill marks an
  already closed session PAID, and withdrawing a bill request writes OPEN or ACTIVE_ORDER. The results are stated over
  `closedAt`.
- The payment compare-and-set tests the version the client sent, not the one that was loaded. A client that sends a
  newer version than its request loaded makes the bill lose a payment (`Witnesses.NewerVersionLosesPayment`);
  `Interleaving.BillsAgreeIffHonest` shows this is the only way.
- A payment checks the day lock when it loads its bill and not when it commits, so one loaded before the lock can commit
  after it (`Witnesses.LateCommitThaws`). `LockRace.FrozenForGoodIff` says exactly when a locked day is safe.
- The stored answer of a key is overwritten by a later commit and its body is not, so one key sent with two bodies at
  once can keep the body of one request with the answer of the other (`Witnesses.TwoBodiesMix`).
- The lookup of a transfer reference is outside the transaction too, and the record is kept per user, so one reference
  can settle two bills when both payments load first (`Witnesses.OneTransferPaysTwo`).
- A dish may be changed after its bill was generated; the bill keeps the price it was generated with
  (`Runs.LinesAreSnapshots`).
- `lock` sweeps the kitchen tickets before it looks at the blockers and outside its transaction, so a refused lock has
  still cancelled them.
- The comment on `assertBusinessDayNotLocked` speaks of new orders too; generating a bill and starting a session check no
  lock. What a lock freezes is payments, drops and drop entries.
- A counter sale takes any table of the branch that is not RETIRED, archived ones included, closes every session still
  open on it and does not free or occupy the table.
- The movements report leaves out an ingredient that opened at nothing and netted to nothing, together with the cost of
  what was used (`StockReports.UsedUpIsDropped`).
- The scheduler remembers a day of the month, so a month without a due tick can lose a run
  (`BackupCron.OutageLosesARun`).
- Bill amounts carry a database CHECK (total not negative), modelled as the error `CheckViolated`. Other CHECKs only
  refuse rows the code would write, for instance a ledger amount of zero, and so only remove runs.
- Forced clock-out (`src/shifts/shifts.service.ts:1795-1935`) hands open tables over or closes them, which are the steps
  `HandOver` and `CloseWithShift` of the environment. The drops it would write itself (1858-1930), received without a
  drawer and with one entry, cannot commit: the CHECKs of migration `20261019143000_cash_ledger_handover_types` refuse
  the entry types WAITER_CASH_DROP and WAITER_CASH_SHORTAGE and the source types MANAGER_FORCE_DROP and
  STAFF_SHORTAGE_RECORD.
- Order changes write ACTIVE_ORDER to OPEN for a session left with nothing to charge
  (`src/orders/order-item-mutations.service.ts:159,592`), the step `ReopenEmptied`; a guest who scans a table code is
  seated by the step `SeatByCode` (`src/qr-menu/qr-menu.service.ts:482-506`).

## Model

| member | source | states |
|---|---|---|
| `Interleaving.BillsAgreeIffHonest` | src/billing/billing.service.ts:1309-1342 | over every interleaving of payment requests with all other commands, each bill's `amountPaid` is at every point the sum of its settled payments, never above the total, and its status is the one its amount calls for, if and only if no commit carried an expected version newer than the version its request had loaded |
| `Witnesses.NewerVersionLosesPayment` | src/billing/billing.service.ts:1945-2006 | a run from a fresh database in which two requests load one bill, the part is paid, and the whole price is then paid with a version newer than the one loaded: the bill says it was paid its price while price plus part are settled on it |
| `Settlement.CommitAgreesIff` | src/billing/billing.service.ts:1945-2006 | one commit, run with any earlier snapshot, keeps bills equal to payments exactly when the client's expected version is at most the loaded one; so the overwrite with the total loses nothing |
| `Settlement.SnapshotSurvives` | src/billing/billing.service.ts:1929-1943 | what stays true of a bill loaded before the transaction while other steps run |
| `Interleaving.EachVersionPaidOnce` | src/billing/billing.service.ts:1974-2000 | in every interleaving at most one request commits per bill and expected version, and every payment row was written by exactly one committed request |
| `Interleaving.RetriesSettleOnce` | src/billing/billing.service.ts:1302-1307 | requests with the same body settle at most once in any interleaving |
| `Interleaving.RowsAlwaysTraced` | src/billing/billing.service.ts:2234-2276 | every stored answer, and every stored body, was written by a commit of its key |
| `Interleaving.ReplayReturnsCommitted` | src/billing/billing.service.ts:2208-2232 | for a key only ever sent with one body, a later replay answers with the committed response and changes nothing |
| `StoredAnswers.AlwaysWholeIff` | src/billing/billing.service.ts:2234-2276 | over every interleaving each stored record is at every point one committed request's body together with that request's own answer, if and only if no commit used a key whose record held another body |
| `StoredAnswers.OneBodyKeepsWhole` | src/billing/billing.service.ts:2208-2232 | clients that never send a key with two bodies never cause a mixed record |
| `Witnesses.TwoBodiesMix` | src/billing/billing.service.ts:2253-2274 | a run in which one key is sent with two bodies, both loaded before either commits, and the record ends with the first body and the second answer |
| `Concurrent.ReachKeepsSound` | src/billing/billing.service.ts:1329-1400 | in every interleaving tables, sessions, requests, bills and lines agree, the ledger mirrors the drops and no open drop is on a locked day |
| `Concurrent.ReferencesHoldIff` | src/billing/billing.service.ts:1711-1748 | over every interleaving each transfer reference settles one bill at every point if and only if no commit stores a reference that a record already gives to another bill |
| `Witnesses.OneTransferPaysTwo` | src/billing/billing.service.ts:1616-1634 | a run in which two payments pass the lookup before either commits, and one reference settles two bills |
| `Settlement.PayKeepsBilling` | src/billing/billing.service.ts:1295-1416 | a payment run alone keeps bills, references and audits consistent |
| `Settlement.StoreReferenceIff` | src/billing/billing.service.ts:1711-1748 | recording a reference keeps one bill per reference exactly when no row gives it to another bill |
| `Settlement.LookupDecides` | src/billing/billing.service.ts:1616-1634 | while references agree, the arbitrary row `findFirst` returns decides for all rows of that reference |
| `Takings.PayIsCollected` | src/billing/billing.service.ts:1329-1361 | a payment that commits raises the cash collected by its amount, for exactly the collector's shift in the branch, when it is a cash payment; a transfer or a replayed answer raises nobody's |
| `Takings.CommitIsSold` | src/billing/billing.service.ts:1337-1353 | and it raises the day's cash sales or transfer sales of its branch, by its method, on its bill's business date and on no other |
| `Takings.AnswerAddsUp` | src/billing/billing.service.ts:1362-1391 | the answer adds up: tendered is amount plus change, a verified transfer is amount plus tip, amount paid plus remaining is the stored bill's total, and nothing remains exactly when the bill is PAID |
| `Guards.CommitSeats` | src/billing/billing.service.ts:2036-2077 | a payment in full closes a counter session when it is cash and marks any other session PAID; a part payment leaves the session alone |
| `Guards.CommitAudits` | src/billing/billing.service.ts:1711-1770 | a transfer is audited under the reference the bank verified, or else the typed one; cash under none |
| `Charges.LineChargesUnits` | src/billing/billing.service.ts:2320-2332 | each unit of a line costs its price and its modifiers, and no units cost nothing |
| `Charges.BillAsksWhatIsOwed` | src/billing/billing.service.ts:862-965 | a generated bill asks for exactly what the session's items that are not cancelled cost |
| `Charges.OneMoreIsBilled` | src/billing/billing.service.ts:919-940 | one more unit of an item raises the bill by that unit with its modifiers if the item is owed, changes nothing otherwise, and is refused only if the total would be negative |
| `Charges.SaleAsksItsLines` | src/billing/billing.service.ts:722-752 | a counter sale bills quantity times price over its lines |
| `Charges.OneMoreIsSold` | src/billing/billing.service.ts:722-738 | one more unit on one line of a sale raises its bill by that line's price |
| `BillingServices.BillingService.PriceLines` | src/billing/billing.service.ts:919-940 | the accumulated subtotal is the sum of the lines, one line per charged item |
| `BillingServices.BillingService.CreateCounterSale` | src/billing/billing.service.ts:583-783 | refines the specified counter sale; a refused bill rolls back the closed sessions, the new session and the items |
| `BillingServices.BillingService.Settle` | src/billing/billing.service.ts:1329-1400 | the payment transaction for any snapshot equals the commit step of the interleaved model |
| `BillingServices.BillingService.ReferenceTaken` | src/billing/billing.service.ts:1616-1634 | the lookup refuses exactly when some row gives the reference to another bill |
| `BillingServices.BillingService.PayTransfer` | src/billing/billing.service.ts:1418-1786 | refines the specified payment, whichever row the reference lookup picks |
| `Protocol.RunKeepsConsistent` | src/billing/billing.service.ts:101-156 | every run of commands keeps the invariant: bills equal payments, one pending request and one bill per session, no pending request on a billed session, each item on at most one line, totals equal line sums, PAID sessions settled, tables with one open session, drops mirrored in the ledger, no open drop on a locked day |
| `Seating.GenerateKeeps` | src/billing/billing.service.ts:862-991 | generating a bill keeps tables, requests, bills, PAID marks and lines consistent |
| `Seating.NewBillLines` | src/billing/billing.service.ts:919-965 | a new bill's lines take only items no other line has, and add up to its total |
| `Seating.CancelSparesBilled` | src/billing/billing.service.ts:349-374 | withdrawing a request never touches a session that has a bill |
| `Seating.WithdrawRestates` | src/billing/billing.service.ts:349-374 | a withdrawn request leaves its session in ACTIVE_ORDER exactly when something was ever ordered there, and in OPEN otherwise |
| `Seating.AskThenWithdraw` | src/billing/billing.service.ts:101-156 | asking for a bill and withdrawing the request leaves an active order, a withdrawn request, a version two higher and nothing else |
| `Seating.CounterSaleKeeps` | src/billing/billing.service.ts:644-673 | a counter sale, which closes leftovers and leaves the table as it was, keeps the seating invariant |
| `Seating.CommitKeepsSeating` | src/billing/billing.service.ts:2036-2077 | a payment keeps the seating invariant, even when it marks a closed counter session PAID |
| `Seating.CloseSessionKeeps` | src/floor/floor.service.ts:321-373 | closing or force-closing a session keeps the seating invariant |
| `Seating.StartKeeps` | src/floor/floor.service.ts:172-229 | opening a session keeps at most one open session per table and its table OCCUPIED |
| `Guards.StartsIff` | src/floor/floor.service.ts:118-256 | in a state where tables and sessions agree, a table of the branch opens exactly while nobody sits at it and it is not archived; the session is a pickup exactly when asked for or when the table is one |
| `Guards.ClosesIff` | src/floor/floor.service.ts:279-401 | a session closes exactly when it is PAID or holds nothing that is not cancelled; its table is free again, and exactly a PAID session's paid bills are archived |
| `Guards.ForceClosesIff` | src/floor/floor.service.ts:404-518 | which sessions can be forced closed, item state by item state: items nobody has started do not hold it up, a bill asked for or ready does |
| `Seating.AbandonKeeps` | src/daily-close/daily-close.service.ts:1216-1260 | sweeping the kitchen tickets keeps the seating invariant |
| `Runs.ReachableFloor` | src/floor/floor.service.ts:172-229 | in every reachable state a table has at most one session without `closedAt`, CLOSED implies `closedAt`, and an open dine-in or pickup session occupies its table |
| `Runs.ReachablePaid` | src/billing/billing.service.ts:2036-2077 | in every reachable state a PAID session has a bill whose settled payments equal its total |
| `Runs.ReachableReferences` | src/billing/billing.service.ts:1711-1748 | in every reachable state two audited transfers with one reference paid the same bill |
| `Runs.ClosedForGood` | src/floor/floor.service.ts:431-502 | `closedAt`, once set, is never cleared by any command |
| `Runs.LinesAreSnapshots` | src/billing/billing.service.ts:919-965 | after any later run each line of a bill still holds what its item cost when the bill was generated, although the item may have been changed since |
| `DoubleEntry.ReceivedIffPaired` | src/cash-custody/cash-custody.service.ts:678-719 | a drop is RECEIVED exactly when the ledger holds two entries for it, and they are the OUT/IN pair of plus and minus its resolution amount on its own shift and its own drawer; other drops have none |
| `DoubleEntry.DropEntriesBalance` | src/cash-custody/cash-custody.service.ts:678-719 | all drop entries of the ledger add up to zero |
| `DoubleEntry.LedgerMirrorsDrops` | src/cash-custody/cash-custody.service.ts:363-384 | any amount summed over the drop entries equals the same amount summed over the drop table |
| `DoubleEntry.CashConserved` | src/cash-custody/cash-custody.service.ts:574-605 | cash collected plus net handovers equals the unclamped pouch plus pending plus disputed drops plus the DROP_IN amounts posted for the shift |
| `DoubleEntry.ReceiveKeeps` | src/cash-custody/cash-custody.service.ts:318-406 | receiving a drop, matching or not, keeps drops, disputes and ledger in step |
| `DoubleEntry.ResolveKeeps` | src/cash-custody/cash-custody.service.ts:491-524 | resolving a dispute at any amount keeps drops, disputes and ledger in step |
| `Pouches.ReceiveSparesPouch` | src/cash-custody/cash-custody.service.ts:317-406 | receiving a drop changes no shift's unclamped pouch |
| `DropSteps.InitiatesIff` | src/cash-custody/cash-custody.service.ts:59-154 | a waiter drops exactly a positive amount up to the pouch, on a shift whose day is open; the amount is then pending |
| `DropSteps.DrawerChosen` | src/cash-custody/cash-custody.service.ts:618-676 | the cashier works with the last drawer of the shift while it is open, or with a new empty one when there is none |
| `DropSteps.ReceivesIff` | src/cash-custody/cash-custody.service.ts:266-406 | a pending drop is counted once, by a cashier with a drawer on an open day, and is received into that drawer exactly when the count is what was declared |
| `DropSteps.ReceiveMovesColumns` | src/cash-custody/cash-custody.service.ts:545-616 | counting takes the drop from the pending column of its shift's summary to the dropped one, or to the disputed one |
| `DropSteps.ResolveMovesColumns` | src/cash-custody/cash-custody.service.ts:545-616 | a resolution takes the declared amount off the disputed column and adds what was accepted to the dropped one |
| `DropSteps.PostMovesPouch` | src/cash-custody/cash-custody.service.ts:574-605 | a handover posted for a shift moves its pouch, and no other posting moves any |
| `Pouches.ResolveMovesPouch` | src/cash-custody/cash-custody.service.ts:496-524 | a resolution moves the pouch of its shift by declared minus the amount the drop was received at, and no other pouch |
| `Pouches.ResolveClampIff` | src/cash-custody/cash-custody.service.ts:600-612 | after a resolution the clamp acts exactly when the drop was received above its declared amount plus the pouch |
| `Disputes.ResolvedIff` | src/cash-custody/cash-custody.service.ts:467-489 | an open dispute resolves unless another amount is approved and none, or a negative one, is given |
| `Disputes.ResolvedAt` | src/cash-custody/cash-custody.service.ts:467-524 | the drop, the dispute and the OUT/IN pair of the ledger all carry the counted, the declared or the approved amount, as the resolution says |
| `Disputes.DeclaredSparesPouches` | src/cash-custody/cash-custody.service.ts:467-472 | accepting the declared amount leaves every pouch as it was |
| `Disputes.CountedMovesPouch` | src/cash-custody/cash-custody.service.ts:467-472 | accepting the counted amount moves the waiter's pouch by minus the dispute's variance, and no other pouch |
| `Disputes.CountedThenAccepted` | src/cash-custody/cash-custody.service.ts:340-406 | from the count to its resolution: a drop counted differently and resolved at the count is received at the count, and the difference is back in the waiter's pouch |
| `Runs.PouchesNeverNegative` | src/cash-custody/cash-custody.service.ts:83-97 | over any run without handovers and without a resolution above its declared amount, no unclamped pouch is negative, so every summary shows it unclamped |
| `Pouches.SummariesAgree` | src/daily-close/daily-close.service.ts:984-1006 | the pouch summary and the daily-close waiter line agree for a shift whose rows fall on that day, despite their different fallback amounts |
| `DayLock.LockedDayFrozen` | src/daily-close/daily-close.service.ts:301-395 | once a branch and date are LOCKED they stay so, and the close row, the payments, drops and drop entries of that date are the same after any later run |
| `LockRace.FrozenIffQuiet` | src/billing/billing.service.ts:1309-1342 | over every interleaving a locked day stays locked, and its payments, drops and drop entries stay the same if and only if no payment of that branch and day committed after the lock |
| `LockRace.FrozenForGoodIff` | src/daily-close/daily-close.service.ts:1268-1288 | a locked day stays frozen through every later interleaving if and only if, at that moment, no request holds a bill of the day whose version and status would still let its commit through |
| `LockRace.FrozenIfNoneHolds` | src/daily-close/daily-close.service.ts:1268-1288 | it is enough that no request holds a bill of the day when it is locked, because no later request can load one |
| `Witnesses.LateCommitThaws` | src/billing/billing.service.ts:1309-1342 | a run from a fresh database in which a payment loads its bill, the day is created and locked, the payment commits, and the locked day has one payment more |
| `DayLock.LockedSalesStayTrue` | src/daily-close/daily-close.service.ts:623-640 | the cash and transfer sales a lock wrote down are what the day's payments add up to after any later run |
| `Takings.CashSalesByShift` | src/daily-close/daily-close.service.ts:623-640 | the cash sales of a day are the sum of what its waiter lines say was collected |
| `Takings.SalesArePaidBills` | src/daily-close/daily-close.service.ts:623-640 | cash and transfer sales of a day are together what the bills of that day were paid |
| `Takings.LockedSalesAreTakings` | src/daily-close/daily-close.service.ts:301-395 | after any later run the figures a lock wrote down are still what the day's waiters collected and what the day's bills were paid |
| `DayLock.LockMeansDropped` | src/daily-close/daily-close.service.ts:793-842 | when a day is locked, a shift of that day without handovers has had all it collected posted into drawers |
| `DayLock.ResolveFreezes` | src/cash-custody/cash-custody.service.ts:434-466 | resolving a dispute cannot touch a locked day, although it checks no lock, because a locked day has no open drop |
| `Protocol.LockNeedsClearDay` | src/daily-close/daily-close.service.ts:337-350 | a lock that succeeds found the day clear, with no INITIATED or DISPUTED drop in the branch |
| `DailyClose.HardBlockersDecide` | src/daily-close/daily-close.service.ts:713-842 | the hard blockers are empty if and only if no guest session is open, no drop is open, every drawer of the day is reconciled and unflagged, and no shift of the day holds cash |
| `DayClosing.BlockersNameRows` | src/daily-close/daily-close.service.ts:713-842 | the blocker list names, by kind, every row that stands in the way and no other |
| `DayClosing.SweepKeepsClear` | src/daily-close/daily-close.service.ts:1216-1260 | sweeping the kitchen tickets neither clears a day nor blocks it, and changes none of its figures |
| `DayClosing.SweepCancels` | src/daily-close/daily-close.service.ts:1216-1241 | the sweep cancels every item of the branch that is neither served, nor cancelled, nor up for a change, and no other |
| `DayClosing.SweepReopens` | src/daily-close/daily-close.service.ts:1242-1260 | only an active order that loses its last item to the sweep goes back to OPEN; every other session is left alone |
| `DayClosing.LocksIff` | src/daily-close/daily-close.service.ts:301-395 | a close is locked exactly when it is the version that was seen, not locked yet, and the day is clear; a refused lock leaves all closes as they were |
| `DayClosing.CreatesIff` | src/daily-close/daily-close.service.ts:130-204 | a day gets one close, which starts ready for review exactly when the day is clear |
| `DayClosing.ExpectedIsGreater` | src/daily-close/daily-close.service.ts:651-676 | expected cash is the larger of the sum over the day's drawers and the day's floats plus the drops received |
| `DayClosing.CountedIsReconciled` | src/daily-close/daily-close.service.ts:651-662 | counted cash is what the reconciliations of the day's drawers counted |
| `DayClosing.UndroppedIff` | src/daily-close/daily-close.service.ts:935-1020 | the undropped figure is zero exactly when no shift of the day holds cash |
| `DoubleEntry.PathsAgree` | src/daily-close/daily-close.service.ts:896-933 | the ledger path and the drop-table fallback of the expected cash always give the same amount |
| `DoubleEntry.FloorGap` | src/daily-close/daily-close.service.ts:651-676 | exactly how far the sum over sessions lies above the drawer floor: other entries, plus drops received from other days, minus drops received elsewhere |
| `DoubleEntry.FloorIdle` | src/daily-close/daily-close.service.ts:671-676 | the drawer floor changes nothing when the day's drops were received in the day's sessions and no drawer entry is negative |
| `DailyCloseServices.DailyCloseService.SessionExpected` | src/daily-close/daily-close.service.ts:896-933 | the two-accumulator loop with its fallback computes the specified expected cash |
| `DailyCloseServices.DailyCloseService.CancelTickets` | src/daily-close/daily-close.service.ts:1216-1241 | cancels every open ticket of the branch and returns exactly the sessions that had one |
| `DailyCloseServices.DailyCloseService.ReopenEmptied` | src/daily-close/daily-close.service.ts:1242-1260 | whatever order the touched sessions are visited in, exactly those left with nothing to charge go from ACTIVE_ORDER to OPEN |
| `DailyCloseServices.DailyCloseService.Lock` | src/daily-close/daily-close.service.ts:301-395 | refines the specified lock; a lock refused for a blocker has still swept the tickets |
| `BusinessDate.InRangeIff` | src/common/business-date.ts:34-42 | at millisecond resolution an instant lies in the range of two days exactly when its own calendar day is one of them or between |
| `BusinessDate.DaysTile` | src/common/business-date.ts:28-42 | consecutive days leave no gap and share no instant, and adding calendar days adds day numbers |
| `StockReports.MaterialCostGap` | src/finance/finance.service.ts:1261-1283 | material cost equals the consumed plus wasted value over all ingredient buckets plus twice the value of wrong-signed rows, although the two reports place WASTE_REVERSAL differently |
| `StockReports.MaterialCostAgrees` | src/finance/finance.service.ts:953-997 | with depletions and waste never positive and reversals never negative the two are equal |
| `StockAgreement.CostOfSalesGap` | src/finance/finance.service.ts:1261-1283 | cost of goods sold alone is the consumed value over all ingredients less what reversals of waste gave back, which the movements report takes off waste, plus twice the wrong-signed rows |
| `StockAgreement.WasteGap` | src/finance/finance.service.ts:1261-1283 | and waste alone is the wasted value with those reversals put back, plus twice the wrong-signed rows |
| `StockReports.ReportedCost` | src/finance/finance.service.ts:696-703 | the rows the movements report drops take exactly their cost with them |
| `StockReports.UsedUpIsDropped` | src/finance/finance.service.ts:701 | an ingredient bought and used up within the range has cost and no row |
| `StockAgreement.LeftOutIff` | src/finance/finance.service.ts:696-703 | the movements report leaves out exactly the ingredients whose stock was nothing at both ends of the period |
| `StockReports.NetMovementGap` | src/finance/finance.service.ts:1306-1376 | the summary's net movement is the signed value of the stock moved, less twice the value of rows with the wrong sign |
| `StockReports.BucketsStep` | src/finance/finance.service.ts:953-973 | accumulating entries one at a time gives their totals family by family |
| `StockReports.BucketsHoldAll` | src/finance/finance.service.ts:975-1008 | every entry lands in exactly one of the six buckets, so the net of the buckets is the change in stock |
| `StockAgreement.RowMovesColumn` | src/finance/finance.service.ts:953-1008 | one more row of the period moves one column of its ingredient by its quantity, purchases adding their value and use taking it, and moves the closing with it |
| `StockAgreement.SeriesMovesTheBuckets` | src/finance/finance.service.ts:823-850 | over its days the usage series receives, consumes and wastes what the movements report shows for the range |
| `StockReports.OneDayEach` | src/finance/finance.service.ts:823-850 | every entry of the range falls on exactly one day of the usage series, and entries outside it on none |
| `StockReports.SeriesShowsBalances` | src/finance/finance.service.ts:890-906 | every running balance of the usage series is the stock at the start of the following day |
| `StockReports.ReportsAgree` | src/finance/finance.service.ts:680-703 | the last running balance of the usage series equals the closing of the movements report |
| `StockReports.ClosingOpensNext` | src/finance/finance.service.ts:680-703 | the closing of one range is the opening of any range that starts the next day |
| `Finance.SeriesAddsUp` | src/finance/finance.service.ts:1421-1463 | before rounding, the daily net profits of any range add up to its net profit |
| `Finance.ColumnsAddUp` | src/finance/finance.service.ts:1421-1463 | revenue, material, payroll and expenses of the daily series each add up to their total, a day's expenses including its payroll |
| `ProfitEffects.PayrollLeavesTips` | src/finance/finance.service.ts:1422-1429 | payroll plus the tips of the runs that count is their gross |
| `ProfitEffects.RunCosts` | src/finance/finance.service.ts:1422-1435 | in a run that counts, gross pay lowers net profit and tips do not; a run outside the period, of another branch or not counted changes nothing |
| `ProfitEffects.BillEarns` | src/finance/finance.service.ts:1190-1200 | one more bill raises net profit by its total if it is of a branch and a day of the report |
| `ProfitEffects.EntryEarnsOrCosts` | src/finance/finance.service.ts:1216-1245 | one more posted manual entry raises or lowers net profit by its amount, by its kind |
| `ProfitEffects.StockRowCosts` | src/finance/finance.service.ts:1261-1283 | what one more stock row adds to cost of goods sold and to waste, at its own price or else its ingredient's |
| `ProfitEffects.StockRowMovesProfit` | src/finance/finance.service.ts:1261-1283 | selling or wasting stock lowers net profit by its value, and a reversal gives that back |
| `Finance.TenantIsItsBranches` | src/finance/finance.service.ts:161-194 | the tenant's net profit is the sum of its branch rollups less exactly the branch-less payroll and ledger rows |
| `Finance.RangesHaveDays` | src/finance/finance.service.ts:2071-2096 | every resolved range has days: 1, 7 or 30 ending at the anchor, or everything between two given dates in either order |
| `FinanceServices.ComputeCore` | src/finance/finance.service.ts:1061-1463 | the loops with their per-day maps compute the specified totals and series, and the series adds up to the total |
| `FinanceServices.BucketsByIngredient` | src/finance/finance.service.ts:680-686 | one bucket object per ingredient met, none shared, each holding the sums of its own entries |
| `FinanceServices.ComputeIngredientMovements` | src/finance/finance.service.ts:624-725 | the loops compute the specified movements report, without the rows that open at nothing and net to nothing |
| `FinanceServices.TallyDays` | src/finance/finance.service.ts:818-850 | a zero row for every day of the range, and every entry added to its own day |
| `FinanceServices.ComputeIngredientUsage` | src/finance/finance.service.ts:727-951 | the loops compute the specified movement and running-balance series of one ingredient |
| `Archive.SplitsBackIff` | src/backup/tenant-restorer.service.ts:68-81 | splitting an exported archive gives back BEGIN, the INSERT lines in order and COMMIT if and only if no INSERT line holds a line break |
| `Archive.StatementsCount` | src/backup/tenant-exporter.service.ts:144-160 | so there are two statements more than exported rows |
| `Archive.ChunksCount` | src/backup/tenant-exporter.service.ts:68-87 | each table the footer counts adds two lines to its rows, and an empty table adds none |
| `Archive.StatementsHaveNoBreak` | src/backup/tenant-restorer.service.ts:72-81 | no statement the splitter returns holds a line break |
| `SqlReader.ValueReads` | src/backup/tenant-exporter.service.ts:55-66 | a printed value reads back as itself, whatever quotes, commas, parentheses or semicolons it holds |
| `SqlReader.ValuesRead` | src/backup/tenant-exporter.service.ts:76-84 | the VALUES list of an INSERT line reads back as the row's values |
| `SqlReader.LineReadsBack` | src/backup/tenant-exporter.service.ts:68-87 | an INSERT line reads back as the upsert of the row it was printed from |
| `Archive.AssignsAllButId` | src/backup/tenant-exporter.service.ts:79-84 | the conflict clause assigns every column but the id from the archived row, once and in order |
| `Restore.ReplayRestores` | src/backup/tenant-restorer.service.ts:84-93 | from any later database, every archived row is stored again in every archived column |
| `Restore.ReplaySparesOthers` | src/backup/tenant-restorer.service.ts:84-93 | rows under other ids stay as they are, and none appear |
| `Restore.ReplaySparesColumns` | src/backup/tenant-exporter.service.ts:79-84 | columns the archive does not have stay as they are |
| `Restore.ReplayIsIdentity` | src/backup/tenant-restorer.service.ts:84-93 | replaying rows that are all there changes nothing |
| `Restore.ReplayIsIdempotent` | src/backup/tenant-restorer.service.ts:84-93 | restoring twice is restoring once |
| `Restore.ArchiveRestores` | src/backup/tenant-restorer.service.ts:68-104 | executing the text of an archive replays exactly its rows and reports two statements more than rows |
| `Restore.RestoresAllOrNothing` | src/backup/tenant-restorer.service.ts:84-104 | a restore succeeds exactly when every statement executes in turn, and otherwise leaves the database as it was |
| `Restore.BackupBringsBack` | src/backup/tenant-restorer.service.ts:68-104 | from text to database: an archive restores its rows into any later state and changes nothing on its source |
| `BackupServices.TenantExporter.AppendTableInserts` | src/backup/tenant-exporter.service.ts:68-87 | pushes the chunks of one table and counts its rows; nothing for an empty table |
| `BackupServices.TenantExporter.ExportTenantData` | src/backup/tenant-exporter.service.ts:144-160 | the pushed chunks join to the specified archive, with its counts |
| `BackupServices.TenantRestorer.SplitStatements` | src/backup/tenant-restorer.service.ts:68-81 | the line loop computes the specified statements |
| `BackupServices.TenantRestorer.RestoreFromArchive` | src/backup/tenant-restorer.service.ts:84-104 | all statements in order, or none if one fails |
| `BackupCron.BackupCronService.EvaluateSchedule` | src/backup/backup.cron.ts:48-94 | one tick: runs, and remembers day and hour, exactly as the schedule says |
| `BackupCron.RunsIffMarkDiffers` | src/backup/backup.cron.ts:69-94 | a due tick runs exactly when the last run left another mark |
| `BackupCron.NeighboursDiffer` | src/backup/backup.cron.ts:73-87 | neighbouring due slots leave different marks, over month and year ends too |
| `BackupCron.AtMostOncePerSlot` | src/backup/backup.cron.ts:69-94 | with ordered ticks, at most one run per calendar day, Sunday or due hour, whatever ticks were missed |
| `BackupCron.FirstTickRuns` | src/backup/backup.cron.ts:11-12 | from a fresh start, if no due slot goes without a tick, exactly the first tick of each due slot runs |
| `BackupCron.RunsIffLatestDiffers` | src/backup/backup.cron.ts:69-94 | with slots missed, a due tick runs exactly when its mark differs from that of the due tick before it |
| `BackupCron.OutageLosesARun` | src/backup/backup.cron.ts:73 | a daily run is lost when the last due tick was a month earlier on the same day of the month |
| `Calendar.DayOfMonthMovesOn` | src/backup/backup.cron.ts:58 | within 28 days no day of the month comes round again |

## Left out

- Controllers, authentication, permissions and ownership of a table or bill: the model lets any user issue any command, so it has more runs than the code.
- Prisma, PostgreSQL, gzip, JSON printing and SHA-256: tables are sequences and maps, a transaction is an atomic step, the hash is injective.
- The transfer verification service: its verified amount and reference are inputs; its refusals (not verified, used before, too old) only remove runs. References are taken trimmed, upper-cased and not blank.
- BillingServices.BillingService.PayTransfer: asks that references agree, which every run keeps (Protocol.RunKeepsConsistent), because with disagreeing rows the lookup's choice is not determined.
- BillingServices.BillingService.Settle: does not model a transaction interrupted half way; it is one atomic step.
- Interleaving of commands other than payments: they check their guards outside their transaction without a compare-and-set, and are meant one at a time.
- Stored answers of commands other than payments: a replay only returns the stored answer.
- Room bills, room requests and room orders: rooms only count as blockers of a day here. Bill numbers, receipts, names, menus and notifications.
- DailyClose.HardBlockersDecide: has no pending-transfer blocker, because no command writes a payment that is not SETTLED, and keys rows by business date, so the time-of-day clauses and the shifts that clocked in on another date are not modelled.
- DailyCloseServices.DailyCloseService.WaiterLineForShift, DayCash and BuildTotals: key rows by business date, without the time-of-day clauses of the snapshot (`settledAt`, `initiatedAt`, `clockInAt` within the day).
- Snapshot figures that only add easy sums: order value, cancelled value, kitchen ticket value, station lines and counts.
- Shift, handover, reconciliation, order, QR, room and inventory services: their effects on the rows read here are the environment steps of `Protocol.Outside`; stock reversals of cancelled tickets are not part of this model.
- Seating.GenerateKeeps: does not promise that a line keeps matching its item, because a dish may be changed after its bill is generated; Runs.LinesAreSnapshots says what the line keeps.
- Row caps (`take: 200`, `take: 2000`), floating point and rounding to two or four digits.
- Finance breakdowns by category, vendor, menu item and location, percentages, stock on hand and the entry list; cancelled bills (no command here cancels one).
- `previewArchive` and the header checks of the restorer (marker text, tenant id): regular expressions over the text.
- Archive.SplitsBackIff: supposes header fields without line breaks; driver-specific value types and the order foreign keys need are not modelled.
- Restore.ArchiveRestores: BEGIN and COMMIT inside the archive are no-ops of the restore's own transaction.
- Locale formatting of the hour: the scheduler takes day number and hour 0 to 23 as inputs, with fixed settings and a send hour below 24 as the settings validator demands.
- Biometrics, feedback, audit listing, catalog, branches, floor layout, assistants and seed data.
