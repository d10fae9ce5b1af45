/** When each command goes through, and what it answers with. */
module Guards {
  import opened Sums
  import opened Records
  import opened Billing
  import opened FloorPlan
  import opened Seating
  import opened Protocol

  // ---- sessions ----------------------------------------------------------

  /** Whatever is ordered in the session, is not cancelled and is in one of the states. */
  ghost predicate Holds(items: seq<Item>, session: Id, states: set<ItemState>)
  {
    exists i | 0 <= i < |items| ::
      items[i].session == session && !items[i].cancelled && items[i].state !in states
  }

  lemma SelectedIff(items: seq<Item>, p: Item -> bool)
    ensures Positions(items, p) != [] <==> exists i | 0 <= i < |items| :: p(items[i])
  {
    if Positions(items, p) != [] { assert p(items[Positions(items, p)[0]]); }
  }

  lemma OwesIff(items: seq<Item>, session: Id)
    ensures Positions(items, OwedBy(session)) != [] <==> Holds(items, session, {Cancelled})
  {
    SelectedIff(items, OwedBy(session));
    forall i | 0 <= i < |items|
      ensures OwedBy(session)(items[i])
              <==> items[i].session == session && !items[i].cancelled && items[i].state !in {Cancelled}
    {
    }
  }

  lemma InServiceIff(state: ItemState)
    ensures InService(state) <==> state !in {Cancelled, Confirmed, Delayed, ChangeRequested, CancellationRequested}
  {
    match state { case _ => }
  }

  lemma LiveIff(items: seq<Item>, session: Id)
    ensures Positions(items, LiveIn(session)) != []
            <==> Holds(items, session, {Cancelled, Confirmed, Delayed, ChangeRequested, CancellationRequested})
  {
    SelectedIff(items, LiveIn(session));
    forall i | 0 <= i < |items|
      ensures LiveIn(session)(items[i])
              <==> items[i].session == session && !items[i].cancelled
                   && items[i].state !in {Cancelled, Confirmed, Delayed, ChangeRequested, CancellationRequested}
    {
      InServiceIff(items[i].state);
    }
  }

  /** A table of the branch can be opened exactly while nobody sits at it and it is not archived. */
  lemma StartsIff(db: Db, c: Context, today: int, table: Id, asCallPickup: bool)
    requires TablesAgree(db.floor.sessions, db.floor.tables)
    ensures var (after, outcome) := StartSession(db, c, today, table, asCallPickup);
      && (outcome.Done? <==>
            && table < |db.floor.tables| && db.floor.tables[table].branch == c.branch && !db.floor.tables[table].archived
            && db.floor.tables[table].status != Occupied
            && forall s | 0 <= s < |db.floor.sessions| && db.floor.sessions[s].table == table ::
                 db.floor.sessions[s].closedAt.Some?)
      && (outcome.Done? ==>
            && outcome.answer.session == |db.floor.sessions| < |after.floor.sessions|
            && outcome.answer.sessionRow == after.floor.sessions[|db.floor.sessions|]
            && outcome.answer.sessionRow.branch == c.branch && outcome.answer.sessionRow.date == today
            && outcome.answer.sessionRow.table == table && outcome.answer.sessionRow.status == Open
            && outcome.answer.sessionRow.closedAt == None && outcome.answer.sessionRow.version == 1
            && after.floor.tables[table].status == Occupied
            && (outcome.answer.sessionRow.kind == CallPickup <==> asCallPickup || db.floor.tables[table].callPickup)
            && (outcome.answer.sessionRow.kind == DineIn <==> !asCallPickup && !db.floor.tables[table].callPickup))
  {
    forall s | 0 <= s < |db.floor.sessions| ensures IsOpen(db.floor.sessions[s]) <==> db.floor.sessions[s].closedAt.None? {
      assert SessionFits(db.floor.sessions[s], db.floor.tables);
    }
  }

  ghost predicate Closable(db: Db, c: Context, session: Id, expected: int)
  {
    && session < |db.floor.sessions| && db.floor.sessions[session].branch == c.branch
    && db.floor.sessions[session].table < |db.floor.tables|
    && db.floor.sessions[session].closedAt.None? && db.floor.sessions[session].status != Closed
    && db.floor.sessions[session].version == expected
  }

  /** A session closes once it is paid or owes nothing; its table is free again, and a paid session's bill is archived. */
  lemma ClosesIff(db: Db, c: Context, now: int, session: Id, expected: int)
    ensures var (after, outcome) := CloseSession(db, c, now, session, expected);
      && (outcome.Done? <==>
            Closable(db, c, session, expected)
            && (db.floor.sessions[session].status == Paid || !Holds(db.floor.items, session, {Cancelled})))
      && (outcome.Done? ==>
            && outcome.answer == SessionAnswer(session, after.floor.sessions[session])
            && LeftClosed(db, after, session, now, db.floor.sessions[session].status == Paid))
  {
    OwesIff(db.floor.items, session);
  }

  /** The session is closed now, its table is free, and its PAID bills are archived if `archive` says so. */
  ghost predicate LeftClosed(db: Db, after: Db, session: Id, now: int, archive: bool)
    requires session < |db.floor.sessions| && db.floor.sessions[session].table < |db.floor.tables|
  {
    && |after.floor.sessions| == |db.floor.sessions| && |after.floor.tables| == |db.floor.tables|
    && |after.billing.bills| == |db.billing.bills|
    && after.floor.sessions[session].status == Closed && after.floor.sessions[session].closedAt == Some(now)
    && after.floor.tables[db.floor.sessions[session].table].status == Available
    && (forall b | 0 <= b < |db.billing.bills| ::
          after.billing.bills[b].status
          == if archive && db.billing.bills[b].session == session && db.billing.bills[b].status == FullyPaid then Archived
             else db.billing.bills[b].status)
  }

  /**
   A force-close also needs the session to be neither waiting for its bill nor in an active order that still owes;
   items nobody has started do not hold it up.
   */
  lemma ForceClosesIff(db: Db, c: Context, now: int, session: Id, expected: int)
    ensures var (after, outcome) := ForceClose(db, c, now, session, expected);
      && (outcome.Done? <==>
            && Closable(db, c, session, expected)
            && (db.floor.sessions[session].status == Paid
                || !Holds(db.floor.items, session, {Cancelled, Confirmed, Delayed, ChangeRequested, CancellationRequested}))
            && db.floor.sessions[session].status != BillRequested && db.floor.sessions[session].status != BillReady
            && !(db.floor.sessions[session].status == ActiveOrder && Holds(db.floor.items, session, {Cancelled})))
      && (outcome.Done? ==>
            && outcome.answer == SessionAnswer(session, after.floor.sessions[session])
            && LeftClosed(db, after, session, now,
                          db.floor.sessions[session].status == Paid
                          || exists b | 0 <= b < |db.billing.bills| ::
                               db.billing.bills[b].session == session && db.billing.bills[b].status == FullyPaid))
  {
    OwesIff(db.floor.items, session);
    LiveIff(db.floor.items, session);
  }

  // ---- bills -------------------------------------------------------------

  ghost predicate Billed(bills: seq<Bill>, session: Id)
  {
    exists b | 0 <= b < |bills| :: bills[b].session == session
  }

  ghost predicate Asked(requests: seq<BillRequest>, session: Id)
  {
    exists r | 0 <= r < |requests| :: requests[r].session == session && requests[r].status == Pending
  }

  lemma RequestableIff(status: SessionStatus)
    ensures status in REQUESTABLE <==> status !in {BillRequested, BillReady, Paid, Closed}
  {
    match status { case _ => }
  }

  /** A bill can be asked for once, for a session that owes something and has neither asked nor been billed yet. */
  lemma AsksIff(db: Db, c: Context, session: Id, expected: int)
    ensures var (after, outcome) := RequestBill(db, c, session, expected);
      && (outcome.Done? <==>
            && session < |db.floor.sessions| && db.floor.sessions[session].branch == c.branch
            && db.floor.sessions[session].version == expected
            && db.floor.sessions[session].status !in {BillRequested, BillReady, Paid, Closed}
            && !Billed(db.billing.bills, session) && !Asked(db.floor.requests, session)
            && Holds(db.floor.items, session, {Cancelled}))
      && (outcome.Done? ==>
            outcome.answer == RequestAnswer(|db.floor.requests|, Pending, BillRequested,
                                            db.floor.sessions[session].version + 1))
  {
    OwesIff(db.floor.items, session);
    if session < |db.floor.sessions| { RequestableIff(db.floor.sessions[session].status); }
  }

  /** A pending request can be withdrawn, and no other. */
  lemma WithdrawsIff(db: Db, c: Context, request: Id)
    ensures var (after, outcome) := CancelRequest(db, c, request);
      && (outcome.Done? <==>
            && request < |db.floor.requests| && db.floor.requests[request].branch == c.branch
            && db.floor.requests[request].session < |db.floor.sessions| && db.floor.requests[request].status == Pending)
      && (outcome.Done? ==>
            var session := after.floor.sessions[db.floor.requests[request].session];
            outcome.answer == RequestAnswer(request, Withdrawn, session.status, session.version))
  {
  }

  /** A pending request becomes a bill of its session's day if the session has none yet and owes something. */
  lemma GeneratesIff(db: Db, c: Context, request: Id, expected: int)
    ensures var (after, outcome) := GenerateBill(db, c, request, expected);
      && (outcome.Done? || outcome == Refused(CheckViolated) <==>
            && request < |db.floor.requests| && db.floor.requests[request].branch == c.branch
            && db.floor.requests[request].status == Pending
            && var session := db.floor.requests[request].session;
            && session < |db.floor.sessions| && db.floor.sessions[session].version == expected
            && !Billed(db.billing.bills, session) && Holds(db.floor.items, session, {Cancelled}))
      && (outcome.Done? ==>
            var session, bill := db.floor.requests[request].session, outcome.answer.billRow;
            && outcome.answer.bill == |db.billing.bills| && after.billing.bills == db.billing.bills + [bill]
            && bill == Bill(c.branch, db.floor.sessions[session].date, session, Generated, bill.total, 0, 1)
            && after.floor.sessions[session].status == BillReady && after.floor.requests[request].status == Fulfilled)
  {
    if request < |db.floor.requests| { OwesIff(db.floor.items, db.floor.requests[request].session); }
  }

  /** A counter sale's bill is of the day it is rung up. */
  lemma SaleIsToday(db: Db, c: Context, now: int, today: int, table: Id, sale: seq<SaleLine>)
    requires CounterSale(db, c, now, today, table, sale).1.Done?
    ensures var (after, outcome) := CounterSale(db, c, now, today, table, sale);
      var session, bill := |db.floor.sessions|, outcome.answer.billRow;
      && outcome.answer.bill == |db.billing.bills| && after.billing.bills == db.billing.bills + [bill]
      && bill == Bill(c.branch, today, session, Generated, bill.total, 0, 1)
      && after.floor.sessions[session] == Session(c.branch, table, today, Counter, Open, None, 1)
      && (forall s | 0 <= s < session && db.floor.sessions[s].table == table && db.floor.sessions[s].closedAt.None?
                     && db.floor.sessions[s].status != Closed ::
            after.floor.sessions[s].status == Closed && after.floor.sessions[s].closedAt == Some(now))
      && (forall s | 0 <= s < session && db.floor.sessions[s].table != table ::
            after.floor.sessions[s] == db.floor.sessions[s])
  {
  }

  // ---- payments ----------------------------------------------------------

  /** A payment of an unused key loads a bill of its branch that still owes its amount, on a day that is not locked. */
  lemma LoadsIff(db: Db, r: PayRequest)
    requires KeyOf(r) !in db.idempotency
    ensures LoadPayment(db, r).Proceed? <==>
      && r.body.bill < |db.billing.bills|
      && var bill := db.billing.bills[r.body.bill];
      && bill.branch == r.context.branch && bill.status != FullyPaid && bill.status != Archived
      && !DayLocked(db.closes, bill.branch, bill.date)
      && 0 < r.body.amount && bill.amountPaid + r.body.amount <= bill.total
      && (r.body.CashPayment? ==> r.body.tendered >= r.body.amount)
      && (r.body.TransferPayment? && r.verdict.Verified? ==> r.verdict.amount >= r.body.amount)
      && (ReferenceOf(r).Some? && ReferenceKnown(db.billing.references, ReferenceOf(r).value) ==>
            FindReference(db.billing.references, ReferenceOf(r).value) == r.body.bill)
  {
  }

  /** Keys are kept apart by user and by method of payment. */
  lemma KeysApart(a: PayRequest, b: PayRequest)
    ensures KeyOf(a) == KeyOf(b)
            <==> a.context.user == b.context.user && a.key == b.key
                 && (a.body.CashPayment? <==> b.body.CashPayment?)
  {
  }

  /** A transfer is recorded under the reference the bank verified, or else the one typed; cash under none. */
  lemma CommitAudits(db: Db, r: PayRequest, snapshot: Bill, now: int)
    requires CommitPayment(db, r, snapshot, now).1.Done?
    ensures var before, after := db.billing.audits, CommitPayment(db, r, snapshot, now).0.billing.audits;
      && (r.body.CashPayment? ==> after == before)
      && (r.body.TransferPayment? && r.verdict.Verified? && r.verdict.reference.Some? ==>
            after == before + [TransferAudit(|db.billing.payments|, r.body.bill, r.verdict.reference.value)])
      && (r.body.TransferPayment? && !(r.verdict.Verified? && r.verdict.reference.Some?) && r.body.typedReference.Some? ==>
            after == before + [TransferAudit(|db.billing.payments|, r.body.bill, r.body.typedReference.value)])
      && (r.body.TransferPayment? && !(r.verdict.Verified? && r.verdict.reference.Some?) && r.body.typedReference.None? ==>
            after == before)
  {
  }

  /** A payment in full closes a counter session if it is cash and marks any other PAID; a part leaves the session. */
  lemma CommitSeats(db: Db, r: PayRequest, snapshot: Bill, now: int)
    requires CommitPayment(db, r, snapshot, now).1.Done?
    ensures var row := db.floor.sessions[snapshot.session];
      var after := CommitPayment(db, r, snapshot, now).0.floor.sessions[snapshot.session];
      var full := snapshot.amountPaid + r.body.amount >= snapshot.total;
      && (!full ==> after == row)
      && (full && r.body.CashPayment? && row.kind == Counter ==>
            after == row.(status := Closed, closedAt := Some(now), version := row.version + 1))
      && (full && !(r.body.CashPayment? && row.kind == Counter) ==>
            after == row.(status := Paid, version := row.version + 1))
  {
  }

  // ---- accounts off shift ------------------------------------------------

  /** An account without an open shift in its branch can close tables, generate bills and end the day, and no more. */
  lemma OffShiftIsRefused(db: Db, act: Act)
    requires !OnShift(db, act.context)
    requires !act.command.CloseTable? && !act.command.ForceCloseTable? && !act.command.Generate?
    requires !act.command.CreateDay? && !act.command.RefreshDay? && !act.command.ApproveDay? && !act.command.LockDay?
    requires !act.command.FromOutside?
    ensures Apply(db, act) == (db, Refused(NotFound))
  {
  }
}
