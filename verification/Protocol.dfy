/** The whole settlement protocol, one command at a time: what every run keeps, and what a locked day freezes. */
module Protocol {
  import opened Sums
  import opened Records
  import opened Billing
  import opened FloorPlan
  import opened CashCustody
  import opened DailyClose
  import opened Settlement
  import opened Seating
  import opened DoubleEntry

  // ---- commands ----------------------------------------------------------

  /**
   What other services do to the rows read here: orders and their items, shifts and drawers, guests seated by a
   scanned code, tables handed over or closed when a shift is clocked out, rooms, and other ledger entries.
   */
  datatype Outside =
    | AddTable(tableRow: Table)
    | AddOrder(session: Id, ordered: seq<Item>)
    | MoveItem(item: Id, state: ItemState, cancelled: bool)
    | ChangeDish(item: Id, unitPrice: int)
    | ReopenEmptied(session: Id)
    | SeatByCode(table: Id, date: int)
    | HandOver(session: Id)
    | CloseWithShift(session: Id, now: int)
    | SetRooms(rooms: seq<Room>)
    | OpenShift(shiftRow: Shift)
    | OpenDrawer(drawerRow: Drawer)
    | SetDrawer(drawer: Id, open: bool, reconciliation: Option<Reconciliation>)
    | Post(entry: Entry)

  datatype Command =
    | StartTable(table: Id, asCallPickup: bool)
    | CloseTable(session: Id, expected: int)
    | ForceCloseTable(session: Id, expected: int)
    | Ask(session: Id, expected: int)
    | Withdraw(request: Id)
    | Generate(request: Id, expected: int)
    | SellAtCounter(table: Id, sale: seq<SaleLine>)
    | PayBill(key: string, body: PayBody, verdict: Verdict)
    | Initiate(amount: int)
    | Receive(drop: Id, counted: int, expected: int)
    | Resolve(dispute: Id, how: Resolution)
    | CreateDay(date: int)
    | RefreshDay(date: int)
    | ApproveDay(date: int, expected: int)
    | LockDay(date: int, expected: int)
    | FromOutside(act: Outside)

  predicate NeedsShift(command: Command)
  {
    command.StartTable? || command.SellAtCounter? || command.Ask? || command.Withdraw? || command.PayBill?
    || command.Initiate? || command.Receive? || command.Resolve?
  }

  /** The shift session of an account belongs to the branch it works in. */
  predicate OnShift(db: Db, c: Context)
  {
    c.shift < |db.custody.shifts| && db.custody.shifts[c.shift].branch == c.branch
  }

  /** A session that has nothing left to charge goes back from ACTIVE_ORDER to OPEN. */
  function EmptiedSession(floor: Floor, session: Id): Session
    requires session < |floor.sessions|
  {
    var row := floor.sessions[session];
    if row.status == ActiveOrder && Positions(floor.items, OwedBy(session)) == [] then Restated(row, Open) else row
  }

  function ApplyToFloor(db: Db, act: Outside): Db
  {
    match act
    case AddTable(row) =>
      db.(floor := db.floor.(tables := db.floor.tables + [row]))
    case AddOrder(session, ordered) =>
      if session >= |db.floor.sessions| || exists i | 0 <= i < |ordered| :: ordered[i].session != session then db
      else
        var withStatus := WithSession(db, session, Restated(db.floor.sessions[session], ActiveOrder));
        withStatus.(floor := withStatus.floor.(items := db.floor.items + ordered))
    case MoveItem(item, state, cancelled) =>
      if item >= |db.floor.items| then db
      else db.(floor := db.floor.(
                 items := db.floor.items[item := db.floor.items[item].(state := state, cancelled := cancelled)]))
    case ChangeDish(item, unitPrice) =>
      if item >= |db.floor.items| then db
      else db.(floor := db.floor.(
                 items := db.floor.items[item :=
                   db.floor.items[item].(unitPrice := unitPrice, modifiers := [], state := Queued)]))
    case ReopenEmptied(session) =>
      if session >= |db.floor.sessions| then db
      else WithSession(db, session, EmptiedSession(db.floor, session))
    case SeatByCode(table, date) =>
      if table >= |db.floor.tables| || HasOpenSession(db.floor.sessions, table) then db
      else
        var row := db.floor.tables[table];
        db.(floor := db.floor.(
              sessions := db.floor.sessions + [Session(row.branch, table, date, DineIn, ActiveOrder, None, 1)],
              tables := db.floor.tables[table := row.(status := Occupied)]))
    case HandOver(session) =>
      if session >= |db.floor.sessions| || !IsOpen(db.floor.sessions[session]) then db
      else WithSession(db, session, Restated(db.floor.sessions[session], db.floor.sessions[session].status))
    case CloseWithShift(session, now) =>
      if session >= |db.floor.sessions| || !IsOpen(db.floor.sessions[session])
         || db.floor.sessions[session].table >= |db.floor.tables| then db
      else SessionClosed(db, session, now, false)
    case SetRooms(rooms) => db.(floor := db.floor.(rooms := rooms))
    case _ => db
  }

  function ApplyToCustody(custody: Custody, act: Outside): Custody
  {
    match act
    case OpenShift(row) => custody.(shifts := custody.shifts + [row])
    case OpenDrawer(row) => custody.(drawers := custody.drawers + [row])
    case SetDrawer(drawer, open, reconciliation) =>
      if drawer >= |custody.drawers| then custody
      else custody.(drawers := custody.drawers[drawer :=
                      custody.drawers[drawer].(open := open, reconciliation := reconciliation)])
    case Post(entry) =>
      if entry.source.FromDrop? || entry.entryType in {DropOut, DropIn} then custody
      else custody.(ledger := custody.ledger + [entry])
    case _ => custody
  }

  function ApplyOutside(db: Db, act: Outside): Db
  {
    var after := ApplyToFloor(db, act);
    after.(custody := ApplyToCustody(db.custody, act))
  }

  datatype Act = Act(context: Context, now: int, today: int, command: Command)

  ghost function Apply(db: Db, act: Act): (Db, Outcome)
  {
    var c := act.context;
    if NeedsShift(act.command) && !OnShift(db, c) then (db, Refused(NotFound))
    else
      match act.command
      case StartTable(table, asCallPickup) => StartSession(db, c, act.today, table, asCallPickup)
      case CloseTable(session, expected) => CloseSession(db, c, act.now, session, expected)
      case ForceCloseTable(session, expected) => ForceClose(db, c, act.now, session, expected)
      case Ask(session, expected) => RequestBill(db, c, session, expected)
      case Withdraw(request) => CancelRequest(db, c, request)
      case Generate(request, expected) => GenerateBill(db, c, request, expected)
      case SellAtCounter(table, sale) => CounterSale(db, c, act.now, act.today, table, sale)
      case PayBill(key, body, verdict) => Pay(db, PayRequest(c, key, body, verdict), act.now)
      case Initiate(amount) => InitiateDrop(db, c, amount)
      case Receive(drop, counted, expected) => ReceiveDrop(db, c, drop, counted, expected)
      case Resolve(dispute, how) => ResolveDispute(db, c, dispute, how)
      case CreateDay(date) => CreateClose(db, c, date)
      case RefreshDay(date) => RefreshClose(db, c, date)
      case ApproveDay(date, expected) => ApproveClose(db, c, date, expected)
      case LockDay(date, expected) => LockClose(db, c, date, expected)
      case FromOutside(outside) => (ApplyOutside(db, outside), Done(NoAnswer))
  }

  ghost function Run(db: Db, acts: seq<Act>): Db
  {
    if |acts| == 0 then db else Apply(Run(db, acts[..|acts| - 1]), acts[|acts| - 1]).0
  }

  // ---- the invariant -----------------------------------------------------

  /** While a drop is open, its day is not locked. */
  ghost predicate LocksAgree(drops: seq<Drop>, closes: Closes)
  {
    forall k | 0 <= k < |drops| && drops[k].status != Received :: !DayLocked(closes, drops[k].branch, drops[k].date)
  }

  ghost predicate Consistent(db: Db)
  {
    && BillingAgrees(db.billing)
    && SeatingAgrees(db.floor, db.billing)
    && CashAgrees(db.custody)
    && LocksAgree(db.custody.drops, db.closes)
  }

  ghost predicate Initial(db: Db)
  {
    && db.floor == Floor([], db.floor.tables, [], [], db.floor.rooms)
    && db.billing == BillTables([], [], [], map[], [])
    && db.custody == Custody(db.custody.shifts, [], [], [], db.custody.drawers)
    && db.closes == map[] && db.idempotency == map[]
  }

  lemma InitialConsistent(db: Db)
    requires Initial(db)
    ensures Consistent(db)
  {
  }

  // ---- what each command leaves alone ------------------------------------

  predicate Seats(command: Command) { command.StartTable? || command.Ask? || command.Withdraw? }
  predicate Bills(command: Command)
  {
    command.CloseTable? || command.ForceCloseTable? || command.Generate? || command.SellAtCounter?
    || command.PayBill?
  }
  predicate MovesCash(command: Command) { command.Initiate? || command.Receive? || command.Resolve? }
  predicate EndsDay(command: Command)
  {
    command.CreateDay? || command.RefreshDay? || command.ApproveDay? || command.LockDay?
  }

  lemma SeatsSpare(db: Db, act: Act)
    requires Seats(act.command)
    ensures var after := Apply(db, act).0;
      after.billing == db.billing && after.custody == db.custody && after.closes == db.closes
      && after.idempotency == db.idempotency
  {
  }

  lemma BillsSpare(db: Db, act: Act)
    requires Bills(act.command)
    ensures var after := Apply(db, act).0; after.custody == db.custody && after.closes == db.closes
  {
  }

  lemma CashSpares(db: Db, act: Act)
    requires MovesCash(act.command)
    ensures var after := Apply(db, act).0;
      after.billing == db.billing && after.floor == db.floor && after.closes == db.closes
      && after.idempotency == db.idempotency
  {
  }

  lemma DaySpares(db: Db, act: Act)
    requires EndsDay(act.command)
    ensures var after := Apply(db, act).0;
      after.billing == db.billing && after.custody == db.custody && after.idempotency == db.idempotency
    ensures !act.command.LockDay? ==> Apply(db, act).0.floor == db.floor
  {
  }

  lemma OutsideSpares(db: Db, act: Act)
    requires act.command.FromOutside?
    ensures var after := Apply(db, act).0;
      after.billing == db.billing && after.closes == db.closes && after.idempotency == db.idempotency
    ensures Apply(db, act).0.custody.drops == db.custody.drops
    ensures Apply(db, act).0.custody.disputes == db.custody.disputes
  {
  }

  lemma StepSpares(db: Db, act: Act)
    ensures var after := Apply(db, act).0;
      && (!Bills(act.command) ==> after.billing == db.billing && after.idempotency == db.idempotency)
      && (!MovesCash(act.command) && !act.command.FromOutside? ==> after.custody == db.custody)
      && (!EndsDay(act.command) ==> after.closes == db.closes)
      && (MovesCash(act.command) || (EndsDay(act.command) && !act.command.LockDay?) ==> after.floor == db.floor)
      && (act.command.FromOutside? ==>
            after.custody.drops == db.custody.drops && after.custody.disputes == db.custody.disputes)
  {
    if Seats(act.command) { SeatsSpare(db, act); }
    else if Bills(act.command) { BillsSpare(db, act); }
    else if MovesCash(act.command) { CashSpares(db, act); }
    else if EndsDay(act.command) { DaySpares(db, act); }
    else { OutsideSpares(db, act); }
  }

  // ---- bills: the steps other than payments ------------------------------

  lemma ArchiveKeepsBills(bills: seq<Bill>, payments: seq<Payment>, session: Id)
    requires BillsAgree(bills, payments)
    ensures BillsAgree(ArchivePaid(bills, session), payments)
  {
    var after := ArchivePaid(bills, session);
    forall b | 0 <= b < |bills| ensures BillAgrees(after[b], SettledOn(payments, b)) {
      assert BillAgrees(bills[b], SettledOn(payments, b));
    }
    forall i | 0 <= i < |payments| ensures PaymentPlaced(payments[i], after) {
      assert PaymentPlaced(payments[i], bills);
    }
  }

  lemma CloseKeepsBills(db: Db, c: Context, now: int, session: Id, expected: int)
    requires BillsAgree(db.billing.bills, db.billing.payments)
    ensures var after := CloseSession(db, c, now, session, expected).0.billing; BillsAgree(after.bills, after.payments)
    ensures var after := ForceClose(db, c, now, session, expected).0.billing; BillsAgree(after.bills, after.payments)
  {
    ArchiveKeepsBills(db.billing.bills, db.billing.payments, session);
  }

  lemma GenerateKeepsBills(db: Db, c: Context, request: Id, expected: int)
    requires BillsAgree(db.billing.bills, db.billing.payments)
    ensures var after := GenerateBill(db, c, request, expected).0.billing; BillsAgree(after.bills, after.payments)
  {
    if GenerateBill(db, c, request, expected).1.Done? {
      NewBillAgrees(db.billing.bills, db.billing.payments, GenerateBill(db, c, request, expected).1.answer.billRow);
    }
  }

  lemma SaleKeepsBills(db: Db, c: Context, now: int, today: int, table: Id, sale: seq<SaleLine>)
    requires BillsAgree(db.billing.bills, db.billing.payments)
    ensures var after := CounterSale(db, c, now, today, table, sale).0.billing; BillsAgree(after.bills, after.payments)
  {
    if CounterSale(db, c, now, today, table, sale).1.Done? {
      NewBillAgrees(db.billing.bills, db.billing.payments,
                    CounterSale(db, c, now, today, table, sale).1.answer.billRow);
    }
  }

  /** Commands other than payments keep every bill equal to its settled payments. */
  lemma OthersKeepBills(db: Db, act: Act)
    requires BillsAgree(db.billing.bills, db.billing.payments) && !act.command.PayBill?
    ensures var after := Apply(db, act).0.billing; BillsAgree(after.bills, after.payments)
  {
    StepSpares(db, act);
    var c := act.context;
    match act.command {
      case CloseTable(session, expected) => CloseKeepsBills(db, c, act.now, session, expected);
      case ForceCloseTable(session, expected) => CloseKeepsBills(db, c, act.now, session, expected);
      case Generate(request, expected) => GenerateKeepsBills(db, c, request, expected);
      case SellAtCounter(table, sale) => SaleKeepsBills(db, c, act.now, act.today, table, sale);
      case _ =>
    }
  }

  /** What commands other than payments may do to bills: add new ones, and archive paid ones. */
  ghost predicate BillsMoveOn(before: BillTables, after: BillTables)
  {
    && |before.bills| <= |after.bills|
    && (forall b | 0 <= b < |before.bills| ::
          after.bills[b] == before.bills[b] || after.bills[b] == ArchiveIfPaid(before.bills[b], before.bills[b].session))
    && after.payments == before.payments && after.references == before.references && after.audits == before.audits
  }

  lemma ClosingsMoveOn(db: Db, act: Act)
    requires act.command.CloseTable? || act.command.ForceCloseTable?
    ensures BillsMoveOn(db.billing, Apply(db, act).0.billing)
    ensures Apply(db, act).0.idempotency == db.idempotency
  {
  }

  lemma GenerateMovesOn(db: Db, act: Act)
    requires act.command.Generate?
    ensures BillsMoveOn(db.billing, Apply(db, act).0.billing)
    ensures Apply(db, act).0.idempotency == db.idempotency
  {
  }

  lemma SaleMovesOn(db: Db, act: Act)
    requires act.command.SellAtCounter?
    ensures BillsMoveOn(db.billing, Apply(db, act).0.billing)
    ensures Apply(db, act).0.idempotency == db.idempotency
  {
  }

  lemma OtherBillsMoveOn(db: Db, act: Act)
    requires Bills(act.command) && !act.command.PayBill?
    ensures BillsMoveOn(db.billing, Apply(db, act).0.billing)
    ensures Apply(db, act).0.idempotency == db.idempotency
  {
    if act.command.CloseTable? || act.command.ForceCloseTable? {
      ClosingsMoveOn(db, act);
    } else if act.command.Generate? {
      GenerateMovesOn(db, act);
    } else {
      SaleMovesOn(db, act);
    }
  }

  lemma OthersMoveOn(db: Db, act: Act)
    requires !act.command.PayBill?
    ensures BillsMoveOn(db.billing, Apply(db, act).0.billing)
  {
    if Bills(act.command) { OtherBillsMoveOn(db, act); } else { StepSpares(db, act); }
  }

  lemma StepKeepsBilling(db: Db, act: Act)
    requires BillingAgrees(db.billing)
    ensures BillingAgrees(Apply(db, act).0.billing)
  {
    if act.command.PayBill? {
      PayKeepsBilling(db, PayRequest(act.context, act.command.key, act.command.body, act.command.verdict), act.now);
    } else {
      OthersKeepBills(db, act);
      OthersMoveOn(db, act);
    }
  }

  // ---- seating -----------------------------------------------------------

  lemma ItemsOutsideKeepSeating(db: Db, act: Outside)
    requires SeatingAgrees(db.floor, db.billing)
    requires act.AddOrder? || act.MoveItem? || act.ChangeDish?
    ensures SeatingAgrees(ApplyToFloor(db, act).floor, db.billing)
  {
    match act {
      case AddOrder(session, ordered) =>
        if session < |db.floor.sessions| {
          RestateKeeps(db.floor.sessions, db.floor.tables, db.billing.bills, session, ActiveOrder);
          MoreItemsKeepLines(db.billing.bills, db.billing.lines, db.floor.items, ordered);
        }
      case MoveItem(item, state, cancelled) =>
        if item < |db.floor.items| {
          ItemsRestatedKeepLines(db.billing.bills, db.billing.lines, db.floor.items, ApplyToFloor(db, act).floor.items);
        }
      case ChangeDish(item, unitPrice) =>
        if item < |db.floor.items| {
          ItemsRestatedKeepLines(db.billing.bills, db.billing.lines, db.floor.items, ApplyToFloor(db, act).floor.items);
        }
    }
  }

  lemma SessionsOutsideKeepSeating(db: Db, act: Outside)
    requires SeatingAgrees(db.floor, db.billing)
    requires act.ReopenEmptied? || act.HandOver? || act.CloseWithShift?
    ensures SeatingAgrees(ApplyToFloor(db, act).floor, ApplyToFloor(db, act).billing)
  {
    if act.session < |db.floor.sessions| {
      var row := db.floor.sessions[act.session];
      if act.ReopenEmptied? {
        RestateKeeps(db.floor.sessions, db.floor.tables, db.billing.bills, act.session, Open);
      } else if IsOpen(row) && act.HandOver? {
        RestateKeeps(db.floor.sessions, db.floor.tables, db.billing.bills, act.session, row.status);
      } else if IsOpen(row) && act.CloseWithShift? && row.table < |db.floor.tables| {
        SessionClosedKeeps(db, act.session, act.now, false);
      }
    }
  }

  lemma SeatByCodeKeeps(db: Db, table: Id, date: int)
    requires SeatingAgrees(db.floor, db.billing)
    ensures SeatingAgrees(ApplyToFloor(db, SeatByCode(table, date)).floor, db.billing)
  {
    var after := ApplyToFloor(db, SeatByCode(table, date)).floor;
    forall s | 0 <= s < |after.sessions| ensures SessionFits(after.sessions[s], after.tables) {
      if s < |db.floor.sessions| { assert SessionFits(db.floor.sessions[s], db.floor.tables); }
    }
  }

  lemma OutsideKeepsSeating(db: Db, act: Outside)
    requires SeatingAgrees(db.floor, db.billing)
    ensures SeatingAgrees(ApplyOutside(db, act).floor, ApplyOutside(db, act).billing)
  {
    match act {
      case AddTable(row) =>
        forall s | 0 <= s < |db.floor.sessions|
          ensures SessionFits(db.floor.sessions[s], db.floor.tables + [row])
        {
          assert SessionFits(db.floor.sessions[s], db.floor.tables);
        }
      case SeatByCode(table, date) => SeatByCodeKeeps(db, table, date);
      case _ =>
        if act.AddOrder? || act.MoveItem? || act.ChangeDish? { ItemsOutsideKeepSeating(db, act); }
        if act.ReopenEmptied? || act.HandOver? || act.CloseWithShift? { SessionsOutsideKeepSeating(db, act); }
    }
  }

  lemma LockKeepsSeating(db: Db, c: Context, date: int, expected: int)
    requires SeatingAgrees(db.floor, db.billing)
    ensures var after := LockClose(db, c, date, expected).0; SeatingAgrees(after.floor, after.billing)
  {
    AbandonKeeps(db, c.branch);
  }

  lemma PayKeepsSeating(db: Db, r: PayRequest, now: int)
    requires SeatingAgrees(db.floor, db.billing)
    ensures var after := Pay(db, r, now).0; SeatingAgrees(after.floor, after.billing)
  {
    if LoadPayment(db, r).Proceed? {
      LoadedFits(db, r);
      CommitKeepsSeating(db, r, LoadPayment(db, r).bill, now);
    }
  }

  lemma SeatsKeepSeating(db: Db, act: Act)
    requires SeatingAgrees(db.floor, db.billing) && Seats(act.command)
    ensures SeatingAgrees(Apply(db, act).0.floor, Apply(db, act).0.billing)
  {
    var c := act.context;
    match act.command {
      case StartTable(table, asCallPickup) => StartKeeps(db, c, act.today, table, asCallPickup);
      case Ask(session, expected) => RequestKeeps(db, c, session, expected);
      case Withdraw(request) => CancelKeeps(db, c, request);
    }
  }

  lemma ClosingsKeepSeating(db: Db, act: Act)
    requires SeatingAgrees(db.floor, db.billing)
    requires act.command.CloseTable? || act.command.ForceCloseTable?
    ensures SeatingAgrees(Apply(db, act).0.floor, Apply(db, act).0.billing)
  {
    CloseSessionKeeps(db, act.context, act.now, act.command.session, act.command.expected);
  }

  lemma NewBillsKeepSeating(db: Db, act: Act)
    requires SeatingAgrees(db.floor, db.billing)
    requires act.command.Generate? || act.command.SellAtCounter?
    ensures SeatingAgrees(Apply(db, act).0.floor, Apply(db, act).0.billing)
  {
    match act.command {
      case Generate(request, expected) => GenerateKeeps(db, act.context, request, expected);
      case SellAtCounter(table, sale) => CounterSaleKeeps(db, act.context, act.now, act.today, table, sale);
    }
  }

  lemma BillsKeepSeating(db: Db, act: Act)
    requires SeatingAgrees(db.floor, db.billing) && Bills(act.command)
    ensures SeatingAgrees(Apply(db, act).0.floor, Apply(db, act).0.billing)
  {
    if act.command.PayBill? {
      PayKeepsSeating(db, PayRequest(act.context, act.command.key, act.command.body, act.command.verdict), act.now);
    } else if act.command.CloseTable? || act.command.ForceCloseTable? {
      ClosingsKeepSeating(db, act);
    } else {
      NewBillsKeepSeating(db, act);
    }
  }

  lemma StepKeepsSeating(db: Db, act: Act)
    requires SeatingAgrees(db.floor, db.billing)
    ensures SeatingAgrees(Apply(db, act).0.floor, Apply(db, act).0.billing)
  {
    if Seats(act.command) {
      SeatsKeepSeating(db, act);
    } else if Bills(act.command) {
      BillsKeepSeating(db, act);
    } else if act.command.LockDay? {
      LockKeepsSeating(db, act.context, act.command.date, act.command.expected);
    } else if act.command.FromOutside? {
      OutsideKeepsSeating(db, act.command.act);
    } else {
      StepSpares(db, act);
    }
  }

  // ---- cash --------------------------------------------------------------

  lemma OutsideKeepsCash(db: Db, outside: Outside)
    requires CashAgrees(db.custody)
    ensures CashAgrees(ApplyOutside(db, outside).custody)
  {
    match outside {
      case OpenDrawer(row) => MoreDrawersKeep(db.custody, db.custody.drawers + [row]);
      case SetDrawer(drawer, _, _) =>
        if drawer < |db.custody.drawers| {
          MoreDrawersKeep(db.custody, ApplyOutside(db, outside).custody.drawers);
        }
      case Post(entry) =>
        if ApplyToCustody(db.custody, outside) != db.custody { PostKeeps(db.custody, entry); }
      case _ =>
    }
  }

  lemma InitiateStepKeeps(db: Db, act: Act)
    requires CashAgrees(db.custody) && act.command.Initiate?
    ensures CashAgrees(Apply(db, act).0.custody)
  {
    InitiateKeeps(db, act.context, act.command.amount);
    assert Apply(db, act).0 == db || Apply(db, act) == InitiateDrop(db, act.context, act.command.amount);
  }

  lemma ReceiveStepKeeps(db: Db, act: Act)
    requires CashAgrees(db.custody) && act.command.Receive?
    ensures CashAgrees(Apply(db, act).0.custody)
  {
    var c, drop, counted, expected := act.context, act.command.drop, act.command.counted, act.command.expected;
    ReceiveKeeps(db, c, drop, counted, expected);
    assert Apply(db, act).0 == db || Apply(db, act) == ReceiveDrop(db, c, drop, counted, expected);
  }

  lemma ResolveIsApplied(db: Db, act: Act)
    requires act.command.Resolve?
    ensures Apply(db, act).0 == db
      || Apply(db, act) == ResolveDispute(db, act.context, act.command.dispute, act.command.how)
  {
  }

  lemma ResolveStepKeeps(db: Db, act: Act)
    requires CashAgrees(db.custody) && act.command.Resolve?
    ensures CashAgrees(Apply(db, act).0.custody)
  {
    var end := Apply(db, act).0;
    ResolveIsApplied(db, act);
    ResolveKeeps(db, act.context, act.command.dispute, act.command.how);
    assert CashAgrees(end.custody);
  }

  lemma StepKeepsCash(db: Db, act: Act)
    requires CashAgrees(db.custody)
    ensures CashAgrees(Apply(db, act).0.custody)
  {
    if act.command.Initiate? {
      InitiateStepKeeps(db, act);
    } else if act.command.Receive? {
      ReceiveStepKeeps(db, act);
    } else if act.command.Resolve? {
      ResolveStepKeeps(db, act);
    } else if act.command.FromOutside? {
      OutsideKeepsCash(db, act.command.act);
    } else {
      StepSpares(db, act);
    }
  }

  // ---- locks -------------------------------------------------------------

  lemma LockNeedsClearDay(db: Db, c: Context, date: int, expected: int)
    requires LockClose(db, c, date, expected).1.Done?
    ensures ClearToLock(AbandonTickets(db, c.branch), c.branch, date)
    ensures ClearOfDrops(db.custody.drops, c.branch)
  {
    HardBlockersDecide(AbandonTickets(db, c.branch), c.branch, date);
  }

  lemma DayKeepsLocks(db: Db, act: Act)
    requires LocksAgree(db.custody.drops, db.closes) && EndsDay(act.command)
    ensures LocksAgree(db.custody.drops, Apply(db, act).0.closes)
  {
    var c := act.context;
    var closes := Apply(db, act).0.closes;
    if act.command.LockDay? && Apply(db, act).1.Done? {
      LockNeedsClearDay(db, c, act.command.date, act.command.expected);
    }
    forall k | 0 <= k < |db.custody.drops| && db.custody.drops[k].status != Received
      ensures !DayLocked(closes, db.custody.drops[k].branch, db.custody.drops[k].date)
    {
      var row := db.custody.drops[k];
      assert !DayLocked(db.closes, row.branch, row.date);
    }
  }

  lemma DropKeepsLocks(drops: seq<Drop>, closes: Closes, drop: Id, row: Drop)
    requires LocksAgree(drops, closes) && drop < |drops|
    requires row.branch == drops[drop].branch && row.date == drops[drop].date
    requires drops[drop].status != Received
    ensures LocksAgree(drops[drop := row], closes)
  {
  }

  lemma CashKeepsLocks(db: Db, act: Act)
    requires LocksAgree(db.custody.drops, db.closes) && MovesCash(act.command)
    ensures LocksAgree(Apply(db, act).0.custody.drops, db.closes)
  {
    var after := Apply(db, act).0.custody.drops;
    if Apply(db, act).1.Done? {
      match act.command {
        case Initiate(_) =>
        case Receive(drop, _, _) => DropKeepsLocks(db.custody.drops, db.closes, drop, after[drop]);
        case Resolve(dispute, _) =>
          var drop := db.custody.disputes[dispute].drop;
          DropKeepsLocks(db.custody.drops, db.closes, drop, after[drop]);
      }
    }
  }

  lemma StepKeepsLocks(db: Db, act: Act)
    requires LocksAgree(db.custody.drops, db.closes)
    ensures LocksAgree(Apply(db, act).0.custody.drops, Apply(db, act).0.closes)
  {
    StepSpares(db, act);
    if MovesCash(act.command) {
      CashKeepsLocks(db, act);
    } else if EndsDay(act.command) {
      DayKeepsLocks(db, act);
    }
  }

  lemma StepKeepsConsistent(db: Db, act: Act)
    requires Consistent(db)
    ensures Consistent(Apply(db, act).0)
  {
    StepKeepsBilling(db, act);
    StepKeepsSeating(db, act);
    StepKeepsCash(db, act);
    StepKeepsLocks(db, act);
  }

  /** Every state reached one command at a time is consistent. */
  lemma {:induction false} RunKeepsConsistent(db: Db, acts: seq<Act>)
    requires Consistent(db)
    ensures Consistent(Run(db, acts))
  {
    if |acts| > 0 {
      RunKeepsConsistent(db, acts[..|acts| - 1]);
      StepKeepsConsistent(Run(db, acts[..|acts| - 1]), acts[|acts| - 1]);
    }
  }
}
