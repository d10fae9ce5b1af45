/** Runs from a fresh database in which the conditions on interleavings fail, and what then goes wrong. */
module Witnesses {
  import opened Sums
  import opened Records
  import opened Billing
  import opened DailyClose
  import opened Settlement
  import opened Protocol
  import opened Interleaving
  import opened Concurrent
  import opened LockRace
  import opened StoredAnswers

  // ---- moves -------------------------------------------------------------

  function Sale(c: Context, table: Id, date: int, price: int): Move
  {
    Move.Elsewhere(Act(c, 0, date, SellAtCounter(table, [SaleLine(1, price)])))
  }

  function CashRequest(c: Context, key: string, bill: Id, amount: int, expected: int): PayRequest
  {
    PayRequest(c, key, CashPayment(bill, amount, expected, amount), NotChecked)
  }

  function TransferRequest(c: Context, key: string, bill: Id, amount: int, reference: string): PayRequest
  {
    PayRequest(c, key, TransferPayment(bill, amount, 1, Some(reference)), NotChecked)
  }

  /** The cashier is on shift and the branch has a counter table. */
  predicate CanSell(db: Db, c: Context, table: Id)
  {
    && OnShift(db, c)
    && table < |db.floor.tables| && db.floor.tables[table].branch == c.branch && db.floor.tables[table].status != Retired
  }

  function SaleBill(db: Db, c: Context, date: int, price: int): Bill
  {
    Bill(c.branch, date, |db.floor.sessions|, Generated, price, 0, 1)
  }

  predicate NoTransfers(db: Db) { db.billing.references == map[] && db.billing.audits == [] }

  lemma ReachMore(sys: System, moves: seq<Move>, move: Move)
    ensures Reach(sys, moves + [move]) == Next(Reach(sys, moves), move)
  {
    assert (moves + [move])[..|moves|] == moves;
  }

  lemma ReachTwo(sys: System, first: Move, second: Move)
    ensures Reach(sys, [first] + [second]) == Next(Next(sys, first), second)
  {
    assert [first][..0] == [];
    ReachMore(sys, [first], second);
  }

  ghost predicate OnlyCounters(floor: Floor)
  {
    && (forall s | 0 <= s < |floor.sessions| :: floor.sessions[s].kind == Counter)
    && (forall i | 0 <= i < |floor.items| :: floor.items[i].state == Served)
  }

  lemma OneSaleTotal(items: seq<Item>, bill: Id, i: Id)
    requires i < |items| && items[i].quantity == 1 && items[i].modifiers == []
    ensures Sum(LinesFor(items, [i], bill), LineAmount()) == items[i].unitPrice
  {
    assert [i][..0] == [];
    assert LinesFor(items, [], bill) == [];
    var line := BillLine(bill, i, LineTotal(items[i]));
    assert LinesFor(items, [i], bill) == [] + [line];
    SumAppend([], line, LineAmount());
  }

  lemma SaleStep(sys: System, c: Context, table: Id, date: int, price: int)
    requires CanSell(sys.db, c, table) && price >= 0
    ensures var after := Next(sys, Sale(c, table, date, price));
      && after.processes == sys.processes
      && after.db.billing.bills == sys.db.billing.bills + [SaleBill(sys.db, c, date, price)]
      && after.db.billing.payments == sys.db.billing.payments && NoTransfers(sys.db) == NoTransfers(after.db)
      && |after.db.floor.sessions| == |sys.db.floor.sessions| + 1
      && after.db.floor.tables == sys.db.floor.tables && after.db.floor.rooms == sys.db.floor.rooms
      && after.db.custody == sys.db.custody && after.db.closes == sys.db.closes
      && after.db.idempotency == sys.db.idempotency
    ensures OnlyCounters(sys.db.floor) ==> OnlyCounters(Next(sys, Sale(c, table, date, price)).db.floor)
  {
    var sale := [SaleLine(1, price)];
    var n := |sys.db.floor.items|;
    var items := sys.db.floor.items + SaleItems(c.branch, |sys.db.floor.sessions|, sale);
    assert Upto(n, 1) == [n];
    OneSaleTotal(items, |sys.db.billing.bills|, n);
  }

  /** The bill takes the payment: cash that covers it, or a transfer nobody checks. */
  predicate Loadable(db: Db, r: PayRequest)
  {
    && r.body.bill < |db.billing.bills|
    && (if r.body.CashPayment? then r.body.amount <= r.body.tendered else r.verdict.NotChecked?)
    && var bill := db.billing.bills[r.body.bill];
    && bill.branch == r.context.branch && Payable(bill.status) && bill.session < |db.floor.sessions|
    && 0 < r.body.amount <= bill.total - bill.amountPaid
  }

  lemma LoadStep(sys: System, p: Id)
    requires p < |sys.processes| && sys.processes[p].phase == Waiting
    requires KeyOf(sys.processes[p].request) !in sys.db.idempotency && sys.db.billing.references == map[]
    requires sys.db.closes == map[] && Loadable(sys.db, sys.processes[p].request)
    ensures var r := sys.processes[p].request;
      Next(sys, Load(p))
      == sys.(processes := sys.processes[p := Process(r, Holding(sys.db.billing.bills[r.body.bill]))])
  {
  }

  ghost predicate CanCommit(sys: System, p: Id)
  {
    && p < |sys.processes| && sys.processes[p].phase.Holding?
    && sys.processes[p].request.body.bill < |sys.db.billing.bills|
    && sys.processes[p].phase.snapshot.session < |sys.db.floor.sessions|
    && var bill := sys.db.billing.bills[sys.processes[p].request.body.bill];
    && bill.version == sys.processes[p].request.body.expected && Payable(bill.status)
  }

  function PaidBill(bill: Bill, snapshot: Bill, amount: int): Bill
  {
    if SettlesInFull(snapshot, amount) then
      bill.(status := FullyPaid, amountPaid := snapshot.total, version := bill.version + 1)
    else bill.(status := PaymentPending, amountPaid := NextPaid(snapshot, amount), version := bill.version + 1)
  }

  lemma CommitStep(sys: System, p: Id)
    requires CanCommit(sys, p)
    ensures var r, snapshot := sys.processes[p].request, sys.processes[p].phase.snapshot;
      var after := Next(sys, Commit(p, 0));
      && Commits(sys, Commit(p, 0))
      && after.db.billing.bills
         == sys.db.billing.bills[r.body.bill := PaidBill(sys.db.billing.bills[r.body.bill], snapshot, r.body.amount)]
      && after.db.billing.payments == sys.db.billing.payments + [PaymentRow(r, snapshot)]
      && |after.db.floor.sessions| == |sys.db.floor.sessions|
      && after.processes[p].phase.Committed?
      && after.processes == sys.processes[p := Process(r, after.processes[p].phase)]
      && after.db.idempotency
         == StoreAnswer(sys.db.idempotency, KeyOf(r), r.body, after.processes[p].phase.answer)
  {
  }

  // ---- two requests holding bills ----------------------------------------

  /** Both requests have loaded their bills, and nothing has been paid. */
  ghost predicate BothHold(sys: System, a: PayRequest, b: PayRequest)
  {
    && |sys.processes| == 2 && a.body.bill < |sys.db.billing.bills| && b.body.bill < |sys.db.billing.bills|
    && sys.processes[0] == Process(a, Holding(sys.db.billing.bills[a.body.bill]))
    && sys.processes[1] == Process(b, Holding(sys.db.billing.bills[b.body.bill]))
    && sys.db.billing.payments == [] && sys.db.idempotency == map[]
  }

  function ArriveAndLoad(a: PayRequest, b: PayRequest): seq<Move>
  {
    [Arrive(a)] + [Arrive(b)] + [Load(0)] + [Load(1)]
  }

  lemma {:induction false} ReachConcat(sys: System, moves: seq<Move>, more: seq<Move>)
    ensures Reach(sys, moves + more) == Reach(Reach(sys, moves), more)
  {
    if |more| == 0 {
      assert moves + more == moves;
    } else {
      var n := |more| - 1;
      ReachConcat(sys, moves, more[..n]);
      assert (moves + more)[..|moves + more| - 1] == moves + more[..n];
    }
  }

  lemma BothLoad(sys: System, a: PayRequest, b: PayRequest)
    requires sys.processes == [] && sys.db.billing.payments == [] && sys.db.idempotency == map[] && sys.db.closes == map[]
    requires NoTransfers(sys.db) && Loadable(sys.db, a) && Loadable(sys.db, b)
    ensures var after := Reach(sys, ArriveAndLoad(a, b)); BothHold(after, a, b) && after.db == sys.db
  {
    assert Reach(sys, []) == sys;
    ReachMore(sys, [], Arrive(a));
    assert [] + [Arrive(a)] == [Arrive(a)];
    ReachMore(sys, [Arrive(a)], Arrive(b));
    ReachMore(sys, [Arrive(a)] + [Arrive(b)], Load(0));
    ReachMore(sys, [Arrive(a)] + [Arrive(b)] + [Load(0)], Load(1));
    var arrived := Reach(sys, [Arrive(a)] + [Arrive(b)]);
    assert arrived == sys.(processes := [Process(a, Waiting), Process(b, Waiting)]);
    LoadStep(arrived, 0);
    var first := Next(arrived, Load(0));
    LoadStep(first, 1);
  }

  // ---- a bill that loses a payment ---------------------------------------

  function LostRun(c: Context, table: Id, date: int, price: int, part: int): seq<Move>
  {
    [Sale(c, table, date, price)]
    + ArriveAndLoad(CashRequest(c, "a", 0, price, 2), CashRequest(c, "b", 0, part, 1))
    + [Commit(1, 0)] + [Commit(0, 0)]
  }

  lemma OneSale(sys: System, c: Context, table: Id, date: int, price: int)
    requires Fresh(sys) && CanSell(sys.db, c, table) && price >= 0
    ensures var sold := Reach(sys, [Sale(c, table, date, price)]);
      && sold == Next(sys, Sale(c, table, date, price))
      && sold.processes == [] && sold.db.billing.payments == [] && sold.db.idempotency == map[] && sold.db.closes == map[]
      && NoTransfers(sold.db) && sold.db.billing.bills == [SaleBill(sys.db, c, date, price)] && |sold.db.floor.sessions| == 1
      && sold.db.floor.tables == sys.db.floor.tables && sold.db.custody == sys.db.custody
      && sold.db.floor.rooms == sys.db.floor.rooms && OnlyCounters(sold.db.floor)
  {
    assert [Sale(c, table, date, price)][..0] == [];
    SaleStep(sys, c, table, date, price);
  }

  lemma TwoPaidOnOne(payments: seq<Payment>, first: Payment, second: Payment, bill: Id)
    requires payments == [] + [first] + [second] && first.bill == second.bill == bill
    ensures SettledOn(payments, bill) == first.amount + second.amount
  {
    SumAppend([], first, PaidOn(bill));
    SumAppend([] + [first], second, PaidOn(bill));
  }

  /** The commits of the run: the part is paid on version 1, the whole price on version 2 from the older snapshot. */
  lemma PaidTwice(sys: System, a: PayRequest, b: PayRequest)
    requires BothHold(sys, a, b) && a.body.bill == b.body.bill
    requires var bill := sys.db.billing.bills[a.body.bill];
      && bill.version == 1 && Payable(bill.status) && bill.amountPaid == 0 && bill.session < |sys.db.floor.sessions|
      && 0 < b.body.amount < bill.total == a.body.amount
    requires a.body.expected == 2 && b.body.expected == 1
    ensures var end := Next(Next(sys, Commit(1, 0)), Commit(0, 0));
      && end.db.billing.bills[a.body.bill].total == end.db.billing.bills[a.body.bill].amountPaid == a.body.amount
      && SettledOn(end.db.billing.payments, a.body.bill) == a.body.amount + b.body.amount
      && |end.db.billing.bills| == |sys.db.billing.bills|
  {
    CommitStep(sys, 1);
    var mid := Next(sys, Commit(1, 0));
    CommitStep(mid, 0);
    var snapshot := sys.db.billing.bills[a.body.bill];
    TwoPaidOnOne(Next(mid, Commit(0, 0)).db.billing.payments, PaymentRow(b, snapshot), PaymentRow(a, snapshot), a.body.bill);
  }

  /**
   A client that sends a version newer than the one its request loaded makes the bill lose a payment: the bill says
   it was paid its price, and price plus part were settled on it.
   */
  lemma NewerVersionLosesPayment(sys: System, c: Context, table: Id, date: int, price: int, part: int)
    requires Fresh(sys) && CanSell(sys.db, c, table) && 0 < part < price
    ensures var moves := LostRun(c, table, date, price, part);
      var billing := Reach(sys, moves).db.billing;
      && |billing.bills| == 1 && billing.bills[0].total == billing.bills[0].amountPaid == price
      && SettledOn(billing.payments, 0) == price + part
      && !AlwaysAgrees(sys, moves) && !HonestRun(sys, moves)
  {
    var a, b := CashRequest(c, "a", 0, price, 2), CashRequest(c, "b", 0, part, 1);
    var sale := [Sale(c, table, date, price)];
    OneSale(sys, c, table, date, price);
    var sold := Reach(sys, sale);
    BothLoad(sold, a, b);
    ReachConcat(sys, sale, ArriveAndLoad(a, b));
    var loaded := Reach(sold, ArriveAndLoad(a, b));
    ReachMore(sys, sale + ArriveAndLoad(a, b), Commit(1, 0));
    ReachMore(sys, sale + ArriveAndLoad(a, b) + [Commit(1, 0)], Commit(0, 0));
    PaidTwice(loaded, a, b);
    var end := Reach(sys, LostRun(c, table, date, price, part)).db.billing;
    assert !BillAgrees(end.bills[0], SettledOn(end.payments, 0));
    BillsAgreeIffHonest(sys, LostRun(c, table, date, price, part));
  }

  // ---- a stored row of two requests --------------------------------------

  function MixedRun(c: Context, table: Id, date: int, first: int, second: int, key: string): seq<Move>
  {
    [Sale(c, table, date, first)] + [Sale(c, table, date, second)]
    + ArriveAndLoad(CashRequest(c, key, 0, first, 1), CashRequest(c, key, 1, second, 1))
    + [Commit(0, 0)] + [Commit(1, 0)]
  }

  lemma PaidBoth(sys: System, a: PayRequest, b: PayRequest)
    requires BothHold(sys, a, b) && a.body.bill != b.body.bill && KeyOf(a) == KeyOf(b)
    requires Loadable(sys.db, a) && Loadable(sys.db, b)
    requires sys.db.billing.bills[a.body.bill].version == a.body.expected
    requires sys.db.billing.bills[b.body.bill].version == b.body.expected
    ensures var end := Next(Next(sys, Commit(0, 0)), Commit(1, 0));
      && |end.processes| == 2 && end.processes[0].request == a && end.processes[1].request == b
      && end.processes[1].phase.Committed? && KeyOf(a) in end.db.idempotency
      && end.db.idempotency[KeyOf(a)] == IdemRow(a.body, end.processes[1].phase.answer)
    ensures !OwnKey(Next(sys, Commit(0, 0)), Commit(1, 0))
  {
    CommitStep(sys, 0);
    CommitStep(Next(sys, Commit(0, 0)), 1);
  }

  lemma ForeignKeyMixes(sys: System, moves: seq<Move>, move: Move)
    requires Fresh(sys) && !OwnKey(Reach(sys, moves), move)
    ensures !AlwaysWhole(sys, moves + [move])
  {
    assert (moves + [move])[..|moves|] == moves;
    AlwaysWholeIff(sys, moves + [move]);
  }

  /** Both sales made, both requests loaded, and the first one paid. */
  lemma BeforeMix(sys: System, c: Context, table: Id, date: int, first: int, second: int, key: string)
    requires Fresh(sys) && CanSell(sys.db, c, table) && 0 < first && 0 < second
    ensures var sales := [Sale(c, table, date, first)] + [Sale(c, table, date, second)];
      var a, b := CashRequest(c, key, 0, first, 1), CashRequest(c, key, 1, second, 1);
      var loaded := Reach(sys, sales + ArriveAndLoad(a, b));
      && BothHold(loaded, a, b) && Loadable(loaded.db, a) && Loadable(loaded.db, b)
      && loaded.db.billing.bills[0].version == loaded.db.billing.bills[1].version == 1
  {
    var a, b := CashRequest(c, key, 0, first, 1), CashRequest(c, key, 1, second, 1);
    var sales := [Sale(c, table, date, first)] + [Sale(c, table, date, second)];
    TwoSales(sys, c, table, date, first, second);
    BothLoad(Reach(sys, sales), a, b);
    ReachConcat(sys, sales, ArriveAndLoad(a, b));
  }

  lemma TwoSales(sys: System, c: Context, table: Id, date: int, first: int, second: int)
    requires Fresh(sys) && CanSell(sys.db, c, table) && first >= 0 && second >= 0
    ensures var sold := Reach(sys, [Sale(c, table, date, first)] + [Sale(c, table, date, second)]);
      && sold.processes == [] && sold.db.billing.payments == [] && sold.db.idempotency == map[] && sold.db.closes == map[]
      && NoTransfers(sold.db) && |sold.db.floor.sessions| == 2
      && sold.db.billing.bills == [Bill(c.branch, date, 0, Generated, first, 0, 1),
                                   Bill(c.branch, date, 1, Generated, second, 0, 1)]
  {
    OneSale(sys, c, table, date, first);
    ReachMore(sys, [Sale(c, table, date, first)], Sale(c, table, date, second));
    SaleStep(Reach(sys, [Sale(c, table, date, first)]), c, table, date, second);
  }

  /** One key sent with two bodies, both loaded before either commits, leaves one's body with the other's answer. */
  lemma TwoBodiesMix(sys: System, c: Context, table: Id, date: int, first: int, second: int, key: string)
    requires Fresh(sys) && CanSell(sys.db, c, table) && 0 < first && 0 < second
    ensures var moves := MixedRun(c, table, date, first, second, key);
      var end := Reach(sys, moves);
      var a, b := CashRequest(c, key, 0, first, 1), CashRequest(c, key, 1, second, 1);
      && |end.processes| == 2 && end.processes[0].request == a && end.processes[1].request == b
      && end.processes[1].phase.Committed? && KeyOf(a) in end.db.idempotency
      && end.db.idempotency[KeyOf(a)] == IdemRow(a.body, end.processes[1].phase.answer)
      && !AlwaysWhole(sys, moves)
  {
    var a, b := CashRequest(c, key, 0, first, 1), CashRequest(c, key, 1, second, 1);
    var loading := [Sale(c, table, date, first)] + [Sale(c, table, date, second)] + ArriveAndLoad(a, b);
    BeforeMix(sys, c, table, date, first, second, key);
    PaidBoth(Reach(sys, loading), a, b);
    ReachMore(sys, loading, Commit(0, 0));
    ReachMore(sys, loading + [Commit(0, 0)], Commit(1, 0));
    ForeignKeyMixes(sys, loading + [Commit(0, 0)], Commit(1, 0));
  }

  // ---- one transfer for two bills ----------------------------------------

  lemma CommitRecords(sys: System, p: Id)
    requires CanCommit(sys, p)
    ensures var r, before := sys.processes[p].request, sys.db.billing;
      var after := Next(sys, Commit(p, 0)).db.billing;
      && after.references == StoreReference(before.references, r.context.user, ReferenceOf(r), r.body.bill)
      && after.audits == StoreAudit(before.audits, |before.payments|, r.body.bill, ReferenceOf(r))
  {
  }

  lemma TransferForBoth(sys: System, a: PayRequest, b: PayRequest, reference: string)
    requires BothHold(sys, a, b) && a.body.bill != b.body.bill && NoTransfers(sys.db)
    requires ReferenceOf(a) == ReferenceOf(b) == Some(reference)
    requires Loadable(sys.db, a) && Loadable(sys.db, b)
    requires sys.db.billing.bills[a.body.bill].version == a.body.expected
    requires sys.db.billing.bills[b.body.bill].version == b.body.expected
    ensures Next(Next(sys, Commit(0, 0)), Commit(1, 0)).db.billing.audits
            == [TransferAudit(0, a.body.bill, reference), TransferAudit(1, b.body.bill, reference)]
    ensures !FreeReference(Next(sys, Commit(0, 0)), Commit(1, 0))
  {
    var mid := Next(sys, Commit(0, 0));
    CommitStep(sys, 0);
    CommitRecords(sys, 0);
    CommitStep(mid, 1);
    CommitRecords(mid, 1);
    assert (a.context.user, reference) in mid.db.billing.references;
  }

  function SharedRun(c: Context, table: Id, date: int, first: int, second: int, reference: string): seq<Move>
  {
    [Sale(c, table, date, first)] + [Sale(c, table, date, second)]
    + ArriveAndLoad(TransferRequest(c, "a", 0, first, reference), TransferRequest(c, "b", 1, second, reference))
    + [Commit(0, 0)] + [Commit(1, 0)]
  }

  lemma TakenReferenceShares(sys: System, moves: seq<Move>, move: Move)
    requires ReferencesHold(sys.db.billing) && !FreeReference(Reach(sys, moves), move)
    ensures !ReferencesAlwaysHold(sys, moves + [move])
  {
    assert (moves + [move])[..|moves|] == moves;
    ReferencesHoldIff(sys, moves + [move]);
  }

  lemma BeforeShared(sys: System, c: Context, table: Id, date: int, first: int, second: int, reference: string)
    requires Fresh(sys) && CanSell(sys.db, c, table) && 0 < first && 0 < second
    ensures var sales := [Sale(c, table, date, first)] + [Sale(c, table, date, second)];
      var a, b := TransferRequest(c, "a", 0, first, reference), TransferRequest(c, "b", 1, second, reference);
      var loaded := Reach(sys, sales + ArriveAndLoad(a, b));
      && BothHold(loaded, a, b) && NoTransfers(loaded.db) && Loadable(loaded.db, a) && Loadable(loaded.db, b)
      && loaded.db.billing.bills[0].version == loaded.db.billing.bills[1].version == 1
  {
    var a, b := TransferRequest(c, "a", 0, first, reference), TransferRequest(c, "b", 1, second, reference);
    var sales := [Sale(c, table, date, first)] + [Sale(c, table, date, second)];
    TwoSales(sys, c, table, date, first, second);
    BothLoad(Reach(sys, sales), a, b);
    ReachConcat(sys, sales, ArriveAndLoad(a, b));
  }

  /** Two payments that load before either commits settle two bills with one transfer. */
  lemma OneTransferPaysTwo(sys: System, c: Context, table: Id, date: int, first: int, second: int, reference: string)
    requires Fresh(sys) && CanSell(sys.db, c, table) && 0 < first && 0 < second
    ensures var moves := SharedRun(c, table, date, first, second, reference);
      && Reach(sys, moves).db.billing.audits == [TransferAudit(0, 0, reference), TransferAudit(1, 1, reference)]
      && !ReferencesAlwaysHold(sys, moves)
  {
    var a, b := TransferRequest(c, "a", 0, first, reference), TransferRequest(c, "b", 1, second, reference);
    var loading := [Sale(c, table, date, first)] + [Sale(c, table, date, second)] + ArriveAndLoad(a, b);
    BeforeShared(sys, c, table, date, first, second, reference);
    TransferForBoth(Reach(sys, loading), a, b, reference);
    ReachMore(sys, loading, Commit(0, 0));
    ReachMore(sys, loading + [Commit(0, 0)], Commit(1, 0));
    TakenReferenceShares(sys, loading + [Commit(0, 0)], Commit(1, 0));
  }

  // ---- a payment into a locked day ---------------------------------------

  /** No room of the branch is open, and no drawer of the day waits for its reconciliation. */
  ghost predicate CanEndDay(db: Db, branch: Id, date: int)
  {
    && (forall k | 0 <= k < |db.floor.rooms| && db.floor.rooms[k].branch == branch :: !db.floor.rooms[k].open)
    && (forall k | 0 <= k < |db.custody.drawers| && DayDrawer(db.custody.drawers[k], branch, date) ::
          db.custody.drawers[k].reconciliation.Some? && !db.custody.drawers[k].reconciliation.value.flagged)
  }

  lemma NothingHeld(db: Db, branch: Id, shift: Id, date: int)
    requires db.billing.payments == [] && db.custody.drops == []
    ensures WaiterLine(db, branch, shift, date).undropped == 0
  {
  }

  lemma DayIsClear(db: Db, branch: Id, date: int)
    requires OnlyCounters(db.floor) && CanEndDay(db, branch, date)
    requires db.billing.payments == [] && db.custody.drops == []
    ensures ClearToLock(AbandonTickets(db, branch), branch, date)
  {
    var swept := AbandonTickets(db, branch);
    forall k | 0 <= k < |swept.custody.shifts| ensures WaiterLine(swept, branch, k, date).undropped == 0 {
      NothingHeld(swept, branch, k, date);
    }
  }

  function Creating(c: Context, date: int): Move { Move.Elsewhere(Act(c, 0, date, CreateDay(date))) }

  function Locking(c: Context, date: int): Move { Move.Elsewhere(Act(c, 0, date, LockDay(date, 1))) }

  function Closing(c: Context, date: int): seq<Move> { [Creating(c, date)] + [Locking(c, date)] }

  lemma CreateStep(sys: System, c: Context, date: int)
    requires sys.db.closes == map[]
    ensures var after := Next(sys, Creating(c, date));
      && after == sys.(db := sys.db.(closes := after.db.closes)) && (c.branch, date) in after.db.closes
      && after.db.closes[(c.branch, date)].version == 1 && after.db.closes[(c.branch, date)].status != Locked
  {
  }

  lemma LockStep(sys: System, c: Context, date: int)
    requires OnlyCounters(sys.db.floor) && CanEndDay(sys.db, c.branch, date)
    requires sys.db.billing.payments == [] && sys.db.custody.drops == []
    requires (c.branch, date) in sys.db.closes
    requires sys.db.closes[(c.branch, date)].version == 1 && sys.db.closes[(c.branch, date)].status != Locked
    ensures var after := Next(sys, Locking(c, date));
      && DayLocked(after.db.closes, c.branch, date)
      && after.processes == sys.processes && after.db.billing == sys.db.billing && after.db.custody == sys.db.custody
  {
    DayIsClear(sys.db, c.branch, date);
    HardBlockersDecide(AbandonTickets(sys.db, c.branch), c.branch, date);
  }

  lemma DayEnds(sys: System, c: Context, date: int)
    requires OnlyCounters(sys.db.floor) && CanEndDay(sys.db, c.branch, date) && sys.db.closes == map[]
    requires sys.db.billing.payments == [] && sys.db.custody.drops == []
    ensures var after := Reach(sys, Closing(c, date));
      && DayLocked(after.db.closes, c.branch, date)
      && after.processes == sys.processes && after.db.billing == sys.db.billing && after.db.custody == sys.db.custody
  {
    ReachTwo(sys, Creating(c, date), Locking(c, date));
    CreateStep(sys, c, date);
    LockStep(Next(sys, Creating(c, date)), c, date);
  }

  function BeforeLateCommit(c: Context, table: Id, date: int, price: int): seq<Move>
  {
    [Sale(c, table, date, price)] + [Arrive(CashRequest(c, "a", 0, price, 1))] + [Load(0)] + Closing(c, date)
  }

  lemma OneLoads(sys: System, c: Context, table: Id, date: int, price: int)
    requires Fresh(sys) && CanSell(sys.db, c, table) && 0 < price
    ensures var r := CashRequest(c, "a", 0, price, 1);
      var held := Reach(sys, [Sale(c, table, date, price)] + [Arrive(r)] + [Load(0)]);
      && held.db == Reach(sys, [Sale(c, table, date, price)]).db
      && held.processes == [Process(r, Holding(SaleBill(sys.db, c, date, price)))]
  {
    var r := CashRequest(c, "a", 0, price, 1);
    var sale := [Sale(c, table, date, price)];
    OneSale(sys, c, table, date, price);
    ReachMore(sys, sale, Arrive(r));
    ReachMore(sys, sale + [Arrive(r)], Load(0));
    LoadStep(Reach(sys, sale + [Arrive(r)]), 0);
  }

  /** The commit of a request that is ready to pay on the day adds one payment to it. */
  lemma HeldBreaches(locked: System, branch: Id, date: int)
    requires Sound(locked) && DayLocked(locked.db.closes, branch, date) && |locked.processes| == 1
    requires LockRace.Ready(locked.processes[0], locked.db.billing.bills, branch, date)
    ensures !StaysFrozen(locked, [Commit(0, 0)], branch, date)
    ensures DayPayments(Next(locked, Commit(0, 0)).db, branch, date) == DayPayments(locked.db, branch, date) + 1
  {
    ReadyCanBreach(locked, 0, branch, date);
    BreachIffReady(locked, 0, 0, branch, date);
    FrozenIffQuiet(locked, [Commit(0, 0)], branch, date);
    CommitFreezes(locked, Commit(0, 0), branch, date);
  }

  /** The locked day, and the request still holding its bill. */
  lemma LockedWhileHeld(sys: System, c: Context, table: Id, date: int, price: int)
    requires Fresh(sys) && CanSell(sys.db, c, table) && 0 < price && CanEndDay(sys.db, c.branch, date)
    ensures var locked := Reach(sys, BeforeLateCommit(c, table, date, price));
      && DayLocked(locked.db.closes, c.branch, date) && locked.db.billing.payments == []
      && locked.db.billing.bills == [SaleBill(sys.db, c, date, price)]
      && locked.processes == [Process(CashRequest(c, "a", 0, price, 1), Holding(SaleBill(sys.db, c, date, price)))]
  {
    var loading := [Sale(c, table, date, price)] + [Arrive(CashRequest(c, "a", 0, price, 1))] + [Load(0)];
    OneSale(sys, c, table, date, price);
    OneLoads(sys, c, table, date, price);
    ReachConcat(sys, loading, Closing(c, date));
    DayEnds(Reach(sys, loading), c, date);
  }

  /** A payment loads, the day is locked, the payment commits: the locked day has one more payment. */
  lemma LateCommitThaws(sys: System, c: Context, table: Id, date: int, price: int)
    requires Fresh(sys) && CanSell(sys.db, c, table) && 0 < price && CanEndDay(sys.db, c.branch, date)
    ensures var locked := Reach(sys, BeforeLateCommit(c, table, date, price));
      && DayLocked(locked.db.closes, c.branch, date)
      && !StaysFrozen(locked, [Commit(0, 0)], c.branch, date)
      && DayPayments(locked.db, c.branch, date) == 0
      && DayPayments(Next(locked, Commit(0, 0)).db, c.branch, date) == 1
  {
    var locked := Reach(sys, BeforeLateCommit(c, table, date, price));
    LockedWhileHeld(sys, c, table, date, price);
    FreshIsSound(sys);
    ReachKeepsSound(sys, BeforeLateCommit(c, table, date, price));
    HeldBreaches(locked, c.branch, date);
  }
}
