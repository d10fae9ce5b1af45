/** The billing service: bill requests, bills, counter sales and payments, written step by step. */
module BillingServices {
  import opened Sums
  import opened Records
  import opened Billing
  import opened Settlement
  import opened Stores
  import opened DailyCloseServices

  class BillingService {
    const db: Store
    const dailyClose: DailyCloseService

    constructor (db: Store, dailyClose: DailyCloseService)
      requires dailyClose.db == db
      ensures Valid() && this.db == db
    {
      this.db := db;
      this.dailyClose := dailyClose;
    }

    predicate Valid() { dailyClose.db == db }

    // ---- bill requests ---------------------------------------------------

    method RequestBill(c: Context, session: Id, expected: int) returns (outcome: Outcome)
      modifies db
      ensures (db.Snapshot(), outcome) == Billing.RequestBill(old(db.Snapshot()), c, session, expected)
    {
      if session >= |db.sessions| || db.sessions[session].branch != c.branch {
        return Refused(NotFound);
      }
      var row := db.sessions[session];
      if row.version != expected {
        return Refused(StaleVersion);
      }
      if row.status !in REQUESTABLE {
        return Refused(NotBillable);
      }
      if HasBill(db.bills, session) {
        return Refused(BillAlreadyExists);
      }
      if HasPending(db.requests, session) {
        return Refused(RequestPending);
      }
      var chargeable := Query(db.items, OwedBy(session));
      if chargeable == [] {
        return Refused(NothingToBill);
      }
      var request := |db.requests|;
      db.requests := db.requests + [BillRequest(c.branch, row.date, session, Pending)];
      row := row.(status := BillRequested, version := row.version + 1);
      db.sessions := db.sessions[session := row];
      outcome := Done(RequestAnswer(request, Pending, row.status, row.version));
    }

    method CancelBillRequest(c: Context, request: Id) returns (outcome: Outcome)
      modifies db
      ensures (db.Snapshot(), outcome) == CancelRequest(old(db.Snapshot()), c, request)
    {
      if request >= |db.requests| || db.requests[request].branch != c.branch {
        return Refused(NotFound);
      }
      var asked := db.requests[request];
      if asked.session >= |db.sessions| {
        return Refused(NotFound);
      }
      if asked.status != Pending {
        return Refused(RequestNotPending);
      }
      db.requests := db.requests[request := asked.(status := Withdrawn)];
      var row := db.sessions[asked.session];
      var status := Open;
      if HasItems(db.items, asked.session) {
        status := ActiveOrder;
      }
      row := row.(status := status, version := row.version + 1);
      db.sessions := db.sessions[asked.session := row];
      outcome := Done(RequestAnswer(request, Withdrawn, row.status, row.version));
    }

    // ---- bills -----------------------------------------------------------

    method LineTotal(item: Item) returns (total: int)
      ensures total == Billing.LineTotal(item)
    {
      var modifiers := AddUp(item.modifiers, Self());
      total := (item.unitPrice + modifiers) * item.quantity;
    }

    /** One line per charged item, and the subtotal accumulated on the way. */
    method PriceLines(items: seq<Item>, charged: seq<Id>, bill: Id) returns (lines: seq<BillLine>, subtotal: int)
      requires forall k | 0 <= k < |charged| :: charged[k] < |items|
      ensures lines == LinesFor(items, charged, bill) && subtotal == Sum(lines, LineAmount())
    {
      lines, subtotal := [], 0;
      for k := 0 to |charged|
        invariant lines == LinesFor(items, charged[..k], bill)
        invariant subtotal == Sum(lines, LineAmount())
      {
        var total := LineTotal(items[charged[k]]);
        PriceMore(items, charged, k, bill);
        lines := lines + [BillLine(bill, charged[k], total)];
        subtotal := subtotal + total;
      }
      assert charged[..|charged|] == charged;
    }

    /** The transaction of a bill: its rows, its request and its session. */
    method IssueBill(billRow: Bill, lines: seq<BillLine>, request: Id)
      requires request < |db.requests| && db.requests[request].session == billRow.session < |db.sessions|
      modifies db`bills, db`lines, db`requests, db`sessions
      ensures db.bills == old(db.bills) + [billRow] && db.lines == old(db.lines) + lines
      ensures db.requests == old(db.requests)[request := old(db.requests)[request].(status := Fulfilled)]
      ensures db.sessions == old(db.sessions)[billRow.session := Restated(old(db.sessions)[billRow.session], BillReady)]
    {
      db.bills := db.bills + [billRow];
      db.lines := db.lines + lines;
      db.requests := db.requests[request := db.requests[request].(status := Fulfilled)];
      var row := db.sessions[billRow.session];
      db.sessions := db.sessions[billRow.session := row.(status := BillReady, version := row.version + 1)];
    }

    method GenerateBill(c: Context, request: Id, expected: int) returns (outcome: Outcome)
      modifies db
      ensures (db.Snapshot(), outcome) == Billing.GenerateBill(old(db.Snapshot()), c, request, expected)
    {
      if request >= |db.requests| || db.requests[request].branch != c.branch {
        return Refused(NotFound);
      }
      var asked := db.requests[request];
      if asked.session >= |db.sessions| {
        return Refused(NotFound);
      }
      if asked.status != Pending {
        return Refused(RequestNotPending);
      }
      if HasBill(db.bills, asked.session) {
        return Refused(BillAlreadyExists);
      }
      var row := db.sessions[asked.session];
      if row.version != expected {
        return Refused(StaleVersion);
      }
      var items := Query(db.items, OwedBy(asked.session));
      if items == [] {
        return Refused(NothingToBill);
      }
      var bill := |db.bills|;
      var lines, subtotal := PriceLines(db.items, items, bill);
      if subtotal < 0 {
        return Refused(CheckViolated);
      }
      var billRow := Bill(c.branch, row.date, asked.session, Generated, subtotal, 0, 1);
      IssueBill(billRow, lines, request);
      outcome := Done(BillAnswer(bill, billRow));
    }

    // ---- counter sale ----------------------------------------------------

    /** The shared counter table may still have sessions open; they are closed first. */
    method CloseLeftovers(table: Id, now: int)
      modifies db`sessions
      ensures db.sessions == Billing.CloseLeftovers(old(db.sessions), table, now)
    {
      ghost var before := db.sessions;
      for s := 0 to |db.sessions|
        invariant |db.sessions| == |before|
        invariant forall k | 0 <= k < |before| ::
          db.sessions[k] == if k < s then ClosedBySale(before[k], table, now) else before[k]
      {
        var row := db.sessions[s];
        if row.table == table && row.closedAt.None? && row.status != Closed {
          db.sessions := db.sessions[s := row.(status := Closed, closedAt := Some(now), version := row.version + 1)];
        }
      }
    }

    method OrderItems(branch: Id, session: Id, sale: seq<SaleLine>)
      modifies db`items
      ensures db.items == old(db.items) + SaleItems(branch, session, sale)
    {
      for k := 0 to |sale|
        invariant db.items == old(db.items) + SaleItems(branch, session, sale[..k])
      {
        assert sale[..k + 1][..k] == sale[..k];
        db.items := db.items + [Item(branch, session, sale[k].quantity, sale[k].unitPrice, [], Served, false)];
      }
      assert sale[..|sale|] == sale;
    }

    /** The sale's session and items, and what its bill will say. */
    method RingUp(c: Context, now: int, today: int, table: Id, sale: seq<SaleLine>)
      returns (session: Id, lines: seq<BillLine>, subtotal: int)
      modifies db`sessions, db`items
      ensures session == |old(db.sessions)|
      ensures db.sessions == Billing.CloseLeftovers(old(db.sessions), table, now)
                             + [Session(c.branch, table, today, Counter, Open, None, 1)]
      ensures db.items == old(db.items) + SaleItems(c.branch, session, sale)
      ensures lines == LinesFor(db.items, Upto(|old(db.items)|, |sale|), |db.bills|)
      ensures subtotal == Sum(lines, LineAmount())
    {
      CloseLeftovers(table, now);
      session := |db.sessions|;
      db.sessions := db.sessions + [Session(c.branch, table, today, Counter, Open, None, 1)];
      var ordered := Upto(|db.items|, |sale|);
      OrderItems(c.branch, session, sale);
      lines, subtotal := PriceLines(db.items, ordered, |db.bills|);
    }

    /** Everything happens inside one transaction; a bill the database refuses undoes the sale. */
    method CreateCounterSale(c: Context, now: int, today: int, table: Id, sale: seq<SaleLine>)
      returns (outcome: Outcome)
      modifies db
      ensures (db.Snapshot(), outcome) == CounterSale(old(db.Snapshot()), c, now, today, table, sale)
    {
      if table >= |db.tables| || db.tables[table].branch != c.branch || db.tables[table].status == Retired {
        return Refused(NotFound);
      }
      var before := db.Snapshot();
      var session, lines, subtotal := RingUp(c, now, today, table, sale);
      if subtotal < 0 {
        db.Rollback(before);
        return Refused(CheckViolated);
      }
      var bill := |db.bills|;
      var billRow := Bill(c.branch, today, session, Generated, subtotal, 0, 1);
      db.bills := db.bills + [billRow];
      db.lines := db.lines + lines;
      outcome := Done(BillAnswer(bill, billRow));
    }

    // ---- payments --------------------------------------------------------

    /** The answer already stored under a key, if there is one; another body under the same key is refused. */
    method FindIdempotent(key: IdemKey, body: PayBody) returns (existing: Option<Outcome>)
      ensures existing.None? <==> key !in db.idempotency
      ensures existing.Some? ==>
        existing.value == if db.idempotency[key].body == body then Done(PaidAnswer(db.idempotency[key].answer))
                          else Refused(KeyReused)
    {
      if key !in db.idempotency {
        return None;
      }
      if db.idempotency[key].body != body {
        return Some(Refused(KeyReused));
      }
      existing := Some(Done(PaidAnswer(db.idempotency[key].answer)));
    }

    /** The compare-and-set on the bill row; false when no row matched. */
    method ApplyPartialBillPayment(bill: Id, snapshot: Bill, expected: int, amount: int) returns (applied: bool)
      requires bill < |db.bills|
      modifies db`bills
      ensures var row := ApplyPartialPayment(old(db.bills)[bill], snapshot, expected, amount);
        applied == row.Some? && db.bills == if row.Some? then old(db.bills)[bill := row.value] else old(db.bills)
    {
      var nextPaid := snapshot.amountPaid + amount;
      var row := db.bills[bill];
      if row.version != expected || row.status !in {Generated, PaymentPending} {
        return false;
      }
      if nextPaid >= snapshot.total {
        row := row.(status := FullyPaid, amountPaid := snapshot.total, version := row.version + 1);
      } else {
        row := row.(status := PaymentPending, amountPaid := nextPaid, version := row.version + 1);
      }
      db.bills := db.bills[bill := row];
      applied := true;
    }

    method MarkSeatingPaid(session: Id, closeCounter: bool, now: int)
      requires session < |db.sessions|
      modifies db`sessions
      ensures db.sessions == old(db.sessions)[session := SeatingPaid(old(db.sessions)[session], closeCounter, now)]
    {
      var row := db.sessions[session];
      row := row.(version := row.version + 1);
      if closeCounter {
        row := row.(status := Closed, closedAt := Some(now));
      } else {
        row := row.(status := Paid);
      }
      db.sessions := db.sessions[session := row];
    }

    /** An upsert: a row that is already there keeps its body and takes the new answer. */
    method StoreIdempotent(key: IdemKey, body: PayBody, answer: PaymentAnswer)
      modifies db`idempotency
      ensures db.idempotency == StoreAnswer(old(db.idempotency), key, body, answer)
    {
      if key in db.idempotency {
        var row := db.idempotency[key];
        db.idempotency := db.idempotency[key := row.(answer := answer)];
      } else {
        db.idempotency := db.idempotency[key := IdemRow(body, answer)];
      }
    }

    /** Records which bill a bank reference settled; an existing row is left as it is. */
    method RecordReference(user: Id, reference: string, payment: Id, bill: Id)
      modifies db`references, db`audits
      ensures db.references == StoreReference(old(db.references), user, Some(reference), bill)
      ensures db.audits == StoreAudit(old(db.audits), payment, bill, Some(reference))
    {
      if (user, reference) !in db.references {
        db.references := db.references[(user, reference) := bill];
      }
      db.audits := db.audits + [TransferAudit(payment, bill, reference)];
    }

    /** The payment row, the seating, the stored answer and the bank reference of a bill just paid on. */
    method RecordPayment(r: PayRequest, snapshot: Bill, now: int) returns (answer: PaymentAnswer)
      requires r.body.bill < |db.bills| && snapshot.session < |db.sessions|
      modifies db`payments, db`sessions, db`idempotency, db`references, db`audits
      ensures db.payments == old(db.payments) + [PaymentRow(r, snapshot)]
      ensures db.sessions == old(db.sessions)[snapshot.session :=
        SeatingAfter(old(db.sessions)[snapshot.session], SettlesInFull(snapshot, r.body.amount),
                     r.body.CashPayment?, now)]
      ensures answer == AnswerFor(r, |old(db.payments)|, snapshot, db.bills[r.body.bill],
                                  db.sessions[snapshot.session])
      ensures db.idempotency == StoreAnswer(old(db.idempotency), KeyOf(r), r.body, answer)
      ensures db.references == StoreReference(old(db.references), r.context.user, ReferenceOf(r), r.body.bill)
      ensures db.audits == StoreAudit(old(db.audits), |old(db.payments)|, r.body.bill, ReferenceOf(r))
    {
      var payment := |db.payments|;
      db.payments := db.payments + [PaymentRow(r, snapshot)];
      if SettlesInFull(snapshot, r.body.amount) {
        MarkSeatingPaid(snapshot.session, r.body.CashPayment? && db.sessions[snapshot.session].kind == Counter, now);
      }
      answer := AnswerFor(r, payment, snapshot, db.bills[r.body.bill], db.sessions[snapshot.session]);
      StoreIdempotent(KeyOf(r), r.body, answer);
      if ReferenceOf(r).Some? {
        RecordReference(r.context.user, ReferenceOf(r).value, payment, r.body.bill);
      }
    }

    /** The transaction both payment commands end in, run with the bill loaded before it. */
    method Settle(r: PayRequest, snapshot: Bill, now: int) returns (outcome: Outcome)
      modifies db
      ensures (db.Snapshot(), outcome) == CommitPayment(old(db.Snapshot()), r, snapshot, now)
    {
      if r.body.bill >= |db.bills| || snapshot.session >= |db.sessions| {
        return Refused(NotFound);
      }
      var applied := ApplyPartialBillPayment(r.body.bill, snapshot, r.body.expected, r.body.amount);
      if applied {
        var answer := RecordPayment(r, snapshot, now);
        outcome := Done(PaidAnswer(answer));
      } else {
        outcome := Refused(StaleVersion);
      }
    }

    /** The checks cash and transfer payments share: the bill, its day and the amount. */
    method LoadPayableBill(r: PayRequest) returns (loaded: Loaded)
      requires Valid()
      ensures KeyOf(r) !in db.idempotency && loaded.Stopped? ==> LoadPayment(db.Snapshot(), r) == loaded
      ensures !loaded.Replayed?
      ensures loaded.Proceed? ==>
        && r.body.bill < |db.bills| && loaded.bill == db.bills[r.body.bill]
        && loaded.bill.branch == r.context.branch && Payable(loaded.bill.status)
        && !DayLocked(db.closes, r.context.branch, loaded.bill.date)
        && AmountFits(r.body, loaded.bill)
    {
      if r.body.bill >= |db.bills| || db.bills[r.body.bill].branch != r.context.branch {
        return Stopped(NotFound);
      }
      var bill := db.bills[r.body.bill];
      if bill.status !in {Generated, PaymentPending} {
        return Stopped(BillNotPayable);
      }
      var locked := dailyClose.BusinessDayLocked(r.context.branch, bill.date);
      if locked {
        return Stopped(DayIsLocked);
      }
      var due := bill.total - bill.amountPaid;
      if due <= 0 || r.body.amount <= 0 || r.body.amount > due {
        return Stopped(AmountInvalid);
      }
      loaded := Proceed(bill);
    }

    method PayCash(r: PayRequest, now: int) returns (outcome: Outcome)
      requires Valid() && r.body.CashPayment?
      modifies db
      ensures (db.Snapshot(), outcome) == Pay(old(db.Snapshot()), r, now)
    {
      var existing := FindIdempotent(KeyOf(r), r.body);
      if existing.Some? {
        return existing.value;
      }
      var loaded := LoadPayableBill(r);
      if loaded.Stopped? {
        return Refused(loaded.error);
      }
      if r.body.tendered < r.body.amount {
        return Refused(TenderedInsufficient);
      }
      outcome := Settle(r, loaded.bill, now);
    }

    /** The lookup takes whichever row carries the reference; while references agree it cannot matter which. */
    method ReferenceTaken(reference: string, bill: Id) returns (taken: bool)
      requires ReferencesAgree(db.references)
      ensures taken <==> !NamesOnly(db.references, reference, bill)
      ensures taken <==> ReferenceKnown(db.references, reference)
                         && FindReference(db.references, reference) != bill
    {
      LookupDecides(db.references, reference, bill);
      taken := false;
      if exists k | k in db.references :: k.1 == reference {
        var k :| k in db.references && k.1 == reference;
        taken := db.references[k] != bill;
      }
    }

    method PayTransfer(r: PayRequest, now: int) returns (outcome: Outcome)
      requires Valid() && r.body.TransferPayment?
      requires ReferencesAgree(db.references)
      modifies db
      ensures (db.Snapshot(), outcome) == Pay(old(db.Snapshot()), r, now)
    {
      var existing := FindIdempotent(KeyOf(r), r.body);
      if existing.Some? {
        return existing.value;
      }
      var loaded := LoadPayableBill(r);
      if loaded.Stopped? {
        return Refused(loaded.error);
      }
      if r.verdict.Verified? && r.verdict.amount < r.body.amount {
        return Refused(TransferUnderDue);
      }
      if ReferenceOf(r).Some? {
        var taken := ReferenceTaken(ReferenceOf(r).value, r.body.bill);
        if taken {
          return Refused(ReferenceAlreadyUsed);
        }
      }
      outcome := Settle(r, loaded.bill, now);
    }
  }

  lemma PriceMore(items: seq<Item>, charged: seq<Id>, k: nat, bill: Id)
    requires k < |charged| && forall i | 0 <= i < |charged| :: charged[i] < |items|
    ensures var before, after := LinesFor(items, charged[..k], bill), LinesFor(items, charged[..k + 1], bill);
      && after == before + [BillLine(bill, charged[k], Billing.LineTotal(items[charged[k]]))]
      && Sum(after, LineAmount()) == Sum(before, LineAmount()) + Billing.LineTotal(items[charged[k]])
  {
    assert charged[..k + 1][..k] == charged[..k];
    SumAppend(LinesFor(items, charged[..k], bill),
              BillLine(bill, charged[k], Billing.LineTotal(items[charged[k]])), LineAmount());
  }
}
