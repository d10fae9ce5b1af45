/** Bill requests, bills and payments: what each billing command does to the stored rows. */
module Billing {
  import opened Sums
  import opened Records

  const REQUESTABLE: set<SessionStatus> := {Open, ActiveOrder, AttentionRequired}

  // ---- charges -----------------------------------------------------------

  predicate Chargeable(item: Item) { !item.cancelled && item.state != Cancelled }

  function OwedBy(session: Id): Item -> bool
  {
    (item: Item) => item.session == session && Chargeable(item)
  }

  function Self(): int -> int { x => x }

  function LineTotal(item: Item): int
  {
    (item.unitPrice + Sum(item.modifiers, Self())) * item.quantity
  }

  function LineAmount(): BillLine -> int { (line: BillLine) => line.lineTotal }
  function LineOf(bill: Id): BillLine -> int { (line: BillLine) => if line.bill == bill then line.lineTotal else 0 }

  function LinesFor(items: seq<Item>, charged: seq<Id>, bill: Id): (lines: seq<BillLine>)
    requires forall k | 0 <= k < |charged| :: charged[k] < |items|
    ensures |lines| == |charged|
    ensures forall k | 0 <= k < |lines| :: lines[k] == BillLine(bill, charged[k], LineTotal(items[charged[k]]))
  {
    if |charged| == 0 then []
    else
      var n := |charged| - 1;
      LinesFor(items, charged[..n], bill) + [BillLine(bill, charged[n], LineTotal(items[charged[n]]))]
  }

  predicate HasBill(bills: seq<Bill>, session: Id)
  {
    exists b | 0 <= b < |bills| :: bills[b].session == session
  }

  predicate HasPending(requests: seq<BillRequest>, session: Id)
  {
    exists r | 0 <= r < |requests| :: requests[r].session == session && requests[r].status == Pending
  }

  predicate HasItems(items: seq<Item>, session: Id)
  {
    exists i | 0 <= i < |items| :: items[i].session == session
  }

  // ---- bill requests -----------------------------------------------------

  function WithSession(db: Db, id: Id, row: Session): Db
    requires id < |db.floor.sessions|
  {
    db.(floor := db.floor.(sessions := db.floor.sessions[id := row]))
  }

  function Restated(row: Session, status: SessionStatus): Session
  {
    row.(status := status, version := row.version + 1)
  }

  function RequestBill(db: Db, c: Context, session: Id, expected: int): (Db, Outcome)
  {
    if session >= |db.floor.sessions| || db.floor.sessions[session].branch != c.branch then
      (db, Refused(NotFound))
    else
      var row := db.floor.sessions[session];
      if row.version != expected then (db, Refused(StaleVersion))
      else if row.status !in REQUESTABLE then (db, Refused(NotBillable))
      else if HasBill(db.billing.bills, session) then (db, Refused(BillAlreadyExists))
      else if HasPending(db.floor.requests, session) then (db, Refused(RequestPending))
      else if Positions(db.floor.items, OwedBy(session)) == [] then (db, Refused(NothingToBill))
      else
        var updated := Restated(row, BillRequested);
        var request := BillRequest(c.branch, row.date, session, Pending);
        (WithSession(db, session, updated)
         .(floor := WithSession(db, session, updated).floor
                    .(requests := db.floor.requests + [request])),
         Done(RequestAnswer(|db.floor.requests|, Pending, updated.status, updated.version)))
  }

  /** Withdrawing a request puts the session back to ACTIVE_ORDER, or to OPEN if nothing was ordered. */
  function CancelRequest(db: Db, c: Context, request: Id): (Db, Outcome)
  {
    if request >= |db.floor.requests| || db.floor.requests[request].branch != c.branch then
      (db, Refused(NotFound))
    else
      var row := db.floor.requests[request];
      if row.session >= |db.floor.sessions| then (db, Refused(NotFound))
      else if row.status != Pending then (db, Refused(RequestNotPending))
      else
        var status := if HasItems(db.floor.items, row.session) then ActiveOrder else Open;
        var updated := Restated(db.floor.sessions[row.session], status);
        (WithSession(db, row.session, updated)
         .(floor := WithSession(db, row.session, updated).floor
                    .(requests := db.floor.requests[request := row.(status := Withdrawn)])),
         Done(RequestAnswer(request, Withdrawn, updated.status, updated.version)))
  }

  // ---- bills -------------------------------------------------------------

  function WithBill(billing: BillTables, row: Bill, lines: seq<BillLine>): BillTables
  {
    billing.(bills := billing.bills + [row], lines := billing.lines + lines)
  }

  function GenerateBill(db: Db, c: Context, request: Id, expected: int): (Db, Outcome)
  {
    if request >= |db.floor.requests| || db.floor.requests[request].branch != c.branch then
      (db, Refused(NotFound))
    else
      var req := db.floor.requests[request];
      if req.session >= |db.floor.sessions| then (db, Refused(NotFound))
      else if req.status != Pending then (db, Refused(RequestNotPending))
      else if HasBill(db.billing.bills, req.session) then (db, Refused(BillAlreadyExists))
      else
        var row := db.floor.sessions[req.session];
        var charged := Positions(db.floor.items, OwedBy(req.session));
        if row.version != expected then (db, Refused(StaleVersion))
        else if charged == [] then (db, Refused(NothingToBill))
        else
          var bill := |db.billing.bills|;
          var lines := LinesFor(db.floor.items, charged, bill);
          var subtotal := Sum(lines, LineAmount());
          if subtotal < 0 then (db, Refused(CheckViolated))
          else
            var billRow := Bill(c.branch, row.date, req.session, Generated, subtotal, 0, 1);
            var withSession := WithSession(db, req.session, Restated(row, BillReady));
            (withSession
             .(floor := withSession.floor.(requests := db.floor.requests[request := req.(status := Fulfilled)]),
               billing := WithBill(db.billing, billRow, lines)),
             Done(BillAnswer(bill, billRow)))
  }

  // ---- counter sale ------------------------------------------------------

  datatype SaleLine = SaleLine(quantity: nat, unitPrice: int)

  function ClosedBySale(row: Session, table: Id, now: int): Session
  {
    if row.table == table && row.closedAt.None? && row.status != Closed then
      Restated(row, Closed).(closedAt := Some(now))
    else row
  }

  /** Every session still open on the table is closed before the sale opens its own. */
  function CloseLeftovers(sessions: seq<Session>, table: Id, now: int): (r: seq<Session>)
    ensures |r| == |sessions|
    ensures forall i | 0 <= i < |r| :: r[i] == ClosedBySale(sessions[i], table, now)
  {
    if |sessions| == 0 then []
    else
      var n := |sessions| - 1;
      CloseLeftovers(sessions[..n], table, now) + [ClosedBySale(sessions[n], table, now)]
  }

  function SaleItems(branch: Id, session: Id, sale: seq<SaleLine>): (items: seq<Item>)
    ensures |items| == |sale|
    ensures forall i | 0 <= i < |items| ::
      items[i] == Item(branch, session, sale[i].quantity, sale[i].unitPrice, [], Served, false)
  {
    if |sale| == 0 then []
    else
      var n := |sale| - 1;
      SaleItems(branch, session, sale[..n])
      + [Item(branch, session, sale[n].quantity, sale[n].unitPrice, [], Served, false)]
  }

  function Upto(from: nat, n: nat): (r: seq<Id>)
    ensures |r| == n
    ensures forall k | 0 <= k < n :: r[k] == from + k
  {
    if n == 0 then [] else Upto(from, n - 1) + [from + n - 1]
  }

  /** `table` is the first of the branch's tables that is not retired; which one sorts first is an input. */
  function CounterSale(db: Db, c: Context, now: int, today: int, table: Id, sale: seq<SaleLine>): (Db, Outcome)
  {
    if table >= |db.floor.tables| || db.floor.tables[table].branch != c.branch
       || db.floor.tables[table].status == Retired then (db, Refused(NotFound))
    else
      var session := |db.floor.sessions|;
      var row := Session(c.branch, table, today, Counter, Open, None, 1);
      var sold := SaleItems(c.branch, session, sale);
      var items := db.floor.items + sold;
      var bill := |db.billing.bills|;
      var lines := LinesFor(items, Upto(|db.floor.items|, |sold|), bill);
      var subtotal := Sum(lines, LineAmount());
      if subtotal < 0 then (db, Refused(CheckViolated))
      else
        var billRow := Bill(c.branch, today, session, Generated, subtotal, 0, 1);
        (db.(floor := db.floor.(sessions := CloseLeftovers(db.floor.sessions, table, now) + [row],
                                items := items),
             billing := WithBill(db.billing, billRow, lines)),
         Done(BillAnswer(bill, billRow)))
  }

  // ---- payments ----------------------------------------------------------

  predicate Payable(status: BillStatus) { status == Generated || status == PaymentPending }

  function CommandOf(body: PayBody): CommandType
  {
    if body.CashPayment? then PayByCash else PayByTransfer
  }

  function KeyOf(r: PayRequest): IdemKey { IdemKey(r.context.user, CommandOf(r.body), r.key) }

  /** The reference a transfer settles under: the verified one when the bank names one. */
  function ReferenceOf(r: PayRequest): Option<string>
  {
    if r.body.CashPayment? then None
    else if r.verdict.Verified? && r.verdict.reference.Some? then r.verdict.reference
    else r.body.typedReference
  }

  predicate ReferenceKnown(references: map<(Id, string), Id>, reference: string)
  {
    exists k | k in references :: k.1 == reference
  }

  /** The row the reference lookup returns: any row carrying the reference. */
  ghost function FindReference(references: map<(Id, string), Id>, reference: string): Id
    requires ReferenceKnown(references, reference)
  {
    var k :| k in references && k.1 == reference;
    references[k]
  }

  datatype Loaded = Replayed(answer: PaymentAnswer) | Stopped(error: Error) | Proceed(bill: Bill)

  /** Everything a payment command checks before its transaction starts. */
  ghost function LoadPayment(db: Db, r: PayRequest): Loaded
  {
    var key := KeyOf(r);
    if key in db.idempotency then
      if db.idempotency[key].body != r.body then Stopped(KeyReused)
      else Replayed(db.idempotency[key].answer)
    else if r.body.bill >= |db.billing.bills| || db.billing.bills[r.body.bill].branch != r.context.branch then
      Stopped(NotFound)
    else
      var bill := db.billing.bills[r.body.bill];
      var due := bill.total - bill.amountPaid;
      if !Payable(bill.status) then Stopped(BillNotPayable)
      else if DayLocked(db.closes, r.context.branch, bill.date) then Stopped(DayIsLocked)
      else if due <= 0 || r.body.amount <= 0 || r.body.amount > due then Stopped(AmountInvalid)
      else if r.body.CashPayment? then
        if r.body.tendered < r.body.amount then Stopped(TenderedInsufficient) else Proceed(bill)
      else if r.verdict.Verified? && r.verdict.amount < r.body.amount then Stopped(TransferUnderDue)
      else
        match ReferenceOf(r)
        case None => Proceed(bill)
        case Some(reference) =>
          if ReferenceKnown(db.billing.references, reference)
             && FindReference(db.billing.references, reference) != r.body.bill
          then Stopped(ReferenceAlreadyUsed)
          else Proceed(bill)
  }

  function NextPaid(snapshot: Bill, amount: int): int { snapshot.amountPaid + amount }

  predicate SettlesInFull(snapshot: Bill, amount: int) { NextPaid(snapshot, amount) >= snapshot.total }

  /**
   The compare-and-set of a payment. It tests the version the client sent, and writes amounts computed
   from the snapshot loaded before the transaction.
   */
  function ApplyPartialPayment(current: Bill, snapshot: Bill, expected: int, amount: int): Option<Bill>
  {
    if current.version != expected || !Payable(current.status) then None
    else if SettlesInFull(snapshot, amount) then
      Some(current.(status := FullyPaid, amountPaid := snapshot.total, version := current.version + 1))
    else
      Some(current.(status := PaymentPending, amountPaid := NextPaid(snapshot, amount),
                    version := current.version + 1))
  }

  /** A cash payment of a counter sale closes its session; any other full payment marks it PAID. */
  function SeatingPaid(row: Session, closeCounter: bool, now: int): Session
  {
    if closeCounter then Restated(row, Closed).(closedAt := Some(now)) else Restated(row, Paid)
  }

  function SeatingAfter(row: Session, full: bool, byCash: bool, now: int): Session
  {
    if full then SeatingPaid(row, byCash && row.kind == Counter, now) else row
  }

  function PaymentRow(r: PayRequest, snapshot: Bill): Payment
  {
    Payment(r.context.branch, snapshot.date, r.body.bill,
            if r.body.CashPayment? then Cash else Transfer, r.body.amount, r.context.shift)
  }

  function StoreReference(references: map<(Id, string), Id>, user: Id, reference: Option<string>, bill: Id)
    : map<(Id, string), Id>
  {
    if reference.None? || (user, reference.value) in references then references
    else references[(user, reference.value) := bill]
  }

  function StoreAudit(audits: seq<TransferAudit>, payment: Id, bill: Id, reference: Option<string>)
    : seq<TransferAudit>
  {
    if reference.None? then audits else audits + [TransferAudit(payment, bill, reference.value)]
  }

  function StoreAnswer(rows: map<IdemKey, IdemRow>, key: IdemKey, body: PayBody, answer: PaymentAnswer)
    : map<IdemKey, IdemRow>
  {
    if key in rows then rows[key := rows[key].(answer := answer)] else rows[key := IdemRow(body, answer)]
  }

  function AnswerFor(r: PayRequest, payment: Id, snapshot: Bill, bill: Bill, seating: Session): PaymentAnswer
  {
    var full := SettlesInFull(snapshot, r.body.amount);
    PaymentAnswer(payment, r.body.amount,
                  if r.body.CashPayment? then r.body.tendered - r.body.amount else 0,
                  if r.body.TransferPayment? && r.verdict.Verified? then r.verdict.amount - r.body.amount else 0,
                  if full then 0 else snapshot.total - NextPaid(snapshot, r.body.amount),
                  bill.status, bill.amountPaid, bill.version, seating.status, seating.version)
  }

  /** The transaction of a payment command, run with the bill loaded earlier. */
  function CommitPayment(db: Db, r: PayRequest, snapshot: Bill, now: int): (Db, Outcome)
  {
    if r.body.bill >= |db.billing.bills| || snapshot.session >= |db.floor.sessions| then
      (db, Refused(NotFound))
    else
      match ApplyPartialPayment(db.billing.bills[r.body.bill], snapshot, r.body.expected, r.body.amount)
      case None => (db, Refused(StaleVersion))
      case Some(bill) =>
        var payment := |db.billing.payments|;
        var seating := SeatingAfter(db.floor.sessions[snapshot.session],
                                    SettlesInFull(snapshot, r.body.amount), r.body.CashPayment?, now);
        var answer := AnswerFor(r, payment, snapshot, bill, seating);
        (WithSession(db, snapshot.session, seating)
         .(billing := db.billing.(
             bills := db.billing.bills[r.body.bill := bill],
             payments := db.billing.payments + [PaymentRow(r, snapshot)],
             references := StoreReference(db.billing.references, r.context.user, ReferenceOf(r), r.body.bill),
             audits := StoreAudit(db.billing.audits, payment, r.body.bill, ReferenceOf(r))),
           idempotency := StoreAnswer(db.idempotency, KeyOf(r), r.body, answer)),
         Done(PaidAnswer(answer)))
  }

  /** A payment command run without interference. */
  ghost function Pay(db: Db, r: PayRequest, now: int): (Db, Outcome)
  {
    match LoadPayment(db, r)
    case Replayed(answer) => (db, Done(PaidAnswer(answer)))
    case Stopped(error) => (db, Refused(error))
    case Proceed(bill) => CommitPayment(db, r, bill, now)
  }
}
