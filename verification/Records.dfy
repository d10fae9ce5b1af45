/**
 The stored rows the settlement protocol reads and writes. Money is in cents, a business date is a
 day number, an id is the position of a row in its table (rows are never deleted), and one tenant is
 modelled.
 */
module Records {
  type Id = nat

  datatype Option<+T> = None | Some(value: T) {
    function GetOr(default: T): T { if Some? then value else default }
  }

  // ---- floor -------------------------------------------------------------

  datatype TableStatus = Available | Occupied | Retired
  datatype Table = Table(branch: Id, status: TableStatus, archived: bool, callPickup: bool)

  datatype SessionKind = DineIn | CallPickup | Counter
  datatype SessionStatus = Open | ActiveOrder | AttentionRequired | BillRequested | BillReady | Paid | Closed
  datatype Session = Session(branch: Id, table: Id, date: int, kind: SessionKind,
                             status: SessionStatus, closedAt: Option<int>, version: nat)

  datatype ItemState =
    | Confirmed | Queued | Acknowledged | InPreparation | Ready | Delayed | CannotPrepare
    | Served | ChangeRequested | CancellationRequested | Cancelled
  datatype Item = Item(branch: Id, session: Id, quantity: nat, unitPrice: int, modifiers: seq<int>,
                       state: ItemState, cancelled: bool)

  datatype RequestStatus = Pending | Withdrawn | Fulfilled
  datatype BillRequest = BillRequest(branch: Id, date: int, session: Id, status: RequestStatus)

  /** A hotel room's session; the day close only looks at whether it is still open. */
  datatype Room = Room(branch: Id, date: int, open: bool)

  datatype Floor = Floor(sessions: seq<Session>, tables: seq<Table>, items: seq<Item>,
                         requests: seq<BillRequest>, rooms: seq<Room>)

  // ---- billing -----------------------------------------------------------

  datatype BillStatus = Generated | PaymentPending | FullyPaid | Archived
  datatype Bill = Bill(branch: Id, date: int, session: Id, status: BillStatus, total: int,
                       amountPaid: int, version: nat)
  datatype BillLine = BillLine(bill: Id, item: Id, lineTotal: int)

  datatype Method = Cash | Transfer
  /** A payment row; the code only ever writes rows in status SETTLED. */
  datatype Payment = Payment(branch: Id, date: int, bill: Id, means: Method, amount: int, shift: Id)

  /** The audit row of a verified transfer. */
  datatype TransferAudit = TransferAudit(payment: Id, bill: Id, reference: string)

  datatype BillTables = BillTables(bills: seq<Bill>, lines: seq<BillLine>, payments: seq<Payment>,
                             references: map<(Id, string), Id>, audits: seq<TransferAudit>)

  // ---- cash custody ------------------------------------------------------

  datatype Shift = Shift(branch: Id, date: int)

  datatype DropStatus = Initiated | Disputed | Received
  datatype Drop = Drop(branch: Id, date: int, shift: Id, declared: int, status: DropStatus,
                       counted: Option<int>, resolution: Option<int>, drawer: Option<Id>, version: nat)

  datatype Dispute = Dispute(branch: Id, drop: Id, declared: int, counted: int, variance: int,
                             open: bool, resolution: Option<int>)

  datatype Holder = WaiterShift(shift: Id) | CashierDrawer(drawer: Id)
  datatype EntryType = DropOut | DropIn | OpeningFloat | HandoverIn | HandoverOut | OtherMovement
  datatype Source = FromDrop(drop: Id) | Elsewhere
  datatype Entry = Entry(branch: Id, date: int, holder: Holder, entryType: EntryType, amount: int,
                         source: Source)

  datatype Reconciliation = Reconciliation(flagged: bool, counted: int)
  /** A cashier's financial session, here called a drawer. */
  datatype Drawer = Drawer(branch: Id, date: int, shift: Id, open: bool, openingFloat: int,
                           reconciliation: Option<Reconciliation>)

  datatype Custody = Custody(shifts: seq<Shift>, drops: seq<Drop>, disputes: seq<Dispute>,
                             ledger: seq<Entry>, drawers: seq<Drawer>)

  // ---- daily close -------------------------------------------------------

  datatype CloseStatus = Draft | ReadyForReview | Approved | Locked
  datatype Totals = Totals(cashSales: int, transferSales: int, expectedCash: int, countedCash: int,
                           undropped: int)
  datatype Close = Close(status: CloseStatus, totals: Totals, version: nat)
  type Closes = map<(Id, int), Close>

  predicate DayLocked(closes: Closes, branch: Id, date: int)
  {
    (branch, date) in closes && closes[(branch, date)].status == Locked
  }

  // ---- requests and answers ----------------------------------------------

  /** Who issues a command: the user, the branch and the open shift session of the account. */
  datatype Context = Context(user: Id, branch: Id, shift: Id)

  datatype Error =
    | NotFound | StaleVersion | AlreadyClosed | TableNotAvailable | CloseBlocked
    | NotBillable | BillAlreadyExists | RequestPending | NothingToBill | RequestNotPending
    | CheckViolated | BillNotPayable | DayIsLocked | AmountInvalid | TenderedInsufficient
    | TransferUnderDue | ReferenceAlreadyUsed | KeyReused
    | DropAmountInvalid | ExceedsUndropped | DropNotReceivable | CountedInvalid | DrawerClosed
    | DisputeNotOpen | DropNotDisputed | ResolutionMissing | ResolutionInvalid
    | CloseExists | AlreadyLocked | Blocked

  datatype PaymentAnswer = PaymentAnswer(payment: Id, amount: int, change: int, tip: int,
                                         remaining: int, billStatus: BillStatus, amountPaid: int,
                                         billVersion: nat, sessionStatus: SessionStatus,
                                         sessionVersion: nat)
  datatype Answer =
    | PaidAnswer(paid: PaymentAnswer)
    | SessionAnswer(session: Id, sessionRow: Session)
    | RequestAnswer(request: Id, requestStatus: RequestStatus, status: SessionStatus, version: nat)
    | BillAnswer(bill: Id, billRow: Bill)
    | DropAnswer(drop: Id, dropRow: Drop)
    | CloseAnswer(closeRow: Close)
    | NoAnswer

  datatype Outcome = Done(answer: Answer) | Refused(error: Error)

  // ---- payment requests --------------------------------------------------

  /** The client's request body; the request hash is taken to be injective on it. */
  datatype PayBody =
    | CashPayment(bill: Id, amount: int, expected: int, tendered: int)
    | TransferPayment(bill: Id, amount: int, expected: int, typedReference: Option<string>)

  /** What the transfer verification service answered, when it is enabled. */
  datatype Verdict = NotChecked | Verified(amount: int, reference: Option<string>)

  datatype PayRequest = PayRequest(context: Context, key: string, body: PayBody, verdict: Verdict)

  datatype CommandType = PayByCash | PayByTransfer
  datatype IdemKey = IdemKey(user: Id, command: CommandType, key: string)
  datatype IdemRow = IdemRow(body: PayBody, answer: PaymentAnswer)

  datatype Db = Db(floor: Floor, billing: BillTables, custody: Custody, closes: Closes,
                   idempotency: map<IdemKey, IdemRow>)
}
