/** Waiter pouches, cash drops, disputes and the double-entry cash ledger. */
module CashCustody {
  import opened Sums
  import opened Records

  // ---- what a shift holds ------------------------------------------------

  function CollectedBy(branch: Id, shift: Id): Payment -> int
  {
    (p: Payment) => if p.branch == branch && p.shift == shift && p.means == Cash then p.amount else 0
  }

  function DroppedBy(shift: Id): Drop -> int
  {
    (d: Drop) => if d.shift == shift && d.status == Received
      then d.resolution.GetOr(d.counted.GetOr(0)) else 0
  }

  function PendingBy(shift: Id): Drop -> int
  {
    (d: Drop) => if d.shift == shift && d.status == Initiated then d.declared else 0
  }

  function DisputedBy(shift: Id): Drop -> int
  {
    (d: Drop) => if d.shift == shift && d.status == Disputed then d.declared else 0
  }

  function HandedTo(shift: Id): Entry -> int
  {
    (e: Entry) => if e.holder == WaiterShift(shift) && e.entryType in {HandoverIn, HandoverOut}
      then e.amount else 0
  }

  function Collected(payments: seq<Payment>, branch: Id, shift: Id): int { Sum(payments, CollectedBy(branch, shift)) }
  function Dropped(drops: seq<Drop>, shift: Id): int { Sum(drops, DroppedBy(shift)) }
  function PendingDrops(drops: seq<Drop>, shift: Id): int { Sum(drops, PendingBy(shift)) }
  function DisputedDrops(drops: seq<Drop>, shift: Id): int { Sum(drops, DisputedBy(shift)) }
  function HandoverNet(ledger: seq<Entry>, shift: Id): int { Sum(ledger, HandedTo(shift)) }

  /** The cash still in the pouch, before it is clamped at zero for display. */
  function Pouch(payments: seq<Payment>, custody: Custody, branch: Id, shift: Id): int
  {
    Collected(payments, branch, shift) + HandoverNet(custody.ledger, shift)
    - Dropped(custody.drops, shift) - PendingDrops(custody.drops, shift) - DisputedDrops(custody.drops, shift)
  }

  function Clamp(x: int): int { if x > 0 then x else 0 }

  datatype Summary = Summary(collected: int, dropped: int, undropped: int, pending: int, disputed: int)

  function SummaryForShift(payments: seq<Payment>, custody: Custody, branch: Id, shift: Id): Summary
  {
    Summary(Collected(payments, branch, shift), Dropped(custody.drops, shift),
            Clamp(Pouch(payments, custody, branch, shift)),
            PendingDrops(custody.drops, shift), DisputedDrops(custody.drops, shift))
  }

  // ---- drops -------------------------------------------------------------

  function InitiateDrop(db: Db, c: Context, amount: int): (Db, Outcome)
  {
    if amount <= 0 then (db, Refused(DropAmountInvalid))
    else if amount > SummaryForShift(db.billing.payments, db.custody, c.branch, c.shift).undropped then
      (db, Refused(ExceedsUndropped))
    else if c.shift >= |db.custody.shifts| then (db, Refused(NotFound))
    else if DayLocked(db.closes, c.branch, db.custody.shifts[c.shift].date) then (db, Refused(DayIsLocked))
    else
      var row := Drop(c.branch, db.custody.shifts[c.shift].date, c.shift, amount, Initiated,
                      None, None, None, 1);
      (db.(custody := db.custody.(drops := db.custody.drops + [row])),
       Done(DropAnswer(|db.custody.drops|, row)))
  }

  predicate HasDrawer(drawers: seq<Drawer>, shift: Id)
  {
    exists k | 0 <= k < |drawers| :: drawers[k].shift == shift
  }

  function DrawerOf(drawers: seq<Drawer>, shift: Id): (k: Id)
    requires HasDrawer(drawers, shift)
    ensures k < |drawers| && drawers[k].shift == shift
  {
    var n := |drawers| - 1;
    if drawers[n].shift == shift then n else DrawerOf(drawers[..n], shift)
  }

  datatype DrawerResult = DrawerReady(custody: Custody, drawer: Id) | DrawerRefused(error: Error)

  /** The open drawer of the cashier's shift, created on first use. */
  function EnsureDrawer(custody: Custody, c: Context): DrawerResult
  {
    if HasDrawer(custody.drawers, c.shift) then
      var k := DrawerOf(custody.drawers, c.shift);
      if custody.drawers[k].open then DrawerReady(custody, k) else DrawerRefused(DrawerClosed)
    else if c.shift >= |custody.shifts| then DrawerRefused(NotFound)
    else
      var row := Drawer(c.branch, custody.shifts[c.shift].date, c.shift, true, 0, None);
      DrawerReady(custody.(drawers := custody.drawers + [row]), |custody.drawers|)
  }

  function OutEntry(branch: Id, drop: Id, row: Drop, amount: int): Entry
  {
    Entry(branch, row.date, WaiterShift(row.shift), DropOut, -amount, FromDrop(drop))
  }

  function InEntry(branch: Id, drop: Id, row: Drop, amount: int, drawer: Id): Entry
  {
    Entry(branch, row.date, CashierDrawer(drawer), DropIn, amount, FromDrop(drop))
  }

  /** Received cash leaves the waiter's shift and enters the cashier's drawer. */
  function WriteReceiveLedger(ledger: seq<Entry>, branch: Id, drop: Id, row: Drop, amount: int, drawer: Id)
    : seq<Entry>
  {
    ledger + [OutEntry(branch, drop, row, amount)] + [InEntry(branch, drop, row, amount, drawer)]
  }

  function Accepted(row: Drop, amount: int, drawer: Id): Drop
  {
    row.(status := Received, resolution := Some(amount), drawer := Some(drawer), version := row.version + 1)
  }

  function Questioned(row: Drop, counted: int, drawer: Id): Drop
  {
    row.(status := Disputed, counted := Some(counted), drawer := Some(drawer), version := row.version + 1)
  }

  /** Custody after `amount` of drop `drop` has been accepted into `drawer`. */
  function AcceptInto(custody: Custody, branch: Id, drop: Id, row: Drop, amount: int, drawer: Id): Custody
    requires drop < |custody.drops|
  {
    custody.(drops := custody.drops[drop := Accepted(row, amount, drawer)],
             ledger := WriteReceiveLedger(custody.ledger, branch, drop, row, amount, drawer))
  }

  function QuestionFrom(custody: Custody, branch: Id, drop: Id, row: Drop, counted: int, drawer: Id): Custody
    requires drop < |custody.drops|
  {
    custody.(drops := custody.drops[drop := Questioned(row, counted, drawer)],
             disputes := custody.disputes
                         + [Dispute(branch, drop, row.declared, counted, counted - row.declared, true, None)])
  }

  function ReceiveDrop(db: Db, c: Context, drop: Id, counted: int, expected: int): (Db, Outcome)
  {
    if drop >= |db.custody.drops| || db.custody.drops[drop].branch != c.branch then (db, Refused(NotFound))
    else
      var row := db.custody.drops[drop];
      if DayLocked(db.closes, c.branch, row.date) then (db, Refused(DayIsLocked))
      else if row.status != Initiated then (db, Refused(DropNotReceivable))
      else if row.version != expected then (db, Refused(StaleVersion))
      else if counted < 0 then (db, Refused(CountedInvalid))
      else
        match EnsureDrawer(db.custody, c)
        case DrawerRefused(error) => (db, Refused(error))
        case DrawerReady(custody, drawer) =>
          var after :=
            if counted == row.declared then
              AcceptInto(custody, c.branch, drop, row.(counted := Some(counted)), counted, drawer)
            else QuestionFrom(custody, c.branch, drop, row, counted, drawer);
          (db.(custody := after), Done(DropAnswer(drop, after.drops[drop])))
  }

  datatype Resolution = AcceptCounted | AcceptDeclared | OtherApproved(amount: Option<int>)

  function ResolvedAmount(dispute: Dispute, how: Resolution): Option<int>
  {
    match how
    case AcceptCounted => Some(dispute.counted)
    case AcceptDeclared => Some(dispute.declared)
    case OtherApproved(amount) => amount
  }

  /** Resolving a dispute does not look at the day lock. */
  function ResolveDispute(db: Db, c: Context, dispute: Id, how: Resolution): (Db, Outcome)
  {
    if dispute >= |db.custody.disputes| || db.custody.disputes[dispute].branch != c.branch
       || db.custody.disputes[dispute].drop >= |db.custody.drops| then (db, Refused(NotFound))
    else
      var open := db.custody.disputes[dispute];
      var row := db.custody.drops[open.drop];
      if !open.open then (db, Refused(DisputeNotOpen))
      else if row.status != Disputed then (db, Refused(DropNotDisputed))
      else if ResolvedAmount(open, how).None? then (db, Refused(ResolutionMissing))
      else
        var amount := ResolvedAmount(open, how).value;
        if how.OtherApproved? && amount < 0 then (db, Refused(ResolutionInvalid))
        else
          var ready := if row.drawer.Some? then DrawerReady(db.custody, row.drawer.value)
                       else EnsureDrawer(db.custody, c);
          match ready
          case DrawerRefused(error) => (db, Refused(error))
          case DrawerReady(custody, drawer) =>
            var after := AcceptInto(custody, c.branch, open.drop, row, amount, drawer)
                         .(disputes := custody.disputes[dispute := open.(open := false, resolution := Some(amount))]);
            (db.(custody := after), Done(DropAnswer(open.drop, after.drops[open.drop])))
  }
}
