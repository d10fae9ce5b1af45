/** A locked business day stays as it was, whatever commands follow. */
module DayLock {
  import opened Sums
  import opened Records
  import opened Billing
  import opened CashCustody
  import opened DailyClose
  import opened DoubleEntry
  import Pouches
  import opened Protocol

  function PaidOnDay(branch: Id, date: int): Payment -> bool
  {
    (p: Payment) => p.branch == branch && p.date == date
  }

  function DropOnDay(branch: Id, date: int): Drop -> bool
  {
    (d: Drop) => d.branch == branch && d.date == date
  }

  function EntryOnDay(branch: Id, date: int): Entry -> bool
  {
    (e: Entry) => e.branch == branch && e.date == date && e.entryType in {DropOut, DropIn}
  }

  /** Everything that carries the date and is meant to freeze. */
  datatype Frozen = Frozen(close: Close, payments: seq<Payment>, drops: seq<Drop>, entries: seq<Entry>)

  function FrozenPart(db: Db, branch: Id, date: int): Frozen
    requires DayLocked(db.closes, branch, date)
  {
    Frozen(db.closes[(branch, date)],
           Filter(db.billing.payments, PaidOnDay(branch, date)),
           Filter(db.custody.drops, DropOnDay(branch, date)),
           Filter(db.custody.ledger, EntryOnDay(branch, date)))
  }

  ghost predicate CashFrozen(before: Custody, after: Custody, branch: Id, date: int)
  {
    && Filter(after.drops, DropOnDay(branch, date)) == Filter(before.drops, DropOnDay(branch, date))
    && Filter(after.ledger, EntryOnDay(branch, date)) == Filter(before.ledger, EntryOnDay(branch, date))
  }

  lemma PairOnOtherDay(ledger: seq<Entry>, writer: Id, drop: Id, row: Drop, amount: int, drawer: Id, branch: Id, date: int)
    requires !(writer == branch && row.date == date)
    ensures Filter(WriteReceiveLedger(ledger, writer, drop, row, amount, drawer), EntryOnDay(branch, date))
            == Filter(ledger, EntryOnDay(branch, date))
  {
    FilterAppend(ledger, OutEntry(writer, drop, row, amount), EntryOnDay(branch, date));
    FilterAppend(ledger + [OutEntry(writer, drop, row, amount)], InEntry(writer, drop, row, amount, drawer),
                 EntryOnDay(branch, date));
  }

  lemma InitiateFreezes(db: Db, c: Context, amount: int, branch: Id, date: int)
    requires DayLocked(db.closes, branch, date)
    ensures var after := InitiateDrop(db, c, amount).0.custody;
      CashFrozen(db.custody, after, branch, date)
  {
    if InitiateDrop(db, c, amount).1.Done? {
      FilterAppend(db.custody.drops, InitiateDrop(db, c, amount).1.answer.dropRow, DropOnDay(branch, date));
    }
  }

  lemma ReceiveFreezes(db: Db, c: Context, drop: Id, counted: int, expected: int, branch: Id, date: int)
    requires DayLocked(db.closes, branch, date)
    ensures var after := ReceiveDrop(db, c, drop, counted, expected).0.custody;
      CashFrozen(db.custody, after, branch, date)
  {
    if ReceiveDrop(db, c, drop, counted, expected).1.Done? {
      var row := db.custody.drops[drop];
      var after := ReceiveDrop(db, c, drop, counted, expected).0.custody;
      var ready := EnsureDrawer(db.custody, c);
      FilterUpdateOutside(db.custody.drops, drop, after.drops[drop], DropOnDay(branch, date));
      PairOnOtherDay(db.custody.ledger, c.branch, drop, row.(counted := Some(counted)), counted, ready.drawer, branch, date);
    }
  }

  /** Resolving never looks at the lock, and need not: an open dispute cannot belong to a locked day. */
  lemma ResolveFreezes(db: Db, c: Context, dispute: Id, how: Resolution, branch: Id, date: int)
    requires CashAgrees(db.custody) && LocksAgree(db.custody.drops, db.closes)
    requires DayLocked(db.closes, branch, date)
    ensures var after := ResolveDispute(db, c, dispute, how).0.custody;
      CashFrozen(db.custody, after, branch, date)
  {
    if ResolveDispute(db, c, dispute, how).1.Done? {
      var open := db.custody.disputes[dispute];
      var row := db.custody.drops[open.drop];
      var after := ResolveDispute(db, c, dispute, how).0.custody;
      assert DisputeFits(open, db.custody.drops) && DropFits(row, |db.custody.drawers|);
      assert !DayLocked(db.closes, row.branch, row.date);
      var amount := ResolvedAmount(open, how).value;
      FilterUpdateOutside(db.custody.drops, open.drop, after.drops[open.drop], DropOnDay(branch, date));
      PairOnOtherDay(db.custody.ledger, c.branch, open.drop, row, amount, row.drawer.value, branch, date);
    }
  }

  lemma PayFreezes(db: Db, r: PayRequest, now: int, branch: Id, date: int)
    requires DayLocked(db.closes, branch, date)
    ensures Filter(Pay(db, r, now).0.billing.payments, PaidOnDay(branch, date))
            == Filter(db.billing.payments, PaidOnDay(branch, date))
  {
    if LoadPayment(db, r).Proceed? {
      FilterAppend(db.billing.payments, PaymentRow(r, LoadPayment(db, r).bill), PaidOnDay(branch, date));
    }
  }

  lemma OutsideFreezes(db: Db, act: Outside, branch: Id, date: int)
    ensures Filter(ApplyOutside(db, act).custody.ledger, EntryOnDay(branch, date))
            == Filter(db.custody.ledger, EntryOnDay(branch, date))
  {
    if act.Post? {
      FilterAppend(db.custody.ledger, act.entry, EntryOnDay(branch, date));
    }
  }

  lemma OtherBillsFreeze(db: Db, act: Act)
    requires Bills(act.command) && !act.command.PayBill?
    ensures Apply(db, act).0.billing.payments == db.billing.payments
  {
  }

  lemma BillsFreeze(db: Db, act: Act, branch: Id, date: int)
    requires DayLocked(db.closes, branch, date)
    requires Bills(act.command)
    ensures Filter(Apply(db, act).0.billing.payments, PaidOnDay(branch, date))
            == Filter(db.billing.payments, PaidOnDay(branch, date))
  {
    if act.command.PayBill? {
      PayFreezes(db, PayRequest(act.context, act.command.key, act.command.body, act.command.verdict), act.now,
                 branch, date);
    } else {
      OtherBillsFreeze(db, act);
    }
  }

  lemma StartsFreeze(db: Db, act: Act, branch: Id, date: int)
    requires DayLocked(db.closes, branch, date) && act.command.Initiate?
    ensures CashFrozen(db.custody, Apply(db, act).0.custody, branch, date)
  {
    InitiateFreezes(db, act.context, act.command.amount, branch, date);
  }

  lemma ReceiptsFreeze(db: Db, act: Act, branch: Id, date: int)
    requires DayLocked(db.closes, branch, date) && act.command.Receive?
    ensures CashFrozen(db.custody, Apply(db, act).0.custody, branch, date)
  {
    ReceiveFreezes(db, act.context, act.command.drop, act.command.counted, act.command.expected, branch, date);
  }

  lemma DisputesFreeze(db: Db, act: Act, branch: Id, date: int)
    requires CashAgrees(db.custody) && LocksAgree(db.custody.drops, db.closes)
    requires DayLocked(db.closes, branch, date)
    requires act.command.Resolve?
    ensures CashFrozen(db.custody, Apply(db, act).0.custody, branch, date)
  {
    ResolveFreezes(db, act.context, act.command.dispute, act.command.how, branch, date);
  }

  lemma DayFreezes(db: Db, act: Act, branch: Id, date: int)
    requires DayLocked(db.closes, branch, date)
    requires EndsDay(act.command)
    ensures DayLocked(Apply(db, act).0.closes, branch, date)
    ensures Apply(db, act).0.closes[(branch, date)] == db.closes[(branch, date)]
  {
  }

  lemma StepFreezes(db: Db, act: Act, branch: Id, date: int)
    requires CashAgrees(db.custody) && LocksAgree(db.custody.drops, db.closes)
    requires DayLocked(db.closes, branch, date)
    ensures DayLocked(Apply(db, act).0.closes, branch, date)
    ensures FrozenPart(Apply(db, act).0, branch, date) == FrozenPart(db, branch, date)
  {
    StepSpares(db, act);
    if Bills(act.command) {
      BillsFreeze(db, act, branch, date);
    } else if act.command.Resolve? {
      DisputesFreeze(db, act, branch, date);
    } else if act.command.Initiate? {
      StartsFreeze(db, act, branch, date);
    } else if act.command.Receive? {
      ReceiptsFreeze(db, act, branch, date);
    } else if EndsDay(act.command) {
      DayFreezes(db, act, branch, date);
    } else if act.command.FromOutside? {
      OutsideFreezes(db, act.command.act, branch, date);
    }
  }

  /**
   Once a day is locked it stays locked, and its close row, its payments, its drops and its drop entries are
   the same after any further commands.
   */
  lemma {:induction false} LockedDayFrozen(db: Db, acts: seq<Act>, branch: Id, date: int)
    requires Consistent(db) && DayLocked(db.closes, branch, date)
    ensures DayLocked(Run(db, acts).closes, branch, date)
    ensures FrozenPart(Run(db, acts), branch, date) == FrozenPart(db, branch, date)
  {
    if |acts| > 0 {
      var mid := acts[..|acts| - 1];
      LockedDayFrozen(db, mid, branch, date);
      RunKeepsConsistent(db, mid);
      StepFreezes(Run(db, mid), acts[|acts| - 1], branch, date);
    }
  }

  lemma SalesFromFrozen(payments: seq<Payment>, branch: Id, date: int, means: Method)
    ensures Sum(payments, SalesOn(branch, date, means))
            == Sum(Filter(payments, PaidOnDay(branch, date)), SalesOn(branch, date, means))
  {
    SumFiltered(payments, PaidOnDay(branch, date), SalesOn(branch, date, means));
  }

  /** The sales a lock wrote down are still what the day's payments add up to after any later run. */
  lemma LockedSalesStayTrue(db: Db, c: Context, date: int, expected: int, acts: seq<Act>)
    requires Consistent(db)
    requires LockClose(db, c, date, expected).1.Done?
    ensures var locked := LockClose(db, c, date, expected).0;
      var end := Run(locked, acts);
      && DayLocked(end.closes, c.branch, date)
      && end.closes[(c.branch, date)].totals.cashSales
         == Sum(end.billing.payments, SalesOn(c.branch, date, Cash))
      && end.closes[(c.branch, date)].totals.transferSales
         == Sum(end.billing.payments, SalesOn(c.branch, date, Transfer))
  {
    LockConsistent(db, c, date, expected);
    LockWritesSales(db, c, date, expected);
    var locked := LockClose(db, c, date, expected).0;
    LockedDayFrozen(locked, acts, c.branch, date);
    var end := Run(locked, acts);
    SalesFromFrozen(end.billing.payments, c.branch, date, Cash);
    SalesFromFrozen(end.billing.payments, c.branch, date, Transfer);
    SalesFromFrozen(locked.billing.payments, c.branch, date, Cash);
    SalesFromFrozen(locked.billing.payments, c.branch, date, Transfer);
  }

  lemma LockConsistent(db: Db, c: Context, date: int, expected: int)
    requires Consistent(db)
    ensures Consistent(LockClose(db, c, date, expected).0)
  {
    var act := Act(c, 0, 0, LockDay(date, expected));
    assert Apply(db, act).0 == LockClose(db, c, date, expected).0;
    StepKeepsConsistent(db, act);
  }

  lemma LockWritesSales(db: Db, c: Context, date: int, expected: int)
    requires LockClose(db, c, date, expected).1.Done?
    ensures var locked := LockClose(db, c, date, expected).0;
      && DayLocked(locked.closes, c.branch, date)
      && locked.closes[(c.branch, date)].totals.cashSales
         == Sum(locked.billing.payments, SalesOn(c.branch, date, Cash))
      && locked.closes[(c.branch, date)].totals.transferSales
         == Sum(locked.billing.payments, SalesOn(c.branch, date, Transfer))
  {
  }

  /**
   At the moment a day is locked, each shift of that day whose rows all carry the day, and that handed
   nothing over, holds no more than what was posted into drawers for it.
   */
  lemma LockMeansDropped(db: Db, c: Context, date: int, expected: int, shift: Id)
    requires Consistent(db) && LockClose(db, c, date, expected).1.Done?
    requires shift < |db.custody.shifts| && DayShift(db.custody.shifts[shift], c.branch, date)
    requires forall p | p in db.billing.payments && p.branch == c.branch && p.shift == shift && p.means == Cash ::
      p.date == date
    requires forall d | d in db.custody.drops && d.shift == shift :: d.date == date && d.branch == c.branch
    requires HandoverNet(db.custody.ledger, shift) == 0
    ensures Collected(db.billing.payments, c.branch, shift) <= Sum(db.custody.ledger, PostedFor(db.custody.drops, shift))
  {
    LockNeedsClearDay(db, c, date, expected);
    var swept := AbandonTickets(db, c.branch);
    assert WaiterLine(swept, c.branch, shift, date) == WaiterLine(db, c.branch, shift, date);
    assert WaiterLine(db, c.branch, shift, date).undropped == 0;
    Pouches.SummariesAgree(db, c.branch, shift, date);
    CashConserved(db.billing.payments, db.custody, c.branch, shift);
    forall d | d in db.custody.drops ensures PendingBy(shift)(d) == 0 && DisputedBy(shift)(d) == 0 {
      var k :| 0 <= k < |db.custody.drops| && db.custody.drops[k] == d;
    }
    SumZero(db.custody.drops, PendingBy(shift));
    SumZero(db.custody.drops, DisputedBy(shift));
  }
}
