/** Where a payment shows up: the collector's summary, the day's sales, and the answer the client gets. */
module Takings {
  import opened Sums
  import opened Records
  import opened Billing
  import opened CashCustody
  import opened DailyClose
  import opened Settlement
  import opened Protocol
  import opened DayLock

  // ---- one payment -------------------------------------------------------

  function CollectedIn(db: Db, branch: Id, shift: Id): int
  {
    SummaryForShift(db.billing.payments, db.custody, branch, shift).collected
  }

  /** A payment is collected cash of the shift and branch it was made in, exactly when it is a cash payment. */
  lemma CommitIsCollected(db: Db, r: PayRequest, snapshot: Bill, now: int, branch: Id, shift: Id)
    requires CommitPayment(db, r, snapshot, now).1.Done?
    ensures CollectedIn(CommitPayment(db, r, snapshot, now).0, branch, shift)
            == CollectedIn(db, branch, shift)
               + if r.body.CashPayment? && branch == r.context.branch && shift == r.context.shift then r.body.amount
                 else 0
  {
    SumAppend(db.billing.payments, PaymentRow(r, snapshot), CollectedBy(branch, shift));
  }

  /** The same of the whole command; a replayed answer collects nothing again. */
  lemma PayIsCollected(db: Db, r: PayRequest, now: int, branch: Id, shift: Id)
    requires Pay(db, r, now).1.Done?
    ensures CollectedIn(Pay(db, r, now).0, branch, shift)
            == CollectedIn(db, branch, shift)
               + if KeyOf(r) !in db.idempotency && r.body.CashPayment?
                    && branch == r.context.branch && shift == r.context.shift then r.body.amount
                 else 0
  {
    if LoadPayment(db, r).Proceed? {
      CommitIsCollected(db, r, LoadPayment(db, r).bill, now, branch, shift);
    }
  }

  /** A payment raises the cash or the transfer sales of its branch and of its bill's day, by its method. */
  lemma CommitIsSold(db: Db, r: PayRequest, snapshot: Bill, now: int, branch: Id, date: int)
    requires CommitPayment(db, r, snapshot, now).1.Done?
    ensures var before := DayTotals(db, branch, date);
      var after := DayTotals(CommitPayment(db, r, snapshot, now).0, branch, date);
      var amount := if branch == r.context.branch && date == snapshot.date then r.body.amount else 0;
      && after.cashSales == before.cashSales + (if r.body.CashPayment? then amount else 0)
      && after.transferSales == before.transferSales + (if r.body.CashPayment? then 0 else amount)
  {
    SumAppend(db.billing.payments, PaymentRow(r, snapshot), SalesOn(branch, date, Cash));
    SumAppend(db.billing.payments, PaymentRow(r, snapshot), SalesOn(branch, date, Transfer));
  }

  // ---- what the client is told -------------------------------------------

  /**
   The answer to a payment adds up: change or tip is what was handed over beyond the amount, and what was paid
   and what remains make up the stored bill.
   */
  lemma AnswerAddsUp(db: Db, r: PayRequest, now: int)
    requires Pay(db, r, now).1.Done? && KeyOf(r) !in db.idempotency
    ensures var answer, bill := Pay(db, r, now).1.answer.paid, Pay(db, r, now).0.billing.bills[r.body.bill];
      && answer.amount == r.body.amount
      && (r.body.CashPayment? ==> r.body.tendered == answer.amount + answer.change && answer.tip == 0)
      && (!r.body.CashPayment? ==> answer.change == 0)
      && (!r.body.CashPayment? && r.verdict.Verified? ==> r.verdict.amount == answer.amount + answer.tip)
      && (!r.body.CashPayment? && r.verdict.NotChecked? ==> answer.tip == 0)
      && answer.change >= 0 && answer.tip >= 0 && answer.remaining >= 0
      && answer.amountPaid + answer.remaining == bill.total == db.billing.bills[r.body.bill].total
      && answer.amountPaid == bill.amountPaid == db.billing.bills[r.body.bill].amountPaid + r.body.amount
      && answer.billStatus == bill.status && (bill.status == FullyPaid <==> answer.remaining == 0)
      && answer.payment == |db.billing.payments| && answer.billVersion == bill.version
      && var session := Pay(db, r, now).0.floor.sessions[bill.session];
      && answer.sessionStatus == session.status && answer.sessionVersion == session.version
  {
    LoadedFits(db, r);
  }

  // ---- a day's sales -----------------------------------------------------

  function CollectedOf(db: Db, branch: Id, date: int): Id -> int
  {
    (shift: Id) => WaiterLine(db, branch, shift, date).collected
  }

  function CollectorOf(): Payment -> Id { (p: Payment) => p.shift }
  function BillOf(): Payment -> Id { (p: Payment) => p.bill }

  /** The shifts that collected cash on the day are among `shifts`. */
  ghost predicate Collectors(payments: seq<Payment>, branch: Id, date: int, shifts: seq<Id>)
  {
    && Distinct(shifts)
    && (forall p | p in payments && p.branch == branch && p.date == date && p.means == Cash :: p.shift in shifts)
  }

  /** The cash sales of a day are what its waiters collected. */
  lemma CashSalesByShift(db: Db, branch: Id, date: int, shifts: seq<Id>)
    requires Collectors(db.billing.payments, branch, date, shifts)
    ensures DayTotals(db, branch, date).cashSales == Sum(shifts, CollectedOf(db, branch, date))
  {
    var cash := SalesOn(branch, date, Cash);
    SplitByKey(db.billing.payments, CollectorOf(), cash, shifts);
    forall shift: Id
      ensures CollectedOf(db, branch, date)(shift) == KeyTotal(db.billing.payments, CollectorOf(), cash)(shift)
    {
      SumCongruent(db.billing.payments, CollectedOn(branch, shift, date), OnKey(CollectorOf(), cash, shift));
    }
    SumCongruent(shifts, CollectedOf(db, branch, date), KeyTotal(db.billing.payments, CollectorOf(), cash));
  }

  function PaidOfDay(branch: Id, date: int): Bill -> int
  {
    (b: Bill) => if b.branch == branch && b.date == date then b.amountPaid else 0
  }

  function PaidAt(bills: seq<Bill>, branch: Id, date: int): Id -> int
  {
    (b: Id) => if b < |bills| then PaidOfDay(branch, date)(bills[b]) else 0
  }

  lemma {:induction false} PaidByPosition(bills: seq<Bill>, branch: Id, date: int, n: nat)
    requires n <= |bills|
    ensures Sum(Upto(0, n), PaidAt(bills, branch, date)) == Sum(bills[..n], PaidOfDay(branch, date))
  {
    if n > 0 {
      PaidByPosition(bills, branch, date, n - 1);
      assert bills[..n][..n - 1] == bills[..n - 1];
      assert Upto(0, n)[..n - 1] == Upto(0, n - 1);
    }
  }

  function SoldOn(branch: Id, date: int): Payment -> int
  {
    (p: Payment) => SalesOn(branch, date, Cash)(p) + SalesOn(branch, date, Transfer)(p)
  }

  lemma SoldOnce(branch: Id, date: int, p: Payment)
    ensures SoldOn(branch, date)(p) == if p.branch == branch && p.date == date then p.amount else 0
  {
    var cash, transfer := SalesOn(branch, date, Cash)(p), SalesOn(branch, date, Transfer)(p);
    assert SoldOn(branch, date)(p) == cash + transfer;
    assert p.means == Cash || p.means == Transfer;
  }

  lemma SoldOnBill(bills: seq<Bill>, payments: seq<Payment>, branch: Id, date: int, b: Id)
    requires BillsAgree(bills, payments) && b < |bills|
    ensures KeyTotal(payments, BillOf(), SoldOn(branch, date))(b) == PaidAt(bills, branch, date)(b)
  {
    var here := bills[b].branch == branch && bills[b].date == date;
    forall p | p in payments
      ensures OnKey(BillOf(), SoldOn(branch, date), b)(p) == if here then PaidOn(b)(p) else 0
    {
      var i :| 0 <= i < |payments| && payments[i] == p;
      assert PaymentPlaced(payments[i], bills);
      SoldOnce(branch, date, p);
    }
    assert PaidAt(bills, branch, date)(b) == PaidOfDay(branch, date)(bills[b]);
    if here {
      SumCongruent(payments, OnKey(BillOf(), SoldOn(branch, date), b), PaidOn(b));
      assert BillAgrees(bills[b], SettledOn(payments, b));
    } else {
      SumZero(payments, OnKey(BillOf(), SoldOn(branch, date), b));
    }
  }

  lemma SoldByBill(bills: seq<Bill>, payments: seq<Payment>, branch: Id, date: int)
    requires BillsAgree(bills, payments)
    ensures Sum(payments, SoldOn(branch, date)) == Sum(Upto(0, |bills|), PaidAt(bills, branch, date))
  {
    var ids, sold := Upto(0, |bills|), SoldOn(branch, date);
    forall p | p in payments ensures BillOf()(p) in ids {
      var i :| 0 <= i < |payments| && payments[i] == p;
      assert PaymentPlaced(payments[i], bills);
      assert ids[p.bill] == p.bill;
    }
    SplitByKey(payments, BillOf(), sold, ids);
    forall b | b in ids ensures KeyTotal(payments, BillOf(), sold)(b) == PaidAt(bills, branch, date)(b) {
      SoldOnBill(bills, payments, branch, date, b);
    }
    SumCongruent(ids, KeyTotal(payments, BillOf(), sold), PaidAt(bills, branch, date));
  }

  /** Cash and transfer sales of a day are together what that day's bills were paid. */
  lemma SalesArePaidBills(db: Db, branch: Id, date: int)
    requires BillsAgree(db.billing.bills, db.billing.payments)
    ensures DayTotals(db, branch, date).cashSales + DayTotals(db, branch, date).transferSales
            == Sum(db.billing.bills, PaidOfDay(branch, date))
  {
    var bills, payments := db.billing.bills, db.billing.payments;
    SumLinear(payments, SoldOn(branch, date), SalesOn(branch, date, Cash), SalesOn(branch, date, Transfer), Zero());
    SumZero(payments, Zero());
    SoldByBill(bills, payments, branch, date);
    PaidByPosition(bills, branch, date, |bills|);
    assert bills[..|bills|] == bills;
  }

  // ---- a locked day's sales ----------------------------------------------

  /**
   After any later run, the sales a lock wrote down are what the day's bills were paid, and its cash sales are
   what the waiters who took cash that day collected.
   */
  lemma LockedSalesAreTakings(db: Db, c: Context, date: int, expected: int, acts: seq<Act>, shifts: seq<Id>)
    requires Consistent(db) && LockClose(db, c, date, expected).1.Done?
    requires Collectors(Run(LockClose(db, c, date, expected).0, acts).billing.payments, c.branch, date, shifts)
    ensures var end := Run(LockClose(db, c, date, expected).0, acts);
      && DayLocked(end.closes, c.branch, date)
      && var totals := end.closes[(c.branch, date)].totals;
      && totals.cashSales == Sum(shifts, CollectedOf(end, c.branch, date))
      && totals.cashSales + totals.transferSales == Sum(end.billing.bills, PaidOfDay(c.branch, date))
  {
    var locked := LockClose(db, c, date, expected).0;
    var end := Run(locked, acts);
    LockedSalesStayTrue(db, c, date, expected, acts);
    LockConsistent(db, c, date, expected);
    RunKeepsConsistent(locked, acts);
    CashSalesByShift(end, c.branch, date, shifts);
    SalesArePaidBills(end, c.branch, date);
  }
}
