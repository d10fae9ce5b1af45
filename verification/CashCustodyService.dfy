/** The cash-custody service: drops, disputes and the ledger rows they post. */
module CashCustodyServices {
  import opened Records
  import opened CashCustody
  import opened Stores
  import opened DailyCloseServices

  class CashCustodyService {
    const db: Store
    const dailyClose: DailyCloseService

    constructor (db: Store, dailyClose: DailyCloseService)
      requires dailyClose.db == db
      ensures Valid() && this.db == db
    {
      this.db := db;
      this.dailyClose := dailyClose;
    }

    predicate Valid() { dailyClose.db == db }

    method SummaryForShift(branch: Id, shift: Id) returns (summary: Summary)
      ensures summary == CashCustody.SummaryForShift(db.payments, db.Custodies(), branch, shift)
    {
      var collected := AddUp(db.payments, CollectedBy(branch, shift));
      var dropped := AddUp(db.drops, DroppedBy(shift));
      var pending := AddUp(db.drops, PendingBy(shift));
      var disputed := AddUp(db.drops, DisputedBy(shift));
      var handover := AddUp(db.ledger, HandedTo(shift));
      var undropped := collected + handover - dropped - pending - disputed;
      summary := Summary(collected, dropped, Clamp(undropped), pending, disputed);
    }

    method InitiateDrop(c: Context, amount: int) returns (outcome: Outcome)
      requires Valid()
      modifies db
      ensures (db.Snapshot(), outcome) == CashCustody.InitiateDrop(old(db.Snapshot()), c, amount)
    {
      if amount <= 0 {
        return Refused(DropAmountInvalid);
      }
      var summary := SummaryForShift(c.branch, c.shift);
      if amount > summary.undropped {
        return Refused(ExceedsUndropped);
      }
      if c.shift >= |db.shifts| {
        return Refused(NotFound);
      }
      var shift := db.shifts[c.shift];
      var locked := dailyClose.BusinessDayLocked(c.branch, shift.date);
      if locked {
        return Refused(DayIsLocked);
      }
      var row := Drop(c.branch, shift.date, c.shift, amount, Initiated, None, None, None, 1);
      outcome := Done(DropAnswer(|db.drops|, row));
      db.drops := db.drops + [row];
    }

    /** The drawer of the cashier's shift, created on first use. */
    method EnsureCashierFinancialSession(c: Context) returns (ready: DrawerResult)
      modifies db`drawers
      ensures ready == EnsureDrawer(old(db.Custodies()), c)
      ensures db.Custodies() == if ready.DrawerReady? then ready.custody else old(db.Custodies())
    {
      if HasDrawer(db.drawers, c.shift) {
        var existing := DrawerOf(db.drawers, c.shift);
        if !db.drawers[existing].open {
          return DrawerRefused(DrawerClosed);
        }
        return DrawerReady(db.Custodies(), existing);
      }
      if c.shift >= |db.shifts| {
        return DrawerRefused(NotFound);
      }
      var created := |db.drawers|;
      db.drawers := db.drawers + [Drawer(c.branch, db.shifts[c.shift].date, c.shift, true, 0, None)];
      ready := DrawerReady(db.Custodies(), created);
    }

    /** Two rows, one leaving the waiter's shift and one entering the cashier's drawer. */
    method WriteReceiveLedger(branch: Id, drop: Id, row: Drop, amount: int, drawer: Id)
      modifies db`ledger
      ensures db.ledger == CashCustody.WriteReceiveLedger(old(db.ledger), branch, drop, row, amount, drawer)
    {
      db.ledger := db.ledger + [Entry(branch, row.date, WaiterShift(row.shift), DropOut, -amount, FromDrop(drop))];
      db.ledger := db.ledger + [Entry(branch, row.date, CashierDrawer(drawer), DropIn, amount, FromDrop(drop))];
    }

    /** The drop becomes RECEIVED at an amount, and its two ledger rows are written. */
    method AcceptDrop(branch: Id, drop: Id, row: Drop, amount: int, drawer: Id)
      requires drop < |db.drops|
      modifies db`drops, db`ledger
      ensures db.Custodies() == AcceptInto(old(db.Custodies()), branch, drop, row, amount, drawer)
    {
      var accepted := row.(status := Received, resolution := Some(amount), drawer := Some(drawer),
                           version := row.version + 1);
      db.drops := db.drops[drop := accepted];
      WriteReceiveLedger(branch, drop, accepted, amount, drawer);
    }

    /** The drop becomes DISPUTED and a dispute is opened with the variance. */
    method DisputeDrop(branch: Id, drop: Id, row: Drop, counted: int, drawer: Id)
      requires drop < |db.drops|
      modifies db`drops, db`disputes
      ensures db.Custodies() == QuestionFrom(old(db.Custodies()), branch, drop, row, counted, drawer)
    {
      db.drops := db.drops[drop := row.(status := Disputed, counted := Some(counted), drawer := Some(drawer),
                                        version := row.version + 1)];
      db.disputes := db.disputes
                     + [Dispute(branch, drop, row.declared, counted, counted - row.declared, true, None)];
    }

    method ReceiveDrop(c: Context, drop: Id, counted: int, expected: int) returns (outcome: Outcome)
      requires Valid()
      modifies db
      ensures (db.Snapshot(), outcome) == CashCustody.ReceiveDrop(old(db.Snapshot()), c, drop, counted, expected)
    {
      if drop >= |db.drops| || db.drops[drop].branch != c.branch {
        return Refused(NotFound);
      }
      var row := db.drops[drop];
      var locked := dailyClose.BusinessDayLocked(c.branch, row.date);
      if locked {
        return Refused(DayIsLocked);
      }
      if row.status != Initiated {
        return Refused(DropNotReceivable);
      }
      if row.version != expected {
        return Refused(StaleVersion);
      }
      if counted < 0 {
        return Refused(CountedInvalid);
      }
      var ready := EnsureCashierFinancialSession(c);
      if ready.DrawerRefused? {
        return Refused(ready.error);
      }
      if counted == row.declared {
        AcceptDrop(c.branch, drop, row.(counted := Some(counted)), counted, ready.drawer);
      } else {
        DisputeDrop(c.branch, drop, row, counted, ready.drawer);
      }
      outcome := Done(DropAnswer(drop, db.drops[drop]));
    }

    method ResolveDispute(c: Context, dispute: Id, how: Resolution) returns (outcome: Outcome)
      modifies db
      ensures (db.Snapshot(), outcome) == CashCustody.ResolveDispute(old(db.Snapshot()), c, dispute, how)
    {
      if dispute >= |db.disputes| || db.disputes[dispute].branch != c.branch
         || db.disputes[dispute].drop >= |db.drops| {
        return Refused(NotFound);
      }
      var open := db.disputes[dispute];
      var row := db.drops[open.drop];
      if !open.open {
        return Refused(DisputeNotOpen);
      }
      if row.status != Disputed {
        return Refused(DropNotDisputed);
      }
      var amount: int;
      match how {
        case AcceptCounted => amount := open.counted;
        case AcceptDeclared => amount := open.declared;
        case OtherApproved(approved) =>
          if approved.None? {
            return Refused(ResolutionMissing);
          }
          if approved.value < 0 {
            return Refused(ResolutionInvalid);
          }
          amount := approved.value;
      }
      var drawer: Id;
      if row.drawer.Some? {
        drawer := row.drawer.value;
      } else {
        var ready := EnsureCashierFinancialSession(c);
        if ready.DrawerRefused? {
          return Refused(ready.error);
        }
        drawer := ready.drawer;
      }
      db.disputes := db.disputes[dispute := open.(open := false, resolution := Some(amount))];
      AcceptDrop(c.branch, open.drop, row, amount, drawer);
      outcome := Done(DropAnswer(open.drop, db.drops[open.drop]));
    }
  }
}
