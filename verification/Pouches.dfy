/** How each command moves a waiter's pouch, and when the pouch can go below zero. */
module Pouches {
  import opened Sums
  import opened Records
  import opened Billing
  import opened CashCustody
  import opened DailyClose
  import opened DoubleEntry

  function PouchOf(db: Db, branch: Id, shift: Id): int { Pouch(db.billing.payments, db.custody, branch, shift) }

  lemma PaymentMovesPouch(db: Db, r: PayRequest, snapshot: Bill, now: int, branch: Id, shift: Id)
    requires CommitPayment(db, r, snapshot, now).1.Done?
    ensures PouchOf(CommitPayment(db, r, snapshot, now).0, branch, shift)
            == PouchOf(db, branch, shift)
               + if r.body.CashPayment? && branch == r.context.branch && shift == r.context.shift then r.body.amount
                 else 0
  {
    SumAppend(db.billing.payments, PaymentRow(r, snapshot), CollectedBy(branch, shift));
  }

  lemma InitiateMovesPouch(db: Db, c: Context, amount: int, branch: Id, shift: Id)
    requires InitiateDrop(db, c, amount).1.Done?
    ensures PouchOf(InitiateDrop(db, c, amount).0, branch, shift)
            == PouchOf(db, branch, shift) - (if shift == c.shift then amount else 0)
    ensures amount <= PouchOf(db, c.branch, c.shift)
  {
    var row := InitiateDrop(db, c, amount).1.answer.dropRow;
    SumAppend(db.custody.drops, row, DroppedBy(shift));
    SumAppend(db.custody.drops, row, PendingBy(shift));
    SumAppend(db.custody.drops, row, DisputedBy(shift));
  }

  lemma DropRestated(drops: seq<Drop>, drop: Id, row: Drop, shift: Id)
    requires drop < |drops|
    ensures var after := drops[drop := row];
      Dropped(after, shift) + PendingDrops(after, shift) + DisputedDrops(after, shift)
      == Dropped(drops, shift) + PendingDrops(drops, shift) + DisputedDrops(drops, shift)
         + (DroppedBy(shift)(row) + PendingBy(shift)(row) + DisputedBy(shift)(row))
         - (DroppedBy(shift)(drops[drop]) + PendingBy(shift)(drops[drop]) + DisputedBy(shift)(drops[drop]))
  {
    SumUpdate(drops, drop, row, DroppedBy(shift));
    SumUpdate(drops, drop, row, PendingBy(shift));
    SumUpdate(drops, drop, row, DisputedBy(shift));
  }

  lemma PairIsNoHandover(ledger: seq<Entry>, branch: Id, drop: Id, row: Drop, amount: int, drawer: Id, shift: Id)
    ensures HandoverNet(WriteReceiveLedger(ledger, branch, drop, row, amount, drawer), shift)
            == HandoverNet(ledger, shift)
  {
    SumAppend(ledger, OutEntry(branch, drop, row, amount), HandedTo(shift));
    SumAppend(ledger + [OutEntry(branch, drop, row, amount)], InEntry(branch, drop, row, amount, drawer), HandedTo(shift));
  }

  /** Counting a drop, whether it matches or is disputed, leaves every pouch as it was. */
  lemma ReceiveSparesPouch(db: Db, c: Context, drop: Id, counted: int, expected: int, branch: Id, shift: Id)
    ensures PouchOf(ReceiveDrop(db, c, drop, counted, expected).0, branch, shift) == PouchOf(db, branch, shift)
  {
    if ReceiveDrop(db, c, drop, counted, expected).1.Done? {
      var row := db.custody.drops[drop];
      var ready := EnsureDrawer(db.custody, c);
      DropRestated(db.custody.drops, drop, Accepted(row.(counted := Some(counted)), counted, ready.drawer), shift);
      DropRestated(db.custody.drops, drop, Questioned(row, counted, ready.drawer), shift);
      PairIsNoHandover(db.custody.ledger, c.branch, drop, row.(counted := Some(counted)), counted, ready.drawer, shift);
    }
  }

  /** The rows a resolution leaves: the drop accepted at some amount, and its pair in the ledger. */
  lemma ResolvedInto(db: Db, c: Context, dispute: Id, how: Resolution) returns (amount: int, drawer: Id)
    requires ResolveDispute(db, c, dispute, how).1.Done?
    ensures var drop, after := db.custody.disputes[dispute].drop, ResolveDispute(db, c, dispute, how).0;
      var row := db.custody.drops[drop];
      && row.status == Disputed && after.billing == db.billing
      && after.custody.drops == db.custody.drops[drop := Accepted(row, amount, drawer)]
      && after.custody.ledger == WriteReceiveLedger(db.custody.ledger, c.branch, drop, row, amount, drawer)
  {
    var open := db.custody.disputes[dispute];
    var row := db.custody.drops[open.drop];
    amount := ResolvedAmount(open, how).value;
    drawer := if row.drawer.Some? then row.drawer.value else EnsureDrawer(db.custody, c).drawer;
  }

  /** Resolving gives back what was declared and takes what was accepted. */
  lemma ResolveMovesPouch(db: Db, c: Context, dispute: Id, how: Resolution, branch: Id, shift: Id)
    requires ResolveDispute(db, c, dispute, how).1.Done?
    ensures var drop, after := db.custody.disputes[dispute].drop, ResolveDispute(db, c, dispute, how).0;
      var row := db.custody.drops[drop];
      && after.custody.drops[drop].resolution.Some?
      && PouchOf(after, branch, shift)
         == PouchOf(db, branch, shift)
            + if shift == row.shift then row.declared - after.custody.drops[drop].resolution.value else 0
  {
    var drop := db.custody.disputes[dispute].drop;
    var row := db.custody.drops[drop];
    var amount, drawer := ResolvedInto(db, c, dispute, how);
    DropRestated(db.custody.drops, drop, Accepted(row, amount, drawer), shift);
    PairIsNoHandover(db.custody.ledger, c.branch, drop, row, amount, drawer, shift);
  }

  /** A resolution leaves the waiter's pouch at or above zero exactly up to the declared amount plus the pouch. */
  lemma ResolveClampIff(db: Db, c: Context, dispute: Id, how: Resolution, branch: Id)
    requires ResolveDispute(db, c, dispute, how).1.Done?
    ensures var drop, after := db.custody.disputes[dispute].drop, ResolveDispute(db, c, dispute, how).0;
      var row := db.custody.drops[drop];
      && after.custody.drops[drop].resolution.Some?
      && (PouchOf(after, branch, row.shift) >= 0
          <==> after.custody.drops[drop].resolution.value <= row.declared + PouchOf(db, branch, row.shift))
  {
    ResolveMovesPouch(db, c, dispute, how, branch, db.custody.drops[db.custody.disputes[dispute].drop].shift);
  }

  // ---- the two summaries of a shift --------------------------------------

  /** A received drop with neither a resolution nor a count is nothing to the pouch, and its declared amount to the day. */
  lemma FallbacksDiffer(row: Drop)
    requires row.status == Received && row.resolution.None? && row.counted.None?
    ensures Dropped([row], row.shift) == 0
    ensures Sum([row], DroppedOn(row.shift, row.date)) == row.declared
  {
    assert [row] == [] + [row];
    SumAppend([], row, DroppedBy(row.shift));
    SumAppend([], row, DroppedOn(row.shift, row.date));
  }

  function OpenBy(shift: Id): Drop -> int { (d: Drop) => PendingBy(shift)(d) + DisputedBy(shift)(d) }

  /**
   For a shift whose cash payments and drops all carry one day, and with no handovers, the pouch summary
   and the daily-close line agree, although they fall back to different amounts.
   */
  lemma SummariesAgree(db: Db, branch: Id, shift: Id, date: int)
    requires CashAgrees(db.custody)
    requires forall p | p in db.billing.payments && p.branch == branch && p.shift == shift && p.means == Cash ::
      p.date == date
    requires forall d | d in db.custody.drops && d.shift == shift :: d.date == date
    requires HandoverNet(db.custody.ledger, shift) == 0
    ensures var summary := SummaryForShift(db.billing.payments, db.custody, branch, shift);
      WaiterLine(db, branch, shift, date) == Line(summary.collected, summary.dropped, summary.undropped)
  {
    var drops := db.custody.drops;
    SumCongruent(db.billing.payments, CollectedBy(branch, shift), CollectedOn(branch, shift, date));
    forall d | d in drops
      ensures DroppedBy(shift)(d) == DroppedOn(shift, date)(d)
      ensures OpenBy(shift)(d) == OpenOn(shift, date)(d)
    {
      var k :| 0 <= k < |drops| && drops[k] == d;
      assert DropFits(drops[k], |db.custody.drawers|);
      assert OpenBy(shift)(d) == PendingBy(shift)(d) + DisputedBy(shift)(d);
    }
    SumCongruent(drops, DroppedBy(shift), DroppedOn(shift, date));
    SumCongruent(drops, OpenBy(shift), OpenOn(shift, date));
    SumLinear(drops, OpenBy(shift), PendingBy(shift), DisputedBy(shift), Zero());
    SumZero(drops, Zero());
  }
}
