/** How a cash drop moves through a shift's summary, from initiation to receipt. */
module DropSteps {
  import opened Sums
  import opened Records
  import opened CashCustody
  import opened DailyClose
  import opened Pouches
  import opened Protocol

  function SummaryOf(db: Db, branch: Id, shift: Id): Summary
  {
    SummaryForShift(db.billing.payments, db.custody, branch, shift)
  }

  /** What is shown as undropped is the pouch, or nothing when the pouch is below zero. */
  lemma UndroppedIsPouch(db: Db, branch: Id, shift: Id)
    ensures var pouch := PouchOf(db, branch, shift);
      SummaryOf(db, branch, shift).undropped == if pouch >= 0 then pouch else 0
  {
  }

  // ---- initiate ----------------------------------------------------------

  /** A waiter can drop any positive amount of the pouch on an open day; it is pending until it is counted. */
  lemma InitiatesIff(db: Db, c: Context, amount: int, branch: Id, shift: Id)
    ensures var (after, outcome) := InitiateDrop(db, c, amount);
      && (outcome.Done? <==>
            && 0 < amount <= PouchOf(db, c.branch, c.shift) && c.shift < |db.custody.shifts|
            && !DayLocked(db.closes, c.branch, db.custody.shifts[c.shift].date))
      && (outcome.Done? ==>
            var row := Drop(c.branch, db.custody.shifts[c.shift].date, c.shift, amount, Initiated, None, None, None, 1);
            && after.custody == db.custody.(drops := db.custody.drops + [row])
            && outcome.answer == DropAnswer(|db.custody.drops|, row)
            && var pending := SummaryOf(db, branch, shift).pending;
            && SummaryOf(after, branch, shift).pending == pending + if shift == c.shift then amount else 0)
  {
    UndroppedIsPouch(db, c.branch, c.shift);
    var (after, outcome) := InitiateDrop(db, c, amount);
    if outcome.Done? { SumAppend(db.custody.drops, outcome.answer.dropRow, PendingBy(shift)); }
  }

  // ---- the cashier's drawer ----------------------------------------------

  ghost predicate OwnsDrawer(drawers: seq<Drawer>, shift: Id)
  {
    exists k | 0 <= k < |drawers| :: drawers[k].shift == shift
  }

  ghost predicate IsLastDrawer(drawers: seq<Drawer>, shift: Id, k: Id)
  {
    && k < |drawers| && drawers[k].shift == shift
    && forall j | k < j < |drawers| :: drawers[j].shift != shift
  }

  /** The cashier works with the last drawer of the shift while it is open, or with a new empty one. */
  lemma DrawerChosen(custody: Custody, c: Context)
    ensures var ready := EnsureDrawer(custody, c);
      && (ready.DrawerReady? ==>
            && IsLastDrawer(ready.custody.drawers, c.shift, ready.drawer) && ready.custody.drawers[ready.drawer].open)
      && (ready.DrawerReady? && OwnsDrawer(custody.drawers, c.shift) ==> ready.custody == custody)
      && (ready.DrawerReady? && !OwnsDrawer(custody.drawers, c.shift) ==>
            && c.shift < |custody.shifts|
            && ready.custody == custody.(drawers := custody.drawers
                 + [Drawer(c.branch, custody.shifts[c.shift].date, c.shift, true, 0, None)]))
      && (ready.DrawerRefused? <==>
            if OwnsDrawer(custody.drawers, c.shift) then
              exists k: Id :: IsLastDrawer(custody.drawers, c.shift, k) && !custody.drawers[k].open
            else c.shift >= |custody.shifts|)
  {
    if HasDrawer(custody.drawers, c.shift) {
      LastDrawer(custody.drawers, c.shift);
      var k := DrawerOf(custody.drawers, c.shift);
      assert IsLastDrawer(custody.drawers, c.shift, k);
      forall j | IsLastDrawer(custody.drawers, c.shift, j) ensures j == k {
      }
    }
  }

  lemma {:induction false} LastDrawer(drawers: seq<Drawer>, shift: Id)
    requires HasDrawer(drawers, shift)
    ensures forall k | DrawerOf(drawers, shift) < k < |drawers| :: drawers[k].shift != shift
  {
    var n := |drawers| - 1;
    if drawers[n].shift != shift {
      LastDrawer(drawers[..n], shift);
    }
  }

  // ---- receive -----------------------------------------------------------

  /**
   A pending drop of an open day can be counted once, by a cashier with a drawer; it is received into that drawer
   exactly when the count is what the waiter declared, and disputed otherwise.
   */
  lemma ReceivesIff(db: Db, c: Context, drop: Id, counted: int, expected: int)
    ensures var (after, outcome) := ReceiveDrop(db, c, drop, counted, expected);
      && (outcome.Done? <==>
            && drop < |db.custody.drops| && db.custody.drops[drop].branch == c.branch
            && !DayLocked(db.closes, c.branch, db.custody.drops[drop].date)
            && db.custody.drops[drop].status == Initiated && db.custody.drops[drop].version == expected
            && counted >= 0 && EnsureDrawer(db.custody, c).DrawerReady?)
      && (outcome.Done? ==>
            var row := db.custody.drops[drop];
            var matches := counted == row.declared;
            && outcome.answer == DropAnswer(drop, after.custody.drops[drop])
            && after.custody.drops[drop]
               == row.(status := if matches then Received else Disputed, counted := Some(counted),
                       resolution := if matches then Some(counted) else row.resolution,
                       drawer := Some(EnsureDrawer(db.custody, c).drawer), version := row.version + 1))
  {
  }

  lemma OneRestated(drops: seq<Drop>, drop: Id, row: Drop, shift: Id)
    requires drop < |drops|
    ensures var after := drops[drop := row];
      && Dropped(after, shift) == Dropped(drops, shift) - DroppedBy(shift)(drops[drop]) + DroppedBy(shift)(row)
      && PendingDrops(after, shift) == PendingDrops(drops, shift) - PendingBy(shift)(drops[drop]) + PendingBy(shift)(row)
      && DisputedDrops(after, shift)
         == DisputedDrops(drops, shift) - DisputedBy(shift)(drops[drop]) + DisputedBy(shift)(row)
  {
    SumUpdate(drops, drop, row, DroppedBy(shift));
    SumUpdate(drops, drop, row, PendingBy(shift));
    SumUpdate(drops, drop, row, DisputedBy(shift));
  }

  /** Counting a drop takes it from the pending column to the dropped one, or to the disputed one. */
  lemma ReceiveMovesColumns(db: Db, c: Context, drop: Id, counted: int, expected: int, branch: Id, shift: Id)
    requires ReceiveDrop(db, c, drop, counted, expected).1.Done?
    ensures var row := db.custody.drops[drop];
      var before := SummaryOf(db, branch, shift);
      var after := SummaryOf(ReceiveDrop(db, c, drop, counted, expected).0, branch, shift);
      var own := if shift == row.shift then row.declared else 0;
      && after.pending == before.pending - own
      && after.dropped == before.dropped + (if counted == row.declared then own else 0)
      && after.disputed == before.disputed + (if counted == row.declared then 0 else own)
      && after.collected == before.collected
  {
    ReceivesIff(db, c, drop, counted, expected);
    OneRestated(db.custody.drops, drop, ReceiveDrop(db, c, drop, counted, expected).0.custody.drops[drop], shift);
  }

  /** Resolving takes the declared amount off the disputed column and adds what was accepted to the dropped one. */
  lemma ResolveMovesColumns(db: Db, c: Context, dispute: Id, how: Resolution, branch: Id, shift: Id)
    requires ResolveDispute(db, c, dispute, how).1.Done?
    ensures var drop, after := db.custody.disputes[dispute].drop, ResolveDispute(db, c, dispute, how).0;
      var row, own := db.custody.drops[drop], shift == db.custody.drops[drop].shift;
      && after.custody.drops[drop].status == Received && after.custody.drops[drop].resolution.Some?
      && SummaryOf(after, branch, shift).disputed
         == SummaryOf(db, branch, shift).disputed - (if own then row.declared else 0)
      && SummaryOf(after, branch, shift).dropped
         == SummaryOf(db, branch, shift).dropped + (if own then after.custody.drops[drop].resolution.value else 0)
      && SummaryOf(after, branch, shift).pending == SummaryOf(db, branch, shift).pending
  {
    var drop := db.custody.disputes[dispute].drop;
    OneRestated(db.custody.drops, drop, ResolveDispute(db, c, dispute, how).0.custody.drops[drop], shift);
  }

  // ---- handovers ---------------------------------------------------------

  /** A handover posted for a waiter's shift moves that pouch by its amount; no other posting moves a pouch. */
  lemma PostMovesPouch(db: Db, entry: Entry, branch: Id, shift: Id)
    ensures PouchOf(ApplyOutside(db, Post(entry)), branch, shift)
            == PouchOf(db, branch, shift)
               + if entry.source == Source.Elsewhere && entry.holder == WaiterShift(shift)
                    && (entry.entryType == HandoverIn || entry.entryType == HandoverOut) then entry.amount
                 else 0
  {
    SumAppend(db.custody.ledger, entry, HandedTo(shift));
  }

  /** A posting for a drawer moves what that drawer should hold, opening floats aside; no other posting does. */
  lemma PostMovesDrawer(db: Db, entry: Entry, drawer: Id)
    requires drawer < |db.custody.drawers|
    ensures SessionExpected(ApplyOutside(db, Post(entry)).custody, drawer)
            == SessionExpected(db.custody, drawer)
               + if entry.source == Source.Elsewhere && entry.holder == CashierDrawer(drawer)
                    && entry.entryType !in {OpeningFloat, DropIn, DropOut} then entry.amount
                 else 0
  {
    SumAppend(db.custody.ledger, entry, IntoDrawer(drawer));
    SumAppend(db.custody.ledger, entry, OtherInDrawer(drawer));
  }
}
