/** What each way of resolving a disputed drop does to the drop, the pouch and the ledger. */
module Disputes {
  import opened Sums
  import opened Records
  import opened CashCustody
  import opened DoubleEntry
  import opened Pouches

  /** An open dispute is resolved unless another amount is approved and none, or a negative one, is given. */
  lemma ResolvedIff(db: Db, c: Context, dispute: Id, how: Resolution)
    requires CashAgrees(db.custody)
    requires dispute < |db.custody.disputes| && db.custody.disputes[dispute].branch == c.branch
    requires db.custody.disputes[dispute].open
    requires db.custody.drops[db.custody.disputes[dispute].drop].status == Disputed
    ensures ResolveDispute(db, c, dispute, how).1.Done?
            <==> !(how.OtherApproved? && (how.amount.None? || how.amount.value < 0))
  {
    var open := db.custody.disputes[dispute];
    assert DisputeFits(open, db.custody.drops) && DropFits(db.custody.drops[open.drop], |db.custody.drawers|);
  }

  /** The drop is received at the counted, the declared or the approved amount, and so is its pair in the ledger. */
  lemma ResolvedAt(db: Db, c: Context, dispute: Id, how: Resolution, amount: int)
    requires CashAgrees(db.custody) && ResolveDispute(db, c, dispute, how).1.Done?
    requires var open := db.custody.disputes[dispute];
      match how
      case AcceptCounted => amount == open.counted
      case AcceptDeclared => amount == open.declared
      case OtherApproved(approved) => Some(amount) == approved
    ensures var open, after := db.custody.disputes[dispute], ResolveDispute(db, c, dispute, how).0.custody;
      var row := after.drops[open.drop];
      && row.status == Received && row.resolution == Some(amount)
      && row.drawer.Some? && row.drawer == db.custody.drops[open.drop].drawer
      && ResolveDispute(db, c, dispute, how).1.answer == DropAnswer(open.drop, row)
      && !after.disputes[dispute].open && after.disputes[dispute].resolution == Some(amount)
      && Filter(after.ledger, ForDrop(open.drop))
         == [Entry(row.branch, row.date, WaiterShift(row.shift), DropOut, -amount, FromDrop(open.drop)),
             Entry(row.branch, row.date, CashierDrawer(row.drawer.value), DropIn, amount, FromDrop(open.drop))]
  {
    ResolveKeeps(db, c, dispute, how);
    assert DropFits(db.custody.drops[db.custody.disputes[dispute].drop], |db.custody.drawers|);
  }

  /** Accepting what the waiter declared leaves every pouch as it was. */
  lemma DeclaredSparesPouches(db: Db, c: Context, dispute: Id, branch: Id, shift: Id)
    requires CashAgrees(db.custody) && ResolveDispute(db, c, dispute, AcceptDeclared).1.Done?
    ensures PouchOf(ResolveDispute(db, c, dispute, AcceptDeclared).0, branch, shift) == PouchOf(db, branch, shift)
  {
    ResolveMovesPouch(db, c, dispute, AcceptDeclared, branch, shift);
    assert DisputeFits(db.custody.disputes[dispute], db.custody.drops);
  }

  /** Accepting what the cashier counted charges the difference to the waiter's pouch, and to no other. */
  lemma CountedMovesPouch(db: Db, c: Context, dispute: Id, branch: Id, shift: Id)
    requires CashAgrees(db.custody) && ResolveDispute(db, c, dispute, AcceptCounted).1.Done?
    ensures var open := db.custody.disputes[dispute];
      PouchOf(ResolveDispute(db, c, dispute, AcceptCounted).0, branch, shift)
      == PouchOf(db, branch, shift) - if shift == db.custody.drops[open.drop].shift then open.variance else 0
  {
    ResolveMovesPouch(db, c, dispute, AcceptCounted, branch, shift);
    assert DisputeFits(db.custody.disputes[dispute], db.custody.drops);
  }

  /**
   From the count to its resolution: a drop counted differently from what was declared, then resolved at the
   count, is received at the count, and the difference is back in the waiter's pouch.
   */
  lemma CountedThenAccepted(db: Db, c: Context, drop: Id, counted: int, expected: int, branch: Id, shift: Id)
    requires CashAgrees(db.custody) && ReceiveDrop(db, c, drop, counted, expected).1.Done?
    requires counted != db.custody.drops[drop].declared
    ensures var row, questioned := db.custody.drops[drop], ReceiveDrop(db, c, drop, counted, expected).0;
      var resolved := ResolveDispute(questioned, c, |db.custody.disputes|, AcceptCounted);
      && resolved.1.Done?
      && resolved.0.custody.drops[drop].status == Received
      && resolved.0.custody.drops[drop].resolution == Some(counted)
      && PouchOf(resolved.0, branch, shift)
         == PouchOf(db, branch, shift) + if shift == row.shift then row.declared - counted else 0
  {
    var questioned, dispute := ReceiveDrop(db, c, drop, counted, expected).0, |db.custody.disputes|;
    ReceiveKeeps(db, c, drop, counted, expected);
    ReceiveSparesPouch(db, c, drop, counted, expected, branch, shift);
    QuestionOpens(db, c, drop, counted, expected);
    ResolvedIff(questioned, c, dispute, AcceptCounted);
    ResolvedAt(questioned, c, dispute, AcceptCounted, counted);
    CountedMovesPouch(questioned, c, dispute, branch, shift);
  }

  /** A count that differs opens one dispute for the drop. */
  lemma QuestionOpens(db: Db, c: Context, drop: Id, counted: int, expected: int)
    requires ReceiveDrop(db, c, drop, counted, expected).1.Done? && counted != db.custody.drops[drop].declared
    ensures var row, after := db.custody.drops[drop], ReceiveDrop(db, c, drop, counted, expected).0.custody;
      && |after.disputes| == |db.custody.disputes| + 1
      && after.disputes[|db.custody.disputes|]
         == Dispute(c.branch, drop, row.declared, counted, counted - row.declared, true, None)
      && after.drops[drop].status == Disputed && after.drops[drop].counted == Some(counted)
      && after.drops[drop].shift == row.shift
  {
  }
}
