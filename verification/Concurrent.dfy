/** What every interleaving of payments with other commands keeps, whatever versions the clients send. */
module Concurrent {
  import opened Records
  import opened Billing
  import opened Settlement
  import opened Seating
  import opened DoubleEntry
  import opened Protocol
  import opened Interleaving

  // ---- seating, cash and locks -------------------------------------------

  /** A request holds a snapshot of the bill it names; amounts and versions may have moved on. */
  ghost predicate Names(process: Process, bills: seq<Bill>)
  {
    process.phase.Holding? ==>
      && process.request.body.bill < |bills|
      && SameBill(process.phase.snapshot, bills[process.request.body.bill])
      && process.request.context.branch == process.phase.snapshot.branch
  }

  predicate SameBill(a: Bill, b: Bill)
  {
    a.session == b.session && a.branch == b.branch && a.date == b.date && a.total == b.total
  }

  ghost predicate AllName(processes: seq<Process>, bills: seq<Bill>)
  {
    forall p | 0 <= p < |processes| :: Names(processes[p], bills)
  }

  /** The parts of the invariant that need no honesty about versions. */
  ghost predicate Sound(sys: System)
  {
    && AllName(sys.processes, sys.db.billing.bills)
    && SeatingAgrees(sys.db.floor, sys.db.billing)
    && CashAgrees(sys.db.custody)
    && LocksAgree(sys.db.custody.drops, sys.db.closes)
  }

  lemma BillsKeepNames(processes: seq<Process>, before: seq<Bill>, after: seq<Bill>)
    requires AllName(processes, before) && |before| <= |after|
    requires forall b | 0 <= b < |before| :: SameBill(after[b], before[b])
    ensures AllName(processes, after)
  {
    forall p | 0 <= p < |processes| ensures Names(processes[p], after) {
      assert Names(processes[p], before);
    }
  }

  lemma PhaseKeepsNames(processes: seq<Process>, p: Id, row: Process, bills: seq<Bill>)
    requires AllName(processes, bills) && p < |processes| && Names(row, bills)
    ensures AllName(processes[p := row], bills)
  {
    var after := processes[p := row];
    forall q | 0 <= q < |after| ensures Names(after[q], bills) {
      assert Names(processes[q], bills);
    }
  }

  lemma CommitSameBills(db: Db, r: PayRequest, snapshot: Bill, now: int)
    ensures var after := CommitPayment(db, r, snapshot, now).0.billing.bills;
      |after| == |db.billing.bills| && forall b | 0 <= b < |after| :: SameBill(after[b], db.billing.bills[b])
  {
  }

  lemma MoveKeepsNames(sys: System, move: Move)
    requires AllName(sys.processes, sys.db.billing.bills)
    ensures AllName(Next(sys, move).processes, Next(sys, move).db.billing.bills)
  {
    var after := Next(sys, move);
    match move {
      case Arrive(request) =>
        forall p | 0 <= p < |after.processes| ensures Names(after.processes[p], sys.db.billing.bills) {
          if p < |sys.processes| { assert Names(sys.processes[p], sys.db.billing.bills); }
        }
      case Load(p) =>
        if p < |sys.processes| && sys.processes[p].phase == Waiting {
          if LoadPayment(sys.db, sys.processes[p].request).Proceed? {
            LoadedFits(sys.db, sys.processes[p].request);
          }
          PhaseKeepsNames(sys.processes, p, after.processes[p], sys.db.billing.bills);
        }
      case Commit(p, now) =>
        if p < |sys.processes| && sys.processes[p].phase.Holding? {
          CommitSameBills(sys.db, sys.processes[p].request, sys.processes[p].phase.snapshot, now);
          BillsKeepNames(sys.processes, sys.db.billing.bills, after.db.billing.bills);
          PhaseKeepsNames(sys.processes, p, after.processes[p], after.db.billing.bills);
        }
      case Elsewhere(act) =>
        if !act.command.PayBill? {
          OthersMoveOn(sys.db, act);
          BillsKeepNames(sys.processes, sys.db.billing.bills, after.db.billing.bills);
        }
    }
  }

  lemma CommitSpares(db: Db, r: PayRequest, snapshot: Bill, now: int)
    ensures var after := CommitPayment(db, r, snapshot, now).0;
      after.custody == db.custody && after.closes == db.closes
  {
  }

  lemma MoveKeepsSound(sys: System, move: Move)
    requires Sound(sys)
    ensures Sound(Next(sys, move))
  {
    MoveKeepsNames(sys, move);
    if move.Commit? && move.process < |sys.processes| && sys.processes[move.process].phase.Holding? {
      var held := sys.processes[move.process];
      assert Names(held, sys.db.billing.bills);
      CommitKeepsSeating(sys.db, held.request, held.phase.snapshot, move.now);
      CommitSpares(sys.db, held.request, held.phase.snapshot, move.now);
    } else if move.Elsewhere? && !move.act.command.PayBill? {
      StepKeepsSeating(sys.db, move.act);
      StepKeepsCash(sys.db, move.act);
      StepKeepsLocks(sys.db, move.act);
    } else {
      assert Next(sys, move).db == sys.db;
    }
  }

  /**
   In every interleaving tables, sessions, requests, bills and lines agree, the ledger mirrors the drops, and no
   open drop is on a locked day.
   */
  lemma {:induction false} ReachKeepsSound(sys: System, moves: seq<Move>)
    requires Sound(sys)
    ensures Sound(Reach(sys, moves))
  {
    if |moves| > 0 {
      ReachKeepsSound(sys, moves[..|moves| - 1]);
      MoveKeepsSound(Reach(sys, moves[..|moves| - 1]), moves[|moves| - 1]);
    }
  }

  lemma FreshIsSound(sys: System)
    requires Fresh(sys)
    ensures Sound(sys)
  {
    InitialConsistent(sys.db);
  }

  // ---- references --------------------------------------------------------

  /** Every reference names one bill, and every audited transfer is covered by a row that names its bill. */
  ghost predicate ReferencesHold(billing: BillTables)
  {
    ReferencesAgree(billing.references) && AuditsCovered(billing.audits, billing.references)
  }

  /** A commit that carries a reference finds no row giving it to another bill. */
  ghost predicate FreeReference(sys: System, move: Move)
  {
    Commits(sys, move) && ReferenceOf(sys.processes[move.process].request).Some? ==>
      NamesOnly(sys.db.billing.references, ReferenceOf(sys.processes[move.process].request).value,
                sys.processes[move.process].request.body.bill)
  }

  ghost predicate FreeRun(sys: System, moves: seq<Move>)
  {
    |moves| == 0
    || (FreeRun(sys, moves[..|moves| - 1])
        && FreeReference(Reach(sys, moves[..|moves| - 1]), moves[|moves| - 1]))
  }

  ghost predicate ReferencesAlwaysHold(sys: System, moves: seq<Move>)
  {
    && ReferencesHold(Reach(sys, moves).db.billing)
    && (|moves| == 0 || ReferencesAlwaysHold(sys, moves[..|moves| - 1]))
  }

  lemma CommitReferencesIff(sys: System, move: Move)
    requires ReferencesHold(sys.db.billing) && Commits(sys, move)
    ensures ReferencesHold(Next(sys, move).db.billing) <==> FreeReference(sys, move)
  {
    var r := sys.processes[move.process].request;
    if ReferenceOf(r).Some? {
      StoreReferenceIff(sys.db.billing, r.context.user, ReferenceOf(r).value, r.body.bill, |sys.db.billing.payments|);
    }
  }

  lemma MoveReferencesIff(sys: System, move: Move)
    requires ReferencesHold(sys.db.billing)
    ensures ReferencesHold(Next(sys, move).db.billing) <==> FreeReference(sys, move)
  {
    if Commits(sys, move) {
      CommitReferencesIff(sys, move);
    } else if move.Elsewhere? && !move.act.command.PayBill? {
      OthersMoveOn(sys.db, move.act);
    } else {
      assert Next(sys, move).db == sys.db;
    }
  }

  /**
   Over any interleaving each transfer reference settles one bill at every point exactly when no commit stores a
   reference that a row already gives to another bill.
   */
  lemma {:induction false} ReferencesHoldIff(sys: System, moves: seq<Move>)
    requires ReferencesHold(sys.db.billing)
    ensures ReferencesAlwaysHold(sys, moves) <==> FreeRun(sys, moves)
  {
    if |moves| > 0 {
      var n := |moves| - 1;
      ReferencesHoldIff(sys, moves[..n]);
      if FreeRun(sys, moves[..n]) {
        MoveReferencesIff(Reach(sys, moves[..n]), moves[n]);
      }
    }
  }
}
