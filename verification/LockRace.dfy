/** When a locked business day stays frozen while payments interleave with every other command. */
module LockRace {
  import opened Sums
  import opened Records
  import opened Billing
  import opened Settlement
  import opened DoubleEntry
  import opened Protocol
  import opened DayLock
  import opened Interleaving
  import opened Concurrent

  /** A commit whose payment carries the day. */
  ghost predicate Breach(sys: System, move: Move, branch: Id, date: int)
  {
    && Commits(sys, move)
    && sys.processes[move.process].request.context.branch == branch
    && sys.processes[move.process].phase.snapshot.date == date
  }

  ghost predicate Quiet(sys: System, moves: seq<Move>, branch: Id, date: int)
  {
    |moves| == 0
    || (Quiet(sys, moves[..|moves| - 1], branch, date)
        && !Breach(Reach(sys, moves[..|moves| - 1]), moves[|moves| - 1], branch, date))
  }

  ghost predicate LockHolds(sys: System, branch: Id, date: int)
  {
    && CashAgrees(sys.db.custody) && LocksAgree(sys.db.custody.drops, sys.db.closes)
    && DayLocked(sys.db.closes, branch, date)
  }

  function DayPayments(db: Db, branch: Id, date: int): nat
  {
    |Filter(db.billing.payments, PaidOnDay(branch, date))|
  }

  // ---- the freeze fails exactly at a breach ------------------------------

  lemma CommitFreezes(sys: System, move: Move, branch: Id, date: int)
    requires LockHolds(sys, branch, date) && Commits(sys, move)
    ensures LockHolds(Next(sys, move), branch, date)
    ensures !Breach(sys, move, branch, date) ==>
      FrozenPart(Next(sys, move).db, branch, date) == FrozenPart(sys.db, branch, date)
    ensures DayPayments(Next(sys, move).db, branch, date)
            == DayPayments(sys.db, branch, date) + if Breach(sys, move, branch, date) then 1 else 0
  {
    var held := sys.processes[move.process];
    CommitSpares(sys.db, held.request, held.phase.snapshot, move.now);
    FilterAppend(sys.db.billing.payments, PaymentRow(held.request, held.phase.snapshot), PaidOnDay(branch, date));
  }

  lemma MoveFreezes(sys: System, move: Move, branch: Id, date: int)
    requires LockHolds(sys, branch, date)
    ensures LockHolds(Next(sys, move), branch, date)
    ensures !Breach(sys, move, branch, date) ==>
      FrozenPart(Next(sys, move).db, branch, date) == FrozenPart(sys.db, branch, date)
    ensures DayPayments(Next(sys, move).db, branch, date)
            == DayPayments(sys.db, branch, date) + if Breach(sys, move, branch, date) then 1 else 0
  {
    if Commits(sys, move) {
      CommitFreezes(sys, move, branch, date);
    } else if move.Elsewhere? && !move.act.command.PayBill? {
      StepFreezes(sys.db, move.act, branch, date);
      StepKeepsCash(sys.db, move.act);
      StepKeepsLocks(sys.db, move.act);
      assert FrozenPart(Next(sys, move).db, branch, date).payments == FrozenPart(sys.db, branch, date).payments;
    } else {
      assert Next(sys, move).db == sys.db;
    }
  }

  lemma {:induction false} BreachesCount(sys: System, moves: seq<Move>, branch: Id, date: int)
    requires LockHolds(sys, branch, date)
    ensures LockHolds(Reach(sys, moves), branch, date)
    ensures Quiet(sys, moves, branch, date) ==>
      FrozenPart(Reach(sys, moves).db, branch, date) == FrozenPart(sys.db, branch, date)
    ensures DayPayments(Reach(sys, moves).db, branch, date) >= DayPayments(sys.db, branch, date)
    ensures !Quiet(sys, moves, branch, date) ==>
      DayPayments(Reach(sys, moves).db, branch, date) > DayPayments(sys.db, branch, date)
  {
    if |moves| > 0 {
      var n := |moves| - 1;
      BreachesCount(sys, moves[..n], branch, date);
      MoveFreezes(Reach(sys, moves[..n]), moves[n], branch, date);
    }
  }

  /**
   In any interleaving a locked day stays locked, and everything that carries its date is unchanged exactly when
   no payment of that day has committed since.
   */
  lemma FrozenIffQuiet(sys: System, moves: seq<Move>, branch: Id, date: int)
    requires LockHolds(sys, branch, date)
    ensures DayLocked(Reach(sys, moves).db.closes, branch, date)
    ensures FrozenPart(Reach(sys, moves).db, branch, date) == FrozenPart(sys.db, branch, date)
            <==> Quiet(sys, moves, branch, date)
  {
    BreachesCount(sys, moves, branch, date);
    if !Quiet(sys, moves, branch, date) {
      assert FrozenPart(Reach(sys, moves).db, branch, date).payments != FrozenPart(sys.db, branch, date).payments;
    }
  }

  // ---- what can be checked when the day is locked ------------------------

  /** The request has loaded a bill of the day, and its commit would still go through. */
  ghost predicate Ready(process: Process, bills: seq<Bill>, branch: Id, date: int)
  {
    && process.phase.Holding? && process.request.body.bill < |bills|
    && process.request.context.branch == branch && process.phase.snapshot.date == date
    && bills[process.request.body.bill].version == process.request.body.expected
    && Payable(bills[process.request.body.bill].status)
  }

  ghost predicate NoneReady(sys: System, branch: Id, date: int)
  {
    forall p | 0 <= p < |sys.processes| :: !Ready(sys.processes[p], sys.db.billing.bills, branch, date)
  }

  lemma BreachIffReady(sys: System, p: Id, now: int, branch: Id, date: int)
    requires Sound(sys)
    ensures Breach(sys, Commit(p, now), branch, date)
            <==> p < |sys.processes| && Ready(sys.processes[p], sys.db.billing.bills, branch, date)
  {
    if p < |sys.processes| && sys.processes[p].phase.Holding? {
      assert Names(sys.processes[p], sys.db.billing.bills);
    }
  }

  /** A bill that stays as it is, or is archived, makes no request ready. */
  lemma BillsKeepUnready(process: Process, before: seq<Bill>, after: seq<Bill>, branch: Id, date: int)
    requires Names(process, before) && !Ready(process, before, branch, date) && |before| <= |after|
    requires forall b | 0 <= b < |before| ::
      Payable(after[b].status) && process.phase.Holding? && b == process.request.body.bill ==> after[b] == before[b]
    ensures !Ready(process, after, branch, date)
  {
  }

  lemma LoadKeepsUnready(sys: System, p: Id, branch: Id, date: int)
    requires Sound(sys) && DayLocked(sys.db.closes, branch, date) && NoneReady(sys, branch, date)
    ensures NoneReady(Next(sys, Load(p)), branch, date)
  {
    var after := Next(sys, Load(p));
    forall q | 0 <= q < |after.processes| ensures !Ready(after.processes[q], sys.db.billing.bills, branch, date) {
      if q == p && sys.processes[p].phase == Waiting && LoadPayment(sys.db, sys.processes[p].request).Proceed? {
        LoadedFits(sys.db, sys.processes[p].request);
      } else {
        assert !Ready(sys.processes[q], sys.db.billing.bills, branch, date);
      }
    }
  }

  /** A payment of another day leaves the bills of this day alone. */
  lemma CommitKeepsUnready(sys: System, move: Move, branch: Id, date: int)
    requires Sound(sys) && NoneReady(sys, branch, date) && Commits(sys, move)
    ensures NoneReady(Next(sys, move), branch, date)
  {
    var held := sys.processes[move.process];
    var bills, after := sys.db.billing.bills, Next(sys, move);
    assert Names(held, bills) && !Ready(held, bills, branch, date);
    CommitSameBills(sys.db, held.request, held.phase.snapshot, move.now);
    forall q | 0 <= q < |after.processes| ensures !Ready(after.processes[q], after.db.billing.bills, branch, date) {
      assert Names(sys.processes[q], bills) && !Ready(sys.processes[q], bills, branch, date);
    }
  }

  lemma OthersKeepUnready(processes: seq<Process>, before: BillTables, after: BillTables, branch: Id, date: int)
    requires AllName(processes, before.bills) && BillsMoveOn(before, after)
    requires forall p | 0 <= p < |processes| :: !Ready(processes[p], before.bills, branch, date)
    ensures forall p | 0 <= p < |processes| :: !Ready(processes[p], after.bills, branch, date)
  {
    forall p | 0 <= p < |processes| ensures !Ready(processes[p], after.bills, branch, date) {
      assert Names(processes[p], before.bills);
      BillsKeepUnready(processes[p], before.bills, after.bills, branch, date);
    }
  }

  lemma MoveKeepsUnready(sys: System, move: Move, branch: Id, date: int)
    requires Sound(sys) && DayLocked(sys.db.closes, branch, date) && NoneReady(sys, branch, date)
    ensures NoneReady(Next(sys, move), branch, date)
  {
    var after := Next(sys, move);
    if Commits(sys, move) {
      CommitKeepsUnready(sys, move, branch, date);
    } else if move.Load? {
      LoadKeepsUnready(sys, move.process, branch, date);
    } else if move.Elsewhere? && !move.act.command.PayBill? {
      OthersMoveOn(sys.db, move.act);
      OthersKeepUnready(sys.processes, sys.db.billing, after.db.billing, branch, date);
    } else {
      forall q | 0 <= q < |after.processes| ensures !Ready(after.processes[q], after.db.billing.bills, branch, date) {
        if q < |sys.processes| { assert !Ready(sys.processes[q], sys.db.billing.bills, branch, date); }
      }
    }
  }

  lemma {:induction false} UnreadyStaysQuiet(sys: System, moves: seq<Move>, branch: Id, date: int)
    requires Sound(sys) && DayLocked(sys.db.closes, branch, date) && NoneReady(sys, branch, date)
    ensures Quiet(sys, moves, branch, date) && NoneReady(Reach(sys, moves), branch, date)
  {
    if |moves| > 0 {
      var n := |moves| - 1;
      var mid := Reach(sys, moves[..n]);
      UnreadyStaysQuiet(sys, moves[..n], branch, date);
      ReachKeepsSound(sys, moves[..n]);
      FrozenIffQuiet(sys, moves[..n], branch, date);
      MoveKeepsUnready(mid, moves[n], branch, date);
      if moves[n].Commit? {
        BreachIffReady(mid, moves[n].process, moves[n].now, branch, date);
      }
    }
  }

  lemma ReadyCanBreach(sys: System, p: Id, branch: Id, date: int)
    requires Sound(sys) && p < |sys.processes| && Ready(sys.processes[p], sys.db.billing.bills, branch, date)
    ensures !Quiet(sys, [Commit(p, 0)], branch, date)
  {
    BreachIffReady(sys, p, 0, branch, date);
    assert [Commit(p, 0)][..0] == [];
  }

  ghost predicate StaysFrozen(sys: System, moves: seq<Move>, branch: Id, date: int)
    requires DayLocked(sys.db.closes, branch, date)
  {
    && DayLocked(Reach(sys, moves).db.closes, branch, date)
    && FrozenPart(Reach(sys, moves).db, branch, date) == FrozenPart(sys.db, branch, date)
  }

  /**
   Once a day is locked, every later interleaving leaves it frozen exactly when, at that moment, no request holds
   a bill of the day that its commit could still pay on.
   */
  lemma FrozenForGoodIff(sys: System, branch: Id, date: int)
    requires Sound(sys) && DayLocked(sys.db.closes, branch, date)
    ensures (forall moves :: StaysFrozen(sys, moves, branch, date)) <==> NoneReady(sys, branch, date)
  {
    if NoneReady(sys, branch, date) {
      forall moves ensures StaysFrozen(sys, moves, branch, date) {
        UnreadyStaysQuiet(sys, moves, branch, date);
        FrozenIffQuiet(sys, moves, branch, date);
      }
    } else {
      var p :| 0 <= p < |sys.processes| && Ready(sys.processes[p], sys.db.billing.bills, branch, date);
      ReadyCanBreach(sys, p, branch, date);
      FrozenIffQuiet(sys, [Commit(p, 0)], branch, date);
      assert !StaysFrozen(sys, [Commit(p, 0)], branch, date);
    }
  }

  /** It is enough that no request holds a bill of the day at all. */
  lemma FrozenIfNoneHolds(sys: System, moves: seq<Move>, branch: Id, date: int)
    requires Sound(sys) && DayLocked(sys.db.closes, branch, date)
    requires forall p | 0 <= p < |sys.processes| && sys.processes[p].phase.Holding? ::
      !(sys.processes[p].request.context.branch == branch && sys.processes[p].phase.snapshot.date == date)
    ensures StaysFrozen(sys, moves, branch, date)
  {
    UnreadyStaysQuiet(sys, moves, branch, date);
    FrozenIffQuiet(sys, moves, branch, date);
  }
}
