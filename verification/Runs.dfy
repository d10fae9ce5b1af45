/** Results over whole runs of the protocol that need more than the invariant. */
module Runs {
  import opened Sums
  import opened Records
  import opened Billing
  import opened CashCustody
  import opened Settlement
  import opened Seating
  import opened DoubleEntry
  import opened Pouches
  import opened Protocol

  // ---- what the reader can rely on in every reachable state --------------

  /** Bills and their payments, sessions and their bills, tables and their sessions, spelled out. */
  lemma ReachableFloor(db: Db, acts: seq<Act>)
    requires Initial(db)
    ensures var end := Run(db, acts);
      && (forall s, t | 0 <= s < t < |end.floor.sessions| && end.floor.sessions[s].closedAt.None?
                        && end.floor.sessions[t].closedAt.None? ::
            end.floor.sessions[s].table != end.floor.sessions[t].table)
      && (forall s | 0 <= s < |end.floor.sessions| && end.floor.sessions[s].status == Closed ::
            end.floor.sessions[s].closedAt.Some?)
      && (forall s | 0 <= s < |end.floor.sessions| && end.floor.sessions[s].closedAt.None?
                     && end.floor.sessions[s].kind != Counter ::
            end.floor.sessions[s].table < |end.floor.tables|
            && end.floor.tables[end.floor.sessions[s].table].status == Occupied)
  {
    InitialConsistent(db);
    RunKeepsConsistent(db, acts);
    var end := Run(db, acts);
    assert forall s | 0 <= s < |end.floor.sessions| :: SessionFits(end.floor.sessions[s], end.floor.tables);
  }

  /** A session marked PAID has a bill whose settled payments add up to its total. */
  lemma ReachablePaid(db: Db, acts: seq<Act>, session: Id)
    requires Initial(db)
    requires session < |Run(db, acts).floor.sessions| && Run(db, acts).floor.sessions[session].status == Paid
    ensures var billing := Run(db, acts).billing;
      exists b | 0 <= b < |billing.bills| ::
        billing.bills[b].session == session
        && billing.bills[b].total == billing.bills[b].amountPaid == SettledOn(billing.payments, b)
  {
    InitialConsistent(db);
    RunKeepsConsistent(db, acts);
    var billing := Run(db, acts).billing;
    assert Settled(billing.bills, session);
    var b :| 0 <= b < |billing.bills| && billing.bills[b].session == session
             && billing.bills[b].status in {FullyPaid, Archived};
    assert BillAgrees(billing.bills[b], SettledOn(billing.payments, b));
  }

  /** No transfer reference ever settles two bills, whoever wrote it down. */
  lemma ReachableReferences(db: Db, acts: seq<Act>, i: Id, j: Id)
    requires Initial(db)
    requires i < |Run(db, acts).billing.audits| && j < |Run(db, acts).billing.audits|
    requires Run(db, acts).billing.audits[i].reference == Run(db, acts).billing.audits[j].reference
    ensures Run(db, acts).billing.audits[i].bill == Run(db, acts).billing.audits[j].bill
  {
    InitialConsistent(db);
    RunKeepsConsistent(db, acts);
    var billing := Run(db, acts).billing;
    assert Covered(billing.audits[i], billing.references) && Covered(billing.audits[j], billing.references);
  }

  // ---- closedAt is never cleared -----------------------------------------

  ghost predicate StaysClosed(before: seq<Session>, after: seq<Session>)
  {
    && |before| <= |after|
    && forall s | 0 <= s < |before| && before[s].closedAt.Some? :: after[s].closedAt.Some?
  }

  lemma SeatsStayClosed(db: Db, act: Act)
    requires Seats(act.command)
    ensures StaysClosed(db.floor.sessions, Apply(db, act).0.floor.sessions)
  {
  }

  lemma BillsStayClosed(db: Db, act: Act)
    requires Bills(act.command)
    ensures StaysClosed(db.floor.sessions, Apply(db, act).0.floor.sessions)
  {
  }

  lemma DayStaysClosed(db: Db, act: Act)
    requires EndsDay(act.command)
    ensures StaysClosed(db.floor.sessions, Apply(db, act).0.floor.sessions)
  {
  }

  lemma OutsideStaysClosed(db: Db, act: Outside)
    ensures StaysClosed(db.floor.sessions, ApplyOutside(db, act).floor.sessions)
  {
  }

  lemma StepStaysClosed(db: Db, act: Act)
    ensures StaysClosed(db.floor.sessions, Apply(db, act).0.floor.sessions)
  {
    if Seats(act.command) { SeatsStayClosed(db, act); }
    else if Bills(act.command) { BillsStayClosed(db, act); }
    else if EndsDay(act.command) { DayStaysClosed(db, act); }
    else if act.command.FromOutside? { OutsideStaysClosed(db, act.command.act); }
    else { StepSpares(db, act); }
  }

  /** A closing time, once written, is never taken back. */
  lemma {:induction false} ClosedForGood(db: Db, acts: seq<Act>)
    ensures StaysClosed(db.floor.sessions, Run(db, acts).floor.sessions)
  {
    if |acts| > 0 {
      ClosedForGood(db, acts[..|acts| - 1]);
      StepStaysClosed(Run(db, acts[..|acts| - 1]), acts[|acts| - 1]);
    }
  }

  // ---- bill lines are never rewritten ------------------------------------

  lemma NewLinesGrow(db: Db, act: Act)
    requires Bills(act.command)
    ensures db.billing.lines <= Apply(db, act).0.billing.lines
  {
  }

  lemma {:induction false} LinesGrow(db: Db, acts: seq<Act>)
    ensures db.billing.lines <= Run(db, acts).billing.lines
  {
    if |acts| > 0 {
      var n := |acts| - 1;
      LinesGrow(db, acts[..n]);
      if Bills(acts[n].command) {
        NewLinesGrow(Run(db, acts[..n]), acts[n]);
      } else {
        StepSpares(Run(db, acts[..n]), acts[n]);
      }
    }
  }

  /**
   A bill keeps the prices it was generated with: after any later run each of its lines still holds what its item
   cost then, although the item may have been changed since.
   */
  lemma LinesAreSnapshots(db: Db, c: Context, request: Id, expected: int, acts: seq<Act>, i: Id)
    requires GenerateBill(db, c, request, expected).1.Done?
    requires |db.billing.lines| <= i < |GenerateBill(db, c, request, expected).0.billing.lines|
    ensures var end := Run(GenerateBill(db, c, request, expected).0, acts);
      && i < |end.billing.lines| && end.billing.lines[i].item < |db.floor.items|
      && end.billing.lines[i].bill == |db.billing.bills|
      && end.billing.lines[i].lineTotal == LineTotal(db.floor.items[end.billing.lines[i].item])
  {
    LinesGrow(GenerateBill(db, c, request, expected).0, acts);
  }

  // ---- pouches are never negative ----------------------------------------

  predicate WithinDeclared(row: Dispute, how: Resolution)
  {
    match how
    case AcceptCounted => row.counted <= row.declared
    case AcceptDeclared => true
    case OtherApproved(amount) => amount.Some? ==> amount.value <= row.declared
  }

  /** No handover, and no dispute resolved above what the waiter declared. */
  ghost predicate Careful(db: Db, act: Act)
  {
    match act.command
    case Resolve(dispute, how) => dispute < |db.custody.disputes| ==> WithinDeclared(db.custody.disputes[dispute], how)
    case FromOutside(Post(entry)) => entry.entryType !in {HandoverIn, HandoverOut}
    case _ => true
  }

  ghost predicate CarefulRun(db: Db, acts: seq<Act>)
  {
    forall i | 0 <= i < |acts| :: Careful(Run(db, acts[..i]), acts[i])
  }

  ghost predicate PouchesHold(db: Db)
  {
    && (forall k | 0 <= k < |db.custody.drops| :: db.custody.drops[k].shift < |db.custody.shifts|)
    && (forall k | 0 <= k < |db.custody.ledger| :: db.custody.ledger[k].entryType !in {HandoverIn, HandoverOut})
    && (forall s | 0 <= s < |db.custody.shifts| :: PouchOf(db, db.custody.shifts[s].branch, s) >= 0)
  }

  lemma NewShiftHolds(db: Db, row: Shift)
    requires PouchesHold(db) && BillingAgrees(db.billing)
    ensures PouchesHold(ApplyOutside(db, OpenShift(row)))
  {
    var after := ApplyOutside(db, OpenShift(row));
    var s := |db.custody.shifts|;
    SumZero(db.custody.drops, DroppedBy(s));
    SumZero(db.custody.drops, PendingBy(s));
    SumZero(db.custody.drops, DisputedBy(s));
    SumZero(db.custody.ledger, HandedTo(s));
    forall p | p in db.billing.payments ensures CollectedBy(row.branch, s)(p) >= 0 {
      var i :| 0 <= i < |db.billing.payments| && db.billing.payments[i] == p;
      assert PaymentPlaced(db.billing.payments[i], db.billing.bills);
    }
    SumNonNegative(db.billing.payments, CollectedBy(row.branch, s));
    forall k | 0 <= k < |after.custody.shifts| ensures PouchOf(after, after.custody.shifts[k].branch, k) >= 0 {
      if k < s { assert PouchOf(db, db.custody.shifts[k].branch, k) >= 0; }
    }
  }

  lemma PostHolds(db: Db, entry: Entry)
    requires PouchesHold(db) && entry.entryType !in {HandoverIn, HandoverOut}
    ensures PouchesHold(ApplyOutside(db, Post(entry)))
  {
    var after := ApplyOutside(db, Post(entry));
    if after != db {
      forall s | 0 <= s < |db.custody.shifts| ensures PouchOf(after, db.custody.shifts[s].branch, s) >= 0 {
        SumAppend(db.custody.ledger, entry, HandedTo(s));
        assert PouchOf(db, db.custody.shifts[s].branch, s) >= 0;
      }
    }
  }

  lemma PayHolds(db: Db, r: PayRequest, now: int)
    requires PouchesHold(db)
    ensures PouchesHold(Pay(db, r, now).0)
  {
    if LoadPayment(db, r).Proceed? && Pay(db, r, now).1.Done? {
      LoadedFits(db, r);
      var after := Pay(db, r, now).0;
      forall s | 0 <= s < |db.custody.shifts| ensures PouchOf(after, db.custody.shifts[s].branch, s) >= 0 {
        PaymentMovesPouch(db, r, LoadPayment(db, r).bill, now, db.custody.shifts[s].branch, s);
        assert PouchOf(db, db.custody.shifts[s].branch, s) >= 0;
      }
    }
  }

  lemma InitiateHolds(db: Db, c: Context, amount: int)
    requires PouchesHold(db) && OnShift(db, c)
    ensures PouchesHold(InitiateDrop(db, c, amount).0)
  {
    if InitiateDrop(db, c, amount).1.Done? {
      var after := InitiateDrop(db, c, amount).0;
      forall s | 0 <= s < |db.custody.shifts| ensures PouchOf(after, db.custody.shifts[s].branch, s) >= 0 {
        InitiateMovesPouch(db, c, amount, db.custody.shifts[s].branch, s);
        assert PouchOf(db, db.custody.shifts[s].branch, s) >= 0;
      }
    }
  }

  lemma ReceiveHolds(db: Db, c: Context, drop: Id, counted: int, expected: int)
    requires PouchesHold(db)
    ensures PouchesHold(ReceiveDrop(db, c, drop, counted, expected).0)
  {
    var after := ReceiveDrop(db, c, drop, counted, expected).0;
    forall s | 0 <= s < |db.custody.shifts| ensures PouchOf(after, db.custody.shifts[s].branch, s) >= 0 {
      ReceiveSparesPouch(db, c, drop, counted, expected, db.custody.shifts[s].branch, s);
      assert PouchOf(db, db.custody.shifts[s].branch, s) >= 0;
    }
  }

  lemma ResolveHolds(db: Db, c: Context, dispute: Id, how: Resolution)
    requires PouchesHold(db) && CashAgrees(db.custody)
    requires dispute < |db.custody.disputes| ==> WithinDeclared(db.custody.disputes[dispute], how)
    ensures PouchesHold(ResolveDispute(db, c, dispute, how).0)
  {
    if ResolveDispute(db, c, dispute, how).1.Done? {
      var after := ResolveDispute(db, c, dispute, how).0;
      assert DisputeFits(db.custody.disputes[dispute], db.custody.drops);
      forall s | 0 <= s < |db.custody.shifts| ensures PouchOf(after, db.custody.shifts[s].branch, s) >= 0 {
        ResolveMovesPouch(db, c, dispute, how, db.custody.shifts[s].branch, s);
        assert PouchOf(db, db.custody.shifts[s].branch, s) >= 0;
      }
    }
  }

  lemma UntouchedHolds(db: Db, after: Db)
    requires PouchesHold(db)
    requires after.billing.payments == db.billing.payments
    requires after.custody.drops == db.custody.drops && after.custody.ledger == db.custody.ledger
    requires after.custody.shifts == db.custody.shifts
    ensures PouchesHold(after)
  {
    forall s | 0 <= s < |db.custody.shifts| ensures PouchOf(after, db.custody.shifts[s].branch, s) >= 0 {
      assert PouchOf(db, db.custody.shifts[s].branch, s) >= 0;
    }
  }

  lemma OutsideHolds(db: Db, act: Outside)
    requires Consistent(db) && PouchesHold(db)
    requires act.Post? ==> act.entry.entryType !in {HandoverIn, HandoverOut}
    ensures PouchesHold(ApplyOutside(db, act))
  {
    match act {
      case OpenShift(row) => NewShiftHolds(db, row);
      case Post(entry) => PostHolds(db, entry);
      case _ => UntouchedHolds(db, ApplyOutside(db, act));
    }
  }

  lemma CashHolds(db: Db, act: Act)
    requires CashAgrees(db.custody) && PouchesHold(db) && Careful(db, act)
    requires MovesCash(act.command) && OnShift(db, act.context)
    ensures PouchesHold(Apply(db, act).0)
  {
    var c := act.context;
    if act.command.Initiate? {
      InitiateHolds(db, c, act.command.amount);
    } else if act.command.Receive? {
      ReceiveHolds(db, c, act.command.drop, act.command.counted, act.command.expected);
    } else {
      ResolveHolds(db, c, act.command.dispute, act.command.how);
    }
  }

  lemma StepHolds(db: Db, act: Act)
    requires Consistent(db) && PouchesHold(db) && Careful(db, act)
    ensures PouchesHold(Apply(db, act).0)
  {
    if NeedsShift(act.command) && !OnShift(db, act.context) {
    } else if act.command.PayBill? {
      PayHolds(db, PayRequest(act.context, act.command.key, act.command.body, act.command.verdict), act.now);
    } else if MovesCash(act.command) {
      CashHolds(db, act);
    } else if act.command.FromOutside? {
      OutsideHolds(db, act.command.act);
    } else {
      StepSpares(db, act);
      OthersMoveOn(db, act);
      UntouchedHolds(db, Apply(db, act).0);
    }
  }

  lemma CarefulPrefix(db: Db, acts: seq<Act>)
    requires CarefulRun(db, acts) && |acts| > 0
    ensures CarefulRun(db, acts[..|acts| - 1]) && Careful(Run(db, acts[..|acts| - 1]), acts[|acts| - 1])
  {
    var n := |acts| - 1;
    assert forall i | 0 <= i < n :: acts[..n][..i] == acts[..i] && acts[..n][i] == acts[i];
  }

  /** Along a careful run the clamp never acts: no shift's unclamped pouch is below zero. */
  lemma {:induction false} PouchesNeverNegative(db: Db, acts: seq<Act>)
    requires Initial(db) && CarefulRun(db, acts)
    ensures Consistent(Run(db, acts)) && PouchesHold(Run(db, acts))
    ensures forall s | 0 <= s < |Run(db, acts).custody.shifts| ::
      var end := Run(db, acts);
      SummaryForShift(end.billing.payments, end.custody, end.custody.shifts[s].branch, s).undropped
      == PouchOf(end, end.custody.shifts[s].branch, s)
  {
    InitialConsistent(db);
    if |acts| > 0 {
      var n := |acts| - 1;
      CarefulPrefix(db, acts);
      PouchesNeverNegative(db, acts[..n]);
      StepKeepsConsistent(Run(db, acts[..n]), acts[n]);
      StepHolds(Run(db, acts[..n]), acts[n]);
    }
  }
}
