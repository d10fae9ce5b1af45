/**
 Payment requests running concurrently. Each request loads its bill outside the transaction and commits
 later; each load, each transaction and each other command is one step, in any order.
 */
module Interleaving {
  import opened Records
  import opened Billing
  import opened FloorPlan
  import opened Settlement
  import opened Protocol

  datatype Phase =
    | Waiting
    | Holding(snapshot: Bill)
    | Committed(payment: Id, answer: PaymentAnswer)
    | Replied(replay: PaymentAnswer)
    | Aborted(error: Error)

  datatype Process = Process(request: PayRequest, phase: Phase)

  datatype System = System(db: Db, processes: seq<Process>)

  datatype Move =
    | Arrive(request: PayRequest)
    | Load(process: Id)
    | Commit(process: Id, now: int)
    | Elsewhere(act: Act)

  ghost function Next(sys: System, move: Move): System
  {
    match move
    case Arrive(request) => sys.(processes := sys.processes + [Process(request, Waiting)])
    case Load(p) =>
      if p >= |sys.processes| || sys.processes[p].phase != Waiting then sys
      else
        var phase := match LoadPayment(sys.db, sys.processes[p].request)
                     case Replayed(answer) => Replied(answer)
                     case Stopped(error) => Aborted(error)
                     case Proceed(bill) => Holding(bill);
        sys.(processes := sys.processes[p := sys.processes[p].(phase := phase)])
    case Commit(p, now) =>
      if p >= |sys.processes| || !sys.processes[p].phase.Holding? then sys
      else
        var step := CommitPayment(sys.db, sys.processes[p].request, sys.processes[p].phase.snapshot, now);
        var phase := match step.1
                     case Refused(error) => Aborted(error)
                     case Done(answer) =>
                       if answer.PaidAnswer? then Committed(|sys.db.billing.payments|, answer.paid) else Waiting;
        System(step.0, sys.processes[p := sys.processes[p].(phase := phase)])
    case Elsewhere(act) =>
      if act.command.PayBill? then sys else sys.(db := Apply(sys.db, act).0)
  }

  ghost function Reach(sys: System, moves: seq<Move>): System
  {
    if |moves| == 0 then sys else Next(Reach(sys, moves[..|moves| - 1]), moves[|moves| - 1])
  }

  ghost predicate Fresh(sys: System) { Initial(sys.db) && sys.processes == [] }

  // ---- at most one commit per bill and expected version ------------------

  ghost predicate CommitFits(process: Process, billing: BillTables)
  {
    process.phase.Committed? ==>
      && process.phase.payment < |billing.payments|
      && process.request.body.bill < |billing.bills|
      && process.request.body.expected < billing.bills[process.request.body.bill].version
      && billing.payments[process.phase.payment].bill == process.request.body.bill
      && billing.payments[process.phase.payment].amount == process.request.body.amount
  }

  /** Two commits wrote different payments and used up different versions. */
  ghost predicate CommitsApart(a: Process, b: Process)
  {
    a.phase.Committed? && b.phase.Committed? ==>
      && a.phase.payment != b.phase.payment
      && !(a.request.body.bill == b.request.body.bill && a.request.body.expected == b.request.body.expected)
  }

  ghost predicate CommitsOnce(processes: seq<Process>, billing: BillTables)
  {
    && (forall p | 0 <= p < |processes| :: CommitFits(processes[p], billing))
    && (forall p, q | 0 <= p < q < |processes| :: CommitsApart(processes[p], processes[q]))
  }

  /** Every payment row was written by a committed request. */
  ghost predicate Owned(processes: seq<Process>, payment: Id)
  {
    exists p | 0 <= p < |processes| :: processes[p].phase.Committed? && processes[p].phase.payment == payment
  }

  ghost predicate AllOwned(processes: seq<Process>, payments: nat)
  {
    forall i: Id | i < payments :: Owned(processes, i)
  }

  lemma OthersKeepCommits(processes: seq<Process>, before: BillTables, after: BillTables)
    requires CommitsOnce(processes, before) && BillsMoveOn(before, after)
    ensures CommitsOnce(processes, after)
  {
    forall p | 0 <= p < |processes| ensures CommitFits(processes[p], after) {
      assert CommitFits(processes[p], before);
    }
  }

  lemma PhaseKeepsOwned(processes: seq<Process>, p: Id, row: Process, payments: nat)
    requires AllOwned(processes, payments) && p < |processes| && !processes[p].phase.Committed?
    ensures AllOwned(processes[p := row], payments)
  {
    var after := processes[p := row];
    forall i: Id | i < payments ensures Owned(after, i) {
      assert Owned(processes, i);
      var q :| 0 <= q < |processes| && processes[q].phase.Committed? && processes[q].phase.payment == i;
      assert after[q] == processes[q];
    }
  }

  lemma CommitKeepsOnce(sys: System, p: Id, now: int)
    requires CommitsOnce(sys.processes, sys.db.billing)
    requires p < |sys.processes| && sys.processes[p].phase.Holding?
    ensures var after := Next(sys, Commit(p, now)); CommitsOnce(after.processes, after.db.billing)
  {
    var r := sys.processes[p].request;
    var after := Next(sys, Commit(p, now));
    if CommitPayment(sys.db, r, sys.processes[p].phase.snapshot, now).1.Done? {
      assert r.body.expected == sys.db.billing.bills[r.body.bill].version;
      forall q | 0 <= q < |after.processes| ensures CommitFits(after.processes[q], after.db.billing) {
        assert CommitFits(sys.processes[q], sys.db.billing);
      }
      forall q | 0 <= q < |after.processes| && q != p
        ensures CommitsApart(after.processes[q], after.processes[p]) && CommitsApart(after.processes[p], after.processes[q])
      {
        assert CommitFits(sys.processes[q], sys.db.billing);
      }
    }
    forall q, t | 0 <= q < t < |after.processes| ensures CommitsApart(after.processes[q], after.processes[t]) {
      assert CommitsApart(sys.processes[q], sys.processes[t]);
    }
  }

  lemma CommitKeepsOwned(sys: System, p: Id, now: int)
    requires AllOwned(sys.processes, |sys.db.billing.payments|)
    requires p < |sys.processes| && sys.processes[p].phase.Holding?
    ensures var after := Next(sys, Commit(p, now)); AllOwned(after.processes, |after.db.billing.payments|)
  {
    var after := Next(sys, Commit(p, now));
    PhaseKeepsOwned(sys.processes, p, after.processes[p], |sys.db.billing.payments|);
  }

  lemma MoveKeepsOnce(sys: System, move: Move)
    requires CommitsOnce(sys.processes, sys.db.billing) && AllOwned(sys.processes, |sys.db.billing.payments|)
    ensures var after := Next(sys, move);
      CommitsOnce(after.processes, after.db.billing) && AllOwned(after.processes, |after.db.billing.payments|)
  {
    var after := Next(sys, move);
    match move {
      case Arrive(request) =>
        forall i: Id | i < |sys.db.billing.payments| ensures Owned(after.processes, i) {
          assert Owned(sys.processes, i);
          var q :| 0 <= q < |sys.processes| && sys.processes[q].phase.Committed? && sys.processes[q].phase.payment == i;
          assert after.processes[q] == sys.processes[q];
        }
      case Load(p) =>
        if after != sys {
          PhaseKeepsOwned(sys.processes, p, after.processes[p], |sys.db.billing.payments|);
        }
      case Commit(p, now) =>
        if p < |sys.processes| && sys.processes[p].phase.Holding? {
          CommitKeepsOnce(sys, p, now);
          CommitKeepsOwned(sys, p, now);
        }
      case Elsewhere(act) =>
        if !act.command.PayBill? {
          OthersMoveOn(sys.db, act);
          OthersKeepCommits(sys.processes, sys.db.billing, after.db.billing);
        }
    }
  }

  /**
   In every interleaving each payment row belongs to one committed request, and at most one request ever
   commits for a bill and expected version.
   */
  lemma {:induction false} EachVersionPaidOnce(sys: System, moves: seq<Move>)
    requires Fresh(sys)
    ensures var end := Reach(sys, moves);
      CommitsOnce(end.processes, end.db.billing) && AllOwned(end.processes, |end.db.billing.payments|)
  {
    if |moves| > 0 {
      EachVersionPaidOnce(sys, moves[..|moves| - 1]);
      MoveKeepsOnce(Reach(sys, moves[..|moves| - 1]), moves[|moves| - 1]);
    }
  }

  /** Retries that carry one body settle at most once. */
  lemma RetriesSettleOnce(sys: System, moves: seq<Move>, p: Id, q: Id)
    requires Fresh(sys)
    requires p < |Reach(sys, moves).processes| && q < |Reach(sys, moves).processes|
    requires Reach(sys, moves).processes[p].phase.Committed? && Reach(sys, moves).processes[q].phase.Committed?
    requires Reach(sys, moves).processes[p].request.body == Reach(sys, moves).processes[q].request.body
    ensures p == q
  {
    EachVersionPaidOnce(sys, moves);
    var processes := Reach(sys, moves).processes;
    assert p < q ==> CommitsApart(processes[p], processes[q]);
    assert q < p ==> CommitsApart(processes[q], processes[p]);
  }

  // ---- replays -----------------------------------------------------------

  ghost predicate KeyUsed(process: Process, rows: map<IdemKey, IdemRow>)
  {
    process.phase.Committed? ==> KeyOf(process.request) in rows
  }

  ghost predicate AnsweredBy(process: Process, key: IdemKey, row: IdemRow)
  {
    process.phase.Committed? && KeyOf(process.request) == key && process.phase.answer == row.answer
  }

  ghost predicate NamedBy(process: Process, key: IdemKey, row: IdemRow)
  {
    process.phase.Committed? && KeyOf(process.request) == key && process.request.body == row.body
  }

  /** Each stored answer came from a commit of its key, and so did each stored body, though not always the same. */
  ghost predicate RowTraced(processes: seq<Process>, key: IdemKey, row: IdemRow)
  {
    && (exists p | 0 <= p < |processes| :: AnsweredBy(processes[p], key, row))
    && (exists p | 0 <= p < |processes| :: NamedBy(processes[p], key, row))
  }

  ghost predicate RowsTraced(processes: seq<Process>, rows: map<IdemKey, IdemRow>)
  {
    && (forall p | 0 <= p < |processes| :: KeyUsed(processes[p], rows))
    && (forall key | key in rows :: RowTraced(processes, key, rows[key]))
  }

  lemma TraceSurvives(before: seq<Process>, after: seq<Process>, key: IdemKey, row: IdemRow)
    requires RowTraced(before, key, row)
    requires |before| <= |after|
    requires forall p | 0 <= p < |before| && before[p].phase.Committed? :: after[p] == before[p]
    ensures RowTraced(after, key, row)
  {
    var p :| 0 <= p < |before| && AnsweredBy(before[p], key, row);
    var q :| 0 <= q < |before| && NamedBy(before[q], key, row);
    assert AnsweredBy(after[p], key, row) && NamedBy(after[q], key, row);
  }

  /** The row a commit wrote is traced to it, and to whoever first sent the key. */
  lemma StoredIsTraced(before: seq<Process>, after: seq<Process>, rows: map<IdemKey, IdemRow>, p: Id)
    requires RowsTraced(before, rows) && p < |before| == |after| && after[p].phase.Committed?
    requires forall q | 0 <= q < |before| && q != p :: after[q] == before[q]
    requires !before[p].phase.Committed?
    ensures var r := after[p].request;
      var stored := StoreAnswer(rows, KeyOf(r), r.body, after[p].phase.answer);
      RowTraced(after, KeyOf(r), stored[KeyOf(r)])
  {
    var r := after[p].request;
    var key := KeyOf(r);
    var stored := StoreAnswer(rows, key, r.body, after[p].phase.answer);
    assert AnsweredBy(after[p], key, stored[key]);
    if key in rows {
      TraceSurvives(before, after, key, rows[key]);
      var q :| 0 <= q < |after| && NamedBy(after[q], key, rows[key]);
      assert NamedBy(after[q], key, stored[key]);
    } else {
      assert NamedBy(after[p], key, stored[key]);
    }
  }

  lemma CommitKeepsKeys(sys: System, p: Id, now: int)
    requires RowsTraced(sys.processes, sys.db.idempotency)
    requires p < |sys.processes| && sys.processes[p].phase.Holding?
    ensures var after := Next(sys, Commit(p, now));
      forall q | 0 <= q < |after.processes| :: KeyUsed(after.processes[q], after.db.idempotency)
  {
    var after := Next(sys, Commit(p, now));
    forall q | 0 <= q < |after.processes| ensures KeyUsed(after.processes[q], after.db.idempotency) {
      assert KeyUsed(sys.processes[q], sys.db.idempotency);
    }
  }

  lemma CommitKeepsTraced(sys: System, p: Id, now: int)
    requires RowsTraced(sys.processes, sys.db.idempotency)
    requires p < |sys.processes| && sys.processes[p].phase.Holding?
    ensures var after := Next(sys, Commit(p, now)); RowsTraced(after.processes, after.db.idempotency)
  {
    var after := Next(sys, Commit(p, now));
    var rows := after.db.idempotency;
    var key := KeyOf(sys.processes[p].request);
    CommitKeepsKeys(sys, p, now);
    if after.processes[p].phase.Committed? {
      StoredIsTraced(sys.processes, after.processes, sys.db.idempotency, p);
    }
    forall k | k in rows ensures RowTraced(after.processes, k, rows[k]) {
      if !(after.processes[p].phase.Committed? && k == key) {
        TraceSurvives(sys.processes, after.processes, k, sys.db.idempotency[k]);
      }
    }
  }

  lemma ElsewhereSparesRows(db: Db, act: Act)
    requires !act.command.PayBill?
    ensures Apply(db, act).0.idempotency == db.idempotency
  {
    if Bills(act.command) { OtherBillsMoveOn(db, act); } else { StepSpares(db, act); }
  }

  lemma MoveKeepsTraced(sys: System, move: Move)
    requires RowsTraced(sys.processes, sys.db.idempotency)
    ensures var after := Next(sys, move); RowsTraced(after.processes, after.db.idempotency)
  {
    var after := Next(sys, move);
    if move.Commit? && move.process < |sys.processes| && sys.processes[move.process].phase.Holding? {
      CommitKeepsTraced(sys, move.process, move.now);
    } else {
      if move.Elsewhere? && !move.act.command.PayBill? { ElsewhereSparesRows(sys.db, move.act); }
      forall q | 0 <= q < |after.processes| ensures KeyUsed(after.processes[q], after.db.idempotency) {
        if q < |sys.processes| { assert KeyUsed(sys.processes[q], sys.db.idempotency); }
      }
      forall key | key in after.db.idempotency ensures RowTraced(after.processes, key, after.db.idempotency[key]) {
        TraceSurvives(sys.processes, after.processes, key, sys.db.idempotency[key]);
      }
    }
  }

  lemma {:induction false} RowsAlwaysTraced(sys: System, moves: seq<Move>)
    requires Fresh(sys)
    ensures var end := Reach(sys, moves); RowsTraced(end.processes, end.db.idempotency)
  {
    if |moves| > 0 {
      RowsAlwaysTraced(sys, moves[..|moves| - 1]);
      MoveKeepsTraced(Reach(sys, moves[..|moves| - 1]), moves[|moves| - 1]);
    }
  }

  ghost predicate OneBody(processes: seq<Process>, key: IdemKey, body: PayBody)
  {
    forall p | 0 <= p < |processes| && KeyOf(processes[p].request) == key :: processes[p].request.body == body
  }

  /** For a key only ever sent with one body, every replay returns the committed answer and changes nothing. */
  lemma ReplayReturnsCommitted(sys: System, moves: seq<Move>, p: Id, q: Id)
    requires Fresh(sys)
    requires p < |Reach(sys, moves).processes| && q < |Reach(sys, moves).processes|
    requires Reach(sys, moves).processes[p].phase.Committed? && Reach(sys, moves).processes[q].phase == Waiting
    requires KeyOf(Reach(sys, moves).processes[p].request) == KeyOf(Reach(sys, moves).processes[q].request)
    requires OneBody(Reach(sys, moves).processes, KeyOf(Reach(sys, moves).processes[p].request),
                     Reach(sys, moves).processes[p].request.body)
    ensures var end := Reach(sys, moves);
      && Next(end, Load(q)).db == end.db
      && Next(end, Load(q)).processes[q].phase == Replied(end.processes[p].phase.answer)
  {
    RowsAlwaysTraced(sys, moves);
    var end := Reach(sys, moves);
    var key := KeyOf(end.processes[p].request);
    assert KeyUsed(end.processes[p], end.db.idempotency);
    var row := end.db.idempotency[key];
    assert RowTraced(end.processes, key, row);
    var a :| 0 <= a < |end.processes| && AnsweredBy(end.processes[a], key, row);
    var b :| 0 <= b < |end.processes| && NamedBy(end.processes[b], key, row);
    RetriesSettleOnce(sys, moves, p, a);
  }

  // ---- bills agree in every interleaving, exactly when commits are honest --

  ghost predicate Commits(sys: System, move: Move)
  {
    && move.Commit? && move.process < |sys.processes| && sys.processes[move.process].phase.Holding?
    && CommitPayment(sys.db, sys.processes[move.process].request, sys.processes[move.process].phase.snapshot,
                     move.now).1.Done?
  }

  /** The client did not send a version newer than the one its request loaded. */
  ghost predicate Honest(sys: System, move: Move)
  {
    Commits(sys, move) ==>
      sys.processes[move.process].request.body.expected <= sys.processes[move.process].phase.snapshot.version
  }

  ghost predicate HonestRun(sys: System, moves: seq<Move>)
  {
    |moves| == 0
    || (HonestRun(sys, moves[..|moves| - 1])
        && Honest(Reach(sys, moves[..|moves| - 1]), moves[|moves| - 1]))
  }

  ghost predicate AlwaysAgrees(sys: System, moves: seq<Move>)
  {
    && BillsAgree(Reach(sys, moves).db.billing.bills, Reach(sys, moves).db.billing.payments)
    && (|moves| == 0 || AlwaysAgrees(sys, moves[..|moves| - 1]))
  }

  ghost predicate HoldFits(process: Process, bills: seq<Bill>)
  {
    process.phase.Holding? ==>
      && process.request.body.bill < |bills|
      && SnapshotOf(process.phase.snapshot, bills[process.request.body.bill])
      && AmountFits(process.request.body, process.phase.snapshot)
      && process.request.context.branch == process.phase.snapshot.branch
  }

  ghost predicate HoldsFit(processes: seq<Process>, bills: seq<Bill>)
  {
    forall p | 0 <= p < |processes| :: HoldFits(processes[p], bills)
  }

  lemma CommitKeepsHolds(sys: System, move: Move)
    requires Commits(sys, move) && Honest(sys, move)
    requires HoldsFit(sys.processes, sys.db.billing.bills)
    requires BillsAgree(sys.db.billing.bills, sys.db.billing.payments)
    ensures HoldsFit(Next(sys, move).processes, Next(sys, move).db.billing.bills)
  {
    var r := sys.processes[move.process].request;
    var snapshot := sys.processes[move.process].phase.snapshot;
    var bills, after := sys.db.billing.bills, Next(sys, move).db.billing.bills;
    assert HoldFits(sys.processes[move.process], bills);
    assert snapshot == bills[r.body.bill];
    assert BillAgrees(bills[r.body.bill], SettledOn(sys.db.billing.payments, r.body.bill));
    forall q | 0 <= q < |sys.processes| ensures HoldFits(Next(sys, move).processes[q], after) {
      assert HoldFits(sys.processes[q], bills);
      if q != move.process && sys.processes[q].phase.Holding? {
        var b := sys.processes[q].request.body.bill;
        SnapshotSurvives(sys.processes[q].phase.snapshot, bills[b], after[b]);
      }
    }
  }

  lemma OthersKeepHolds(processes: seq<Process>, before: BillTables, after: BillTables)
    requires HoldsFit(processes, before.bills) && BillsMoveOn(before, after)
    ensures HoldsFit(processes, after.bills)
  {
    forall q | 0 <= q < |processes| ensures HoldFits(processes[q], after.bills) {
      assert HoldFits(processes[q], before.bills);
      if processes[q].phase.Holding? {
        var b := processes[q].request.body.bill;
        assert after.bills[b] == before.bills[b]
               || after.bills[b] == ArchiveIfPaid(before.bills[b], before.bills[b].session);
        SnapshotSurvives(processes[q].phase.snapshot, before.bills[b], after.bills[b]);
      }
    }
  }

  lemma LoadKeepsHolds(sys: System, p: Id)
    requires HoldsFit(sys.processes, sys.db.billing.bills)
    ensures HoldsFit(Next(sys, Load(p)).processes, sys.db.billing.bills)
  {
    var after := Next(sys, Load(p));
    forall q | 0 <= q < |after.processes| ensures HoldFits(after.processes[q], sys.db.billing.bills) {
      assert HoldFits(sys.processes[q], sys.db.billing.bills);
      if q == p && after.processes[q].phase.Holding? && sys.processes[q].phase == Waiting {
        LoadedFits(sys.db, sys.processes[p].request);
      }
    }
  }

  lemma MoveKeepsHolds(sys: System, move: Move)
    requires Honest(sys, move) && HoldsFit(sys.processes, sys.db.billing.bills)
    requires BillsAgree(sys.db.billing.bills, sys.db.billing.payments)
    ensures HoldsFit(Next(sys, move).processes, Next(sys, move).db.billing.bills)
  {
    if Commits(sys, move) {
      CommitKeepsHolds(sys, move);
    } else if move.Load? {
      LoadKeepsHolds(sys, move.process);
    } else if move.Elsewhere? && !move.act.command.PayBill? {
      OthersMoveOn(sys.db, move.act);
      OthersKeepHolds(sys.processes, sys.db.billing, Next(sys, move).db.billing);
    } else {
      var after := Next(sys, move);
      assert after.db == sys.db;
      forall q | 0 <= q < |after.processes| ensures HoldFits(after.processes[q], sys.db.billing.bills) {
        if q < |sys.processes| { assert HoldFits(sys.processes[q], sys.db.billing.bills); }
      }
    }
  }

  lemma MoveAgreesIff(sys: System, move: Move)
    requires HoldsFit(sys.processes, sys.db.billing.bills)
    requires BillsAgree(sys.db.billing.bills, sys.db.billing.payments)
    ensures BillsAgree(Next(sys, move).db.billing.bills, Next(sys, move).db.billing.payments) <==> Honest(sys, move)
  {
    if Commits(sys, move) {
      assert HoldFits(sys.processes[move.process], sys.db.billing.bills);
      CommitAgreesIff(sys.db, sys.processes[move.process].request,
                      sys.processes[move.process].phase.snapshot, move.now);
    } else if move.Elsewhere? && !move.act.command.PayBill? {
      OthersKeepBills(sys.db, move.act);
    } else {
      assert Next(sys, move).db == sys.db;
    }
  }

  /**
   Over any interleaving, every bill equals its settled payments at every point, never exceeds its total, and
   has the status its amount calls for, exactly when no commit used a version newer than the one it loaded.
   */
  lemma {:induction false} BillsAgreeIffHonest(sys: System, moves: seq<Move>)
    requires Fresh(sys)
    ensures AlwaysAgrees(sys, moves) <==> HonestRun(sys, moves)
    ensures HonestRun(sys, moves) ==> HoldsFit(Reach(sys, moves).processes, Reach(sys, moves).db.billing.bills)
  {
    if |moves| > 0 {
      var n := |moves| - 1;
      BillsAgreeIffHonest(sys, moves[..n]);
      var mid := Reach(sys, moves[..n]);
      if HonestRun(sys, moves[..n]) {
        MoveAgreesIff(mid, moves[n]);
        if Honest(mid, moves[n]) {
          MoveKeepsHolds(mid, moves[n]);
        }
      }
    }
  }
}
