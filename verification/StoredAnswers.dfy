/** When every stored answer belongs to the request whose body is stored with it. */
module StoredAnswers {
  import opened Records
  import opened Billing
  import opened Protocol
  import opened Interleaving

  /** One committed request wrote both the body and the answer of the row. */
  ghost predicate WrittenBy(process: Process, key: IdemKey, row: IdemRow)
  {
    AnsweredBy(process, key, row) && NamedBy(process, key, row)
  }

  ghost predicate Whole(processes: seq<Process>, key: IdemKey, row: IdemRow)
  {
    exists p | 0 <= p < |processes| :: WrittenBy(processes[p], key, row)
  }

  ghost predicate RowsWhole(processes: seq<Process>, rows: map<IdemKey, IdemRow>)
  {
    forall key | key in rows :: Whole(processes, key, rows[key])
  }

  ghost predicate AlwaysWhole(sys: System, moves: seq<Move>)
  {
    && RowsWhole(Reach(sys, moves).processes, Reach(sys, moves).db.idempotency)
    && (|moves| == 0 || AlwaysWhole(sys, moves[..|moves| - 1]))
  }

  /** A commit finds its key unused, or used with its own body. */
  ghost predicate OwnKey(sys: System, move: Move)
  {
    Commits(sys, move) && KeyOf(sys.processes[move.process].request) in sys.db.idempotency ==>
      sys.db.idempotency[KeyOf(sys.processes[move.process].request)].body == sys.processes[move.process].request.body
  }

  ghost predicate OwnKeysRun(sys: System, moves: seq<Move>)
  {
    |moves| == 0
    || (OwnKeysRun(sys, moves[..|moves| - 1]) && OwnKey(Reach(sys, moves[..|moves| - 1]), moves[|moves| - 1]))
  }

  // ---- answers are distinct ----------------------------------------------

  /** A committed answer names the payment its request wrote, and no payment yet to come. */
  ghost predicate AnswerFits(process: Process, payments: nat)
  {
    process.phase.Committed? ==> process.phase.answer.payment == process.phase.payment < payments
  }

  ghost predicate AnswersFit(processes: seq<Process>, payments: nat)
  {
    forall p | 0 <= p < |processes| :: AnswerFits(processes[p], payments)
  }

  lemma MoveKeepsAnswers(sys: System, move: Move)
    requires AnswersFit(sys.processes, |sys.db.billing.payments|)
    ensures AnswersFit(Next(sys, move).processes, |Next(sys, move).db.billing.payments|)
  {
    var after := Next(sys, move);
    if move.Elsewhere? && !move.act.command.PayBill? { OthersMoveOn(sys.db, move.act); }
    forall p | 0 <= p < |after.processes| ensures AnswerFits(after.processes[p], |after.db.billing.payments|) {
      if p < |sys.processes| { assert AnswerFits(sys.processes[p], |sys.db.billing.payments|); }
    }
  }

  // ---- one commit --------------------------------------------------------

  lemma OthersKeepWhole(before: seq<Process>, after: seq<Process>, key: IdemKey, row: IdemRow)
    requires Whole(before, key, row) && |before| <= |after|
    requires forall p | 0 <= p < |before| && before[p].phase.Committed? :: after[p] == before[p]
    ensures Whole(after, key, row)
  {
    var p :| 0 <= p < |before| && WrittenBy(before[p], key, row);
    assert WrittenBy(after[p], key, row);
  }

  /** What a commit stores under its key, and where the request went. */
  lemma CommitStores(sys: System, move: Move)
    requires Commits(sys, move)
    ensures var r := sys.processes[move.process].request;
      var committed := Next(sys, move).processes[move.process];
      && committed.request == r && committed.phase.Committed?
      && committed.phase.payment == committed.phase.answer.payment == |sys.db.billing.payments|
      && Next(sys, move).db.idempotency == StoreAnswer(sys.db.idempotency, KeyOf(r), r.body, committed.phase.answer)
  {
  }

  lemma CommitWholeIff(sys: System, move: Move)
    requires RowsWhole(sys.processes, sys.db.idempotency) && Commits(sys, move)
    requires AnswersFit(sys.processes, |sys.db.billing.payments|)
    ensures RowsWhole(Next(sys, move).processes, Next(sys, move).db.idempotency) <==> OwnKey(sys, move)
  {
    CommitStores(sys, move);
    var after := Next(sys, move);
    var committed := after.processes[move.process];
    var key, rows := KeyOf(committed.request), after.db.idempotency;
    if OwnKey(sys, move) {
      assert WrittenBy(committed, key, rows[key]);
      forall k | k in rows ensures Whole(after.processes, k, rows[k]) {
        if k != key { OthersKeepWhole(sys.processes, after.processes, k, rows[k]); }
      }
    } else {
      forall p | 0 <= p < |after.processes| ensures !WrittenBy(after.processes[p], key, rows[key]) {
        if p != move.process { assert AnswerFits(sys.processes[p], |sys.db.billing.payments|); }
      }
      assert !Whole(after.processes, key, rows[key]);
    }
  }

  lemma MoveWholeIff(sys: System, move: Move)
    requires RowsWhole(sys.processes, sys.db.idempotency)
    requires AnswersFit(sys.processes, |sys.db.billing.payments|)
    ensures RowsWhole(Next(sys, move).processes, Next(sys, move).db.idempotency) <==> OwnKey(sys, move)
  {
    if Commits(sys, move) {
      CommitWholeIff(sys, move);
    } else {
      var after := Next(sys, move);
      if move.Elsewhere? && !move.act.command.PayBill? { ElsewhereSparesRows(sys.db, move.act); }
      assert after.db.idempotency == sys.db.idempotency;
      forall k | k in after.db.idempotency ensures Whole(after.processes, k, after.db.idempotency[k]) {
        OthersKeepWhole(sys.processes, after.processes, k, sys.db.idempotency[k]);
      }
    }
  }

  /**
   Over any interleaving every stored row is at every point one committed request's body with that request's own
   answer, exactly when no commit used a key whose row held another body.
   */
  lemma {:induction false} AlwaysWholeIff(sys: System, moves: seq<Move>)
    requires Fresh(sys)
    ensures AlwaysWhole(sys, moves) <==> OwnKeysRun(sys, moves)
    ensures AnswersFit(Reach(sys, moves).processes, |Reach(sys, moves).db.billing.payments|)
  {
    if |moves| > 0 {
      var n := |moves| - 1;
      AlwaysWholeIff(sys, moves[..n]);
      MoveKeepsAnswers(Reach(sys, moves[..n]), moves[n]);
      if OwnKeysRun(sys, moves[..n]) {
        MoveWholeIff(Reach(sys, moves[..n]), moves[n]);
      }
    }
  }

  // ---- what the clients can do -------------------------------------------

  /** Whoever sends a key twice sends it with one body. */
  ghost predicate OneBodyPerKey(moves: seq<Move>)
  {
    forall i, j | 0 <= i < |moves| && 0 <= j < |moves| && moves[i].Arrive? && moves[j].Arrive?
                  && KeyOf(moves[i].request) == KeyOf(moves[j].request) ::
      moves[i].request.body == moves[j].request.body
  }

  ghost predicate Arrived(moves: seq<Move>, request: PayRequest)
  {
    exists i | 0 <= i < |moves| :: moves[i] == Arrive(request)
  }

  lemma ArrivedLater(moves: seq<Move>, request: PayRequest)
    requires |moves| > 0 && Arrived(moves[..|moves| - 1], request)
    ensures Arrived(moves, request)
  {
    var i :| 0 <= i < |moves| - 1 && moves[..|moves| - 1][i] == Arrive(request);
    assert moves[i] == Arrive(request);
  }

  lemma {:induction false} RequestsArrived(sys: System, moves: seq<Move>, p: Id)
    requires Fresh(sys) && p < |Reach(sys, moves).processes|
    ensures Arrived(moves, Reach(sys, moves).processes[p].request)
  {
    if |moves| > 0 {
      var n := |moves| - 1;
      var mid := Reach(sys, moves[..n]);
      if p < |mid.processes| {
        RequestsArrived(sys, moves[..n], p);
        ArrivedLater(moves, mid.processes[p].request);
      } else {
        assert moves[n] == Arrive(Reach(sys, moves).processes[p].request);
      }
    }
  }

  lemma OneBodyUsesOwnKeys(sys: System, moves: seq<Move>, move: Move)
    requires Fresh(sys) && OneBodyPerKey(moves)
    ensures OwnKey(Reach(sys, moves), move)
  {
    var mid := Reach(sys, moves);
    if Commits(mid, move) && KeyOf(mid.processes[move.process].request) in mid.db.idempotency {
      var r := mid.processes[move.process].request;
      var row := mid.db.idempotency[KeyOf(r)];
      RowsAlwaysTraced(sys, moves);
      assert RowTraced(mid.processes, KeyOf(r), row);
      var q :| 0 <= q < |mid.processes| && NamedBy(mid.processes[q], KeyOf(r), row);
      RequestsArrived(sys, moves, move.process);
      RequestsArrived(sys, moves, q);
      var i :| 0 <= i < |moves| && moves[i] == Arrive(r);
      var j :| 0 <= j < |moves| && moves[j] == Arrive(mid.processes[q].request);
    }
  }

  /** Clients that never send one key with two bodies never see an answer of another request. */
  lemma {:induction false} OneBodyKeepsWhole(sys: System, moves: seq<Move>)
    requires Fresh(sys) && OneBodyPerKey(moves)
    ensures OwnKeysRun(sys, moves) && AlwaysWhole(sys, moves)
  {
    if |moves| > 0 {
      var n := |moves| - 1;
      assert forall i | 0 <= i < n :: moves[..n][i] == moves[i];
      OneBodyKeepsWhole(sys, moves[..n]);
      OneBodyUsesOwnKeys(sys, moves[..n], moves[n]);
    }
    AlwaysWholeIff(sys, moves);
  }
}
