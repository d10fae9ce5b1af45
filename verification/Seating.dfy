/** What tables, sessions, bill requests, bills and bill lines keep across every seating command. */
module Seating {
  import opened Sums
  import opened Records
  import opened Billing
  import opened FloorPlan
  import opened DailyClose

  // ---- the invariant -----------------------------------------------------

  ghost predicate SessionFits(row: Session, tables: seq<Table>)
  {
    && row.table < |tables|
    && (row.status == Closed ==> row.closedAt.Some?)
    && (row.closedAt.None? && row.kind != Counter ==> tables[row.table].status == Occupied)
  }

  /** A table has at most one session that is not closed, and one that seats guests occupies it. */
  ghost predicate TablesAgree(sessions: seq<Session>, tables: seq<Table>)
  {
    && (forall s | 0 <= s < |sessions| :: SessionFits(sessions[s], tables))
    && (forall s, t | 0 <= s < t < |sessions| && sessions[s].closedAt.None? && sessions[t].closedAt.None? ::
          sessions[s].table != sessions[t].table)
  }

  /** A session has at most one pending request, and none once it has a bill. */
  ghost predicate RequestsAgree(requests: seq<BillRequest>, sessions: nat, bills: seq<Bill>)
  {
    && (forall r | 0 <= r < |requests| :: requests[r].session < sessions)
    && (forall q, r | 0 <= q < r < |requests| && requests[q].status == Pending && requests[r].status == Pending ::
          requests[q].session != requests[r].session)
    && (forall r | 0 <= r < |requests| && requests[r].status == Pending :: !HasBill(bills, requests[r].session))
  }

  ghost predicate OneBillEach(bills: seq<Bill>, sessions: nat)
  {
    && (forall b | 0 <= b < |bills| :: bills[b].session < sessions)
    && (forall a, b | 0 <= a < b < |bills| :: bills[a].session != bills[b].session)
  }

  ghost predicate Settled(bills: seq<Bill>, session: Id)
  {
    exists b | 0 <= b < |bills| :: bills[b].session == session && bills[b].status in {FullyPaid, Archived}
  }

  /** A session in status PAID has a fully paid bill. */
  ghost predicate PaidAgree(sessions: seq<Session>, bills: seq<Bill>)
  {
    forall s | 0 <= s < |sessions| && sessions[s].status == Paid :: Settled(bills, s)
  }

  ghost predicate LineFits(line: BillLine, bills: seq<Bill>, items: seq<Item>)
  {
    && line.bill < |bills| && line.item < |items|
    && items[line.item].session == bills[line.bill].session
  }

  /** Each order item is on at most one bill line, and a bill's total is the sum of its line totals. */
  ghost predicate LinesAgree(bills: seq<Bill>, lines: seq<BillLine>, items: seq<Item>)
  {
    && (forall i | 0 <= i < |lines| :: LineFits(lines[i], bills, items))
    && (forall i, j | 0 <= i < j < |lines| :: lines[i].item != lines[j].item)
    && (forall b | 0 <= b < |bills| :: bills[b].total == Sum(lines, LineOf(b)))
  }

  ghost predicate SeatingAgrees(floor: Floor, billing: BillTables)
  {
    && TablesAgree(floor.sessions, floor.tables)
    && RequestsAgree(floor.requests, |floor.sessions|, billing.bills)
    && OneBillEach(billing.bills, |floor.sessions|)
    && PaidAgree(floor.sessions, billing.bills)
    && LinesAgree(billing.bills, billing.lines, floor.items)
  }

  // ---- one session restated ----------------------------------------------

  lemma RestateKeeps(sessions: seq<Session>, tables: seq<Table>, bills: seq<Bill>, s: Id, status: SessionStatus)
    requires TablesAgree(sessions, tables) && PaidAgree(sessions, bills) && s < |sessions|
    requires status != Closed && (status == Paid ==> Settled(bills, s))
    ensures TablesAgree(sessions[s := Restated(sessions[s], status)], tables)
    ensures PaidAgree(sessions[s := Restated(sessions[s], status)], bills)
  {
  }

  lemma CloseKeepsTables(sessions: seq<Session>, tables: seq<Table>, s: Id, now: int, freed: TableStatus)
    requires TablesAgree(sessions, tables) && s < |sessions|
    requires sessions[s].closedAt.None? || freed == tables[sessions[s].table].status
    ensures var row := sessions[s];
      TablesAgree(sessions[s := Restated(row, Closed).(closedAt := Some(now))],
                  tables[row.table := tables[row.table].(status := freed)])
  {
  }

  // ---- request, cancel ---------------------------------------------------

  lemma RequestKeeps(db: Db, c: Context, session: Id, expected: int)
    requires SeatingAgrees(db.floor, db.billing)
    ensures var after := RequestBill(db, c, session, expected).0;
      SeatingAgrees(after.floor, after.billing)
  {
    if RequestBill(db, c, session, expected).1.Done? {
      RestateKeeps(db.floor.sessions, db.floor.tables, db.billing.bills, session, BillRequested);
    }
  }

  lemma CancelKeeps(db: Db, c: Context, request: Id)
    requires SeatingAgrees(db.floor, db.billing)
    ensures var after := CancelRequest(db, c, request).0;
      SeatingAgrees(after.floor, after.billing)
  {
    if CancelRequest(db, c, request).1.Done? {
      var row := db.floor.requests[request];
      var status := if HasItems(db.floor.items, row.session) then ActiveOrder else Open;
      RestateKeeps(db.floor.sessions, db.floor.tables, db.billing.bills, row.session, status);
    }
  }

  /** Withdrawing a request never touches a billed session. */
  lemma CancelSparesBilled(db: Db, c: Context, request: Id, session: Id)
    requires SeatingAgrees(db.floor, db.billing)
    requires session < |db.floor.sessions| && HasBill(db.billing.bills, session)
    ensures CancelRequest(db, c, request).0.floor.sessions[session] == db.floor.sessions[session]
  {
  }

  /** A withdrawn request leaves its session in ACTIVE_ORDER exactly when something was ever ordered there. */
  lemma WithdrawRestates(db: Db, c: Context, request: Id)
    requires CancelRequest(db, c, request).1.Done?
    ensures var session, after := db.floor.requests[request].session, CancelRequest(db, c, request).0.floor;
      var status := after.sessions[session].status;
      && (status == ActiveOrder <==> exists i | 0 <= i < |db.floor.items| :: db.floor.items[i].session == session)
      && (status == Open <==> forall i | 0 <= i < |db.floor.items| :: db.floor.items[i].session != session)
      && after.requests[request].status == Withdrawn
  {
  }

  /** Asking for a bill and withdrawing the request leaves an active order, a withdrawn request and nothing else. */
  lemma AskThenWithdraw(db: Db, c: Context, session: Id, expected: int)
    requires RequestBill(db, c, session, expected).1.Done?
    ensures var asked := RequestBill(db, c, session, expected).0;
      var request, row := |db.floor.requests|, db.floor.sessions[session];
      var withdrawn := CancelRequest(asked, c, request);
      && asked.floor.sessions[session].status == BillRequested && HasPending(asked.floor.requests, session)
      && withdrawn.1.Done?
      && withdrawn.0 == db.(floor := db.floor.(
           sessions := db.floor.sessions[session := row.(status := ActiveOrder, version := row.version + 2)],
           requests := db.floor.requests + [BillRequest(c.branch, row.date, session, Withdrawn)]))
  {
    var asked := RequestBill(db, c, session, expected).0;
    assert OwedBy(session)(db.floor.items[Positions(db.floor.items, OwedBy(session))[0]]);
    assert asked.floor.requests[|db.floor.requests|].status == Pending;
    assert db.floor.requests + [BillRequest(c.branch, db.floor.sessions[session].date, session, Withdrawn)]
           == asked.floor.requests[|db.floor.requests| := asked.floor.requests[|db.floor.requests|].(status := Withdrawn)];
  }

  // ---- new bills ---------------------------------------------------------

  lemma {:induction false} NewLinesSum(lines: seq<BillLine>, bill: Id)
    requires forall line | line in lines :: line.bill == bill
    ensures Sum(lines, LineOf(bill)) == Sum(lines, LineAmount())
    ensures forall b | b != bill :: Sum(lines, LineOf(b)) == 0
  {
    SumCongruent(lines, LineOf(bill), LineAmount());
    forall b | b != bill ensures Sum(lines, LineOf(b)) == 0 {
      SumZero(lines, LineOf(b));
    }
  }

  lemma NewLinesTotals(bills: seq<Bill>, lines: seq<BillLine>, added: seq<BillLine>, row: Bill)
    requires forall b | 0 <= b < |bills| :: bills[b].total == Sum(lines, LineOf(b))
    requires forall line | line in lines :: line.bill < |bills|
    requires forall line | line in added :: line.bill == |bills|
    requires row.total == Sum(added, LineAmount())
    ensures forall b | 0 <= b <= |bills| :: (bills + [row])[b].total == Sum(lines + added, LineOf(b))
  {
    NewLinesSum(added, |bills|);
    forall b | 0 <= b <= |bills| ensures (bills + [row])[b].total == Sum(lines + added, LineOf(b)) {
      SumConcat(lines, added, LineOf(b));
      if b == |bills| {
        SumZero(lines, LineOf(b));
      }
    }
  }

  /** The items of a session without a bill are on no line yet. */
  lemma UnbilledItemsUnlined(bills: seq<Bill>, lines: seq<BillLine>, items: seq<Item>, session: Id, i: Id, item: Id)
    requires LinesAgree(bills, lines, items) && i < |lines|
    requires forall b | 0 <= b < |bills| :: bills[b].session != session
    requires item < |items| && items[item].session == session
    ensures lines[i].item != item
  {
    assert LineFits(lines[i], bills, items);
  }

  lemma NewLinesFit(bills: seq<Bill>, lines: seq<BillLine>, items: seq<Item>, charged: seq<Id>, row: Bill)
    requires LinesAgree(bills, lines, items)
    requires forall k | 0 <= k < |charged| :: charged[k] < |items| && items[charged[k]].session == row.session
    ensures var all := lines + LinesFor(items, charged, |bills|);
      forall i | 0 <= i < |all| :: LineFits(all[i], bills + [row], items)
    ensures forall line | line in lines :: line.bill < |bills|
  {
    var all := lines + LinesFor(items, charged, |bills|);
    forall i | 0 <= i < |all| ensures LineFits(all[i], bills + [row], items) {
      if i < |lines| { assert LineFits(lines[i], bills, items); }
    }
    forall line | line in lines ensures line.bill < |bills| {
      var i :| 0 <= i < |lines| && lines[i] == line;
      assert LineFits(lines[i], bills, items);
    }
  }

  lemma NewLinesDistinct(bills: seq<Bill>, lines: seq<BillLine>, items: seq<Item>, charged: seq<Id>, row: Bill)
    requires LinesAgree(bills, lines, items)
    requires forall b | 0 <= b < |bills| :: bills[b].session != row.session
    requires forall k | 0 <= k < |charged| :: charged[k] < |items| && items[charged[k]].session == row.session
    requires Distinct(charged)
    ensures var all := lines + LinesFor(items, charged, |bills|);
      forall i, j | 0 <= i < j < |all| :: all[i].item != all[j].item
  {
    var all := lines + LinesFor(items, charged, |bills|);
    forall i, j | 0 <= i < j < |all| ensures all[i].item != all[j].item {
      if j < |lines| {
      } else if i < |lines| {
        UnbilledItemsUnlined(bills, lines, items, row.session, i, all[j].item);
      } else {
        assert charged[i - |lines|] != charged[j - |lines|];
      }
    }
  }

  lemma NewBillLines(bills: seq<Bill>, lines: seq<BillLine>, items: seq<Item>, charged: seq<Id>, row: Bill)
    requires LinesAgree(bills, lines, items)
    requires forall b | 0 <= b < |bills| :: bills[b].session != row.session
    requires forall k | 0 <= k < |charged| :: charged[k] < |items| && items[charged[k]].session == row.session
    requires Distinct(charged)
    requires row.total == Sum(LinesFor(items, charged, |bills|), LineAmount())
    ensures LinesAgree(bills + [row], lines + LinesFor(items, charged, |bills|), items)
  {
    NewLinesFit(bills, lines, items, charged, row);
    NewLinesDistinct(bills, lines, items, charged, row);
    NewLinesTotals(bills, lines, LinesFor(items, charged, |bills|), row);
  }

  lemma GenerateKeeps(db: Db, c: Context, request: Id, expected: int)
    requires SeatingAgrees(db.floor, db.billing)
    ensures var after := GenerateBill(db, c, request, expected).0;
      SeatingAgrees(after.floor, after.billing)
  {
    if GenerateBill(db, c, request, expected).1.Done? {
      var bills := db.billing.bills;
      var session := db.floor.requests[request].session;
      var charged := Positions(db.floor.items, OwedBy(session));
      var row := GenerateBill(db, c, request, expected).1.answer.billRow;
      RestateKeeps(db.floor.sessions, db.floor.tables, bills, session, BillReady);
      NewBillLines(bills, db.billing.lines, db.floor.items, charged, row);
      GenerateKeepsRequests(db, request, row);
      MoreBillsStillSettled(db.floor.sessions[session := Restated(db.floor.sessions[session], BillReady)], bills, row);
    }
  }

  lemma GenerateKeepsRequests(db: Db, request: Id, row: Bill)
    requires RequestsAgree(db.floor.requests, |db.floor.sessions|, db.billing.bills)
    requires request < |db.floor.requests| && db.floor.requests[request].status == Pending
    requires row.session == db.floor.requests[request].session
    ensures RequestsAgree(db.floor.requests[request := db.floor.requests[request].(status := Fulfilled)],
                          |db.floor.sessions|, db.billing.bills + [row])
  {
    var requests := db.floor.requests[request := db.floor.requests[request].(status := Fulfilled)];
    forall r | 0 <= r < |requests| && requests[r].status == Pending
      ensures !HasBill(db.billing.bills + [row], requests[r].session)
    {
      assert !HasBill(db.billing.bills, db.floor.requests[r].session);
    }
  }

  lemma MoreBillsStillSettled(sessions: seq<Session>, bills: seq<Bill>, row: Bill)
    requires PaidAgree(sessions, bills)
    ensures PaidAgree(sessions, bills + [row])
  {
    forall s | 0 <= s < |sessions| && sessions[s].status == Paid ensures Settled(bills + [row], s) {
      assert Settled(bills, s);
      var b :| 0 <= b < |bills| && bills[b].session == s && bills[b].status in {FullyPaid, Archived};
      assert (bills + [row])[b] == bills[b];
    }
  }

  // ---- counter sale ------------------------------------------------------

  lemma LeftoversKeep(sessions: seq<Session>, tables: seq<Table>, bills: seq<Bill>, table: Id, now: int, row: Session)
    requires TablesAgree(sessions, tables) && PaidAgree(sessions, bills)
    requires table < |tables| && row.table == table && row.kind == Counter && row.status == Open
    ensures TablesAgree(CloseLeftovers(sessions, table, now) + [row], tables)
    ensures PaidAgree(CloseLeftovers(sessions, table, now) + [row], bills)
  {
    var after := CloseLeftovers(sessions, table, now) + [row];
    forall s | 0 <= s < |after| ensures SessionFits(after[s], tables) {
      if s < |sessions| { assert SessionFits(sessions[s], tables); }
    }
  }

  lemma MoreItemsKeepLines(bills: seq<Bill>, lines: seq<BillLine>, items: seq<Item>, more: seq<Item>)
    requires LinesAgree(bills, lines, items)
    ensures LinesAgree(bills, lines, items + more)
  {
    assert forall i | 0 <= i < |lines| :: LineFits(lines[i], bills, items);
  }

  /** The lines of a counter sale join the lines already there. */
  lemma SaleLinesAgree(db: Db, c: Context, now: int, today: int, table: Id, sale: seq<SaleLine>)
    requires OneBillEach(db.billing.bills, |db.floor.sessions|)
    requires LinesAgree(db.billing.bills, db.billing.lines, db.floor.items)
    requires CounterSale(db, c, now, today, table, sale).1.Done?
    ensures var after := CounterSale(db, c, now, today, table, sale).0;
      LinesAgree(after.billing.bills, after.billing.lines, after.floor.items)
  {
    var bills := db.billing.bills;
    var sold := SaleItems(c.branch, |db.floor.sessions|, sale);
    var row := CounterSale(db, c, now, today, table, sale).1.answer.billRow;
    MoreItemsKeepLines(bills, db.billing.lines, db.floor.items, sold);
    NewBillLines(bills, db.billing.lines, db.floor.items + sold, Upto(|db.floor.items|, |sold|), row);
  }

  lemma CounterSaleKeeps(db: Db, c: Context, now: int, today: int, table: Id, sale: seq<SaleLine>)
    requires SeatingAgrees(db.floor, db.billing)
    ensures var after := CounterSale(db, c, now, today, table, sale).0;
      SeatingAgrees(after.floor, after.billing)
  {
    if CounterSale(db, c, now, today, table, sale).1.Done? {
      var bills := db.billing.bills;
      var session := Session(c.branch, table, today, Counter, Open, None, 1);
      var row := CounterSale(db, c, now, today, table, sale).1.answer.billRow;
      LeftoversKeep(db.floor.sessions, db.floor.tables, bills, table, now, session);
      SaleLinesAgree(db, c, now, today, table, sale);
      MoreBillsStillSettled(CloseLeftovers(db.floor.sessions, table, now) + [session], bills, row);
      SaleKeepsRequests(db.floor.requests, |db.floor.sessions|, bills, row);
    }
  }

  lemma SaleKeepsRequests(requests: seq<BillRequest>, sessions: nat, bills: seq<Bill>, row: Bill)
    requires RequestsAgree(requests, sessions, bills) && row.session == sessions
    ensures RequestsAgree(requests, sessions + 1, bills + [row])
  {
    forall r | 0 <= r < |requests| && requests[r].status == Pending
      ensures !HasBill(bills + [row], requests[r].session)
    {
      assert !HasBill(bills, requests[r].session);
    }
  }

  // ---- payments ----------------------------------------------------------

  ghost predicate SameSeat(a: Bill, b: Bill) { a.session == b.session && a.total == b.total }

  /** Bills that keep their session and total, and are never un-settled, keep what refers to them. */
  lemma BillsRestatedKeep(floor: Floor, bills: seq<Bill>, after: seq<Bill>, lines: seq<BillLine>)
    requires RequestsAgree(floor.requests, |floor.sessions|, bills)
    requires OneBillEach(bills, |floor.sessions|) && PaidAgree(floor.sessions, bills)
    requires LinesAgree(bills, lines, floor.items)
    requires |after| == |bills|
    requires forall b | 0 <= b < |bills| :: SameSeat(after[b], bills[b])
    requires forall b | 0 <= b < |bills| && bills[b].status in {FullyPaid, Archived} ::
      after[b].status in {FullyPaid, Archived}
    ensures RequestsAgree(floor.requests, |floor.sessions|, after)
    ensures OneBillEach(after, |floor.sessions|) && PaidAgree(floor.sessions, after)
    ensures LinesAgree(after, lines, floor.items)
  {
    forall s | 0 <= s < |floor.sessions| && floor.sessions[s].status == Paid ensures Settled(after, s) {
      assert Settled(bills, s);
      var b :| 0 <= b < |bills| && bills[b].session == s && bills[b].status in {FullyPaid, Archived};
      assert SameSeat(after[b], bills[b]);
    }
    forall r | 0 <= r < |floor.requests| && floor.requests[r].status == Pending
      ensures !HasBill(after, floor.requests[r].session)
    {
      assert !HasBill(bills, floor.requests[r].session);
      assert forall b | 0 <= b < |bills| :: SameSeat(after[b], bills[b]);
    }
    forall a, b | 0 <= a < b < |bills| ensures after[a].session != after[b].session {
      assert SameSeat(after[a], bills[a]) && SameSeat(after[b], bills[b]);
    }
    forall b | 0 <= b < |bills|
      ensures after[b].session < |floor.sessions| && after[b].total == Sum(lines, LineOf(b))
    {
      assert SameSeat(after[b], bills[b]);
    }
    forall i | 0 <= i < |lines| ensures LineFits(lines[i], after, floor.items) {
      assert LineFits(lines[i], bills, floor.items);
      assert SameSeat(after[lines[i].bill], bills[lines[i].bill]);
    }
  }

  lemma SeatingPaidKeeps(sessions: seq<Session>, tables: seq<Table>, bills: seq<Bill>, s: Id,
                         byCash: bool, now: int)
    requires TablesAgree(sessions, tables) && PaidAgree(sessions, bills) && s < |sessions|
    requires Settled(bills, s)
    ensures TablesAgree(sessions[s := SeatingAfter(sessions[s], true, byCash, now)], tables)
    ensures PaidAgree(sessions[s := SeatingAfter(sessions[s], true, byCash, now)], bills)
  {
    assert SessionFits(sessions[s], tables);
    if byCash && sessions[s].kind == Counter {
      CloseKeepsTables(sessions, tables, s, now, tables[sessions[s].table].status);
      assert tables[sessions[s].table := tables[sessions[s].table].(status := tables[sessions[s].table].status)]
             == tables;
    } else {
      RestateKeeps(sessions, tables, bills, s, Paid);
    }
  }

  lemma CommitKeepsSeating(db: Db, r: PayRequest, snapshot: Bill, now: int)
    requires SeatingAgrees(db.floor, db.billing)
    requires r.body.bill < |db.billing.bills|
    requires snapshot.session == db.billing.bills[r.body.bill].session
    ensures var after := CommitPayment(db, r, snapshot, now).0;
      SeatingAgrees(after.floor, after.billing)
  {
    if CommitPayment(db, r, snapshot, now).1.Done? {
      var bills := db.billing.bills;
      var after := CommitPayment(db, r, snapshot, now).0;
      assert after.billing.bills == bills[r.body.bill := after.billing.bills[r.body.bill]];
      BillsRestatedKeep(db.floor, bills, after.billing.bills, db.billing.lines);
      if SettlesInFull(snapshot, r.body.amount) {
        assert after.billing.bills[r.body.bill].status == FullyPaid;
        SeatingPaidKeeps(db.floor.sessions, db.floor.tables, after.billing.bills, snapshot.session,
                         r.body.CashPayment?, now);
      } else {
        assert after.floor.sessions == db.floor.sessions;
      }
    }
  }

  // ---- starting and closing ----------------------------------------------

  lemma StartKeeps(db: Db, c: Context, today: int, table: Id, asCallPickup: bool)
    requires SeatingAgrees(db.floor, db.billing)
    ensures var after := StartSession(db, c, today, table, asCallPickup).0;
      SeatingAgrees(after.floor, after.billing)
  {
    if StartSession(db, c, today, table, asCallPickup).1.Done? {
      var after := StartSession(db, c, today, table, asCallPickup).0;
      forall s | 0 <= s < |after.floor.sessions| ensures SessionFits(after.floor.sessions[s], after.floor.tables) {
        if s < |db.floor.sessions| { assert SessionFits(db.floor.sessions[s], db.floor.tables); }
      }
    }
  }

  lemma SessionClosedKeeps(db: Db, session: Id, now: int, archive: bool)
    requires SeatingAgrees(db.floor, db.billing)
    requires session < |db.floor.sessions| && db.floor.sessions[session].table < |db.floor.tables|
    requires IsOpen(db.floor.sessions[session])
    ensures var after := SessionClosed(db, session, now, archive);
      SeatingAgrees(after.floor, after.billing)
  {
    var after := SessionClosed(db, session, now, archive);
    CloseKeepsTables(db.floor.sessions, db.floor.tables, session, now, Available);
    if archive {
      BillsRestatedKeep(db.floor, db.billing.bills, after.billing.bills, db.billing.lines);
    }
  }

  lemma CloseSessionKeeps(db: Db, c: Context, now: int, session: Id, expected: int)
    requires SeatingAgrees(db.floor, db.billing)
    ensures var after := CloseSession(db, c, now, session, expected).0;
      SeatingAgrees(after.floor, after.billing)
    ensures var after := ForceClose(db, c, now, session, expected).0;
      SeatingAgrees(after.floor, after.billing)
  {
    if session < |db.floor.sessions| && db.floor.sessions[session].table < |db.floor.tables|
       && IsOpen(db.floor.sessions[session]) {
      var row := db.floor.sessions[session];
      SessionClosedKeeps(db, session, now, row.status == Paid);
      SessionClosedKeeps(db, session, now, row.status == Paid || HasSettledBill(db.billing.bills, session));
    }
  }

  // ---- abandoned tickets -------------------------------------------------

  lemma AbandonKeeps(db: Db, branch: Id)
    requires SeatingAgrees(db.floor, db.billing)
    ensures var after := AbandonTickets(db, branch);
      SeatingAgrees(after.floor, after.billing)
  {
    var after := AbandonTickets(db, branch);
    var items := db.floor.items;
    forall s | 0 <= s < |after.floor.sessions| ensures SessionFits(after.floor.sessions[s], after.floor.tables) {
      assert SessionFits(db.floor.sessions[s], db.floor.tables);
    }
    ItemsRestatedKeepLines(db.billing.bills, db.billing.lines, items, after.floor.items);
  }

  lemma ItemsRestatedKeepLines(bills: seq<Bill>, lines: seq<BillLine>, items: seq<Item>, after: seq<Item>)
    requires LinesAgree(bills, lines, items)
    requires |after| == |items|
    requires forall i | 0 <= i < |items| :: after[i].session == items[i].session
    ensures LinesAgree(bills, lines, after)
  {
    forall i | 0 <= i < |lines| ensures LineFits(lines[i], bills, after) {
      assert LineFits(lines[i], bills, items);
      assert after[lines[i].item].session == items[lines[i].item].session;
    }
  }
}
