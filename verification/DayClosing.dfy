/** What the close of a day reports, when it goes through, and what it sweeps. */
module DayClosing {
  import opened Sums
  import opened Records
  import opened Billing
  import opened DailyClose
  import opened DoubleEntry
  import opened Guards

  // ---- totals over rows --------------------------------------------------

  lemma PositionsMore<T>(s: seq<T>, p: T -> bool)
    requires |s| > 0
    ensures var n := |s| - 1;
      Positions(s, p) == Positions(s[..n], p) + if p(s[n]) then [n] else []
  {
  }

  /** A total over selected positions is a total over the rows. */
  lemma {:induction false} PositionsTotal<T>(s: seq<T>, p: T -> bool, at: Id -> int, f: T -> int)
    requires forall k | 0 <= k < |s| :: at(k) == f(s[k])
    ensures Sum<Id>(Positions(s, p), at) == Sum(s, Where(p, f))
  {
    if |s| > 0 {
      var n := |s| - 1;
      PositionsTotal(s[..n], p, at, f);
      PositionsMore(s, p);
      SumConcat<Id>(Positions(s[..n], p), if p(s[n]) then [n] else [], at);
    }
  }

  function CountedRow(): Drawer -> int
  {
    (row: Drawer) => if row.reconciliation.Some? then row.reconciliation.value.counted else 0
  }

  function OpeningRow(): Drawer -> int { (row: Drawer) => row.openingFloat }

  /** Counted cash is what the day's reconciliations counted. */
  lemma CountedIsReconciled(db: Db, branch: Id, date: int)
    ensures DayTotals(db, branch, date).countedCash == Sum(db.custody.drawers, Where(OfDay(branch, date), CountedRow()))
  {
    var drawers := db.custody.drawers;
    PositionsTotal(drawers, OfDay(branch, date), CountedIn(db.custody), CountedRow());
  }

  /** Expected cash is the larger of two figures: what the drawers should hold, and floats plus drops received. */
  lemma ExpectedIsGreater(db: Db, branch: Id, date: int)
    requires CashAgrees(db.custody)
    ensures var expected := DayTotals(db, branch, date).expectedCash;
      var floats := Sum(db.custody.drawers, Where(OfDay(branch, date), OpeningRow()));
      var drops := Sum(db.custody.drops, ReceivedOn(branch, date));
      && expected >= SumOfSessions(db.custody, branch, date) && expected >= floats + drops
      && (expected == SumOfSessions(db.custody, branch, date) || expected == floats + drops)
  {
    var drawers := db.custody.drawers;
    PositionsTotal(drawers, OfDay(branch, date), FloatIn(db.custody), OpeningRow());
  }

  /** A drawer should hold its float, the drops received into it and its other movements. */
  lemma DrawerShouldHold(cash: Custody, drawer: Id)
    requires CashAgrees(cash) && drawer < |cash.drawers|
    ensures SessionExpected(cash, drawer)
            == cash.drawers[drawer].openingFloat + TableDrops(cash, drawer) + OtherCash(cash, drawer)
  {
    PathsAgree(cash, drawer);
  }

  /** In any state a ledger that sums to something decides, and the drop table only stands in for zero. */
  lemma LedgerComesFirst(cash: Custody, drawer: Id)
    requires drawer < |cash.drawers|
    ensures var drops := SessionExpected(cash, drawer) - cash.drawers[drawer].openingFloat - OtherCash(cash, drawer);
      && (LedgerDrops(cash, drawer) != 0 ==> drops == LedgerDrops(cash, drawer))
      && (LedgerDrops(cash, drawer) == 0 ==> drops == TableDrops(cash, drawer))
  {
  }

  lemma {:induction false} ZeroSumIff<T>(s: seq<T>, f: T -> int)
    requires forall x | x in s :: f(x) >= 0
    ensures Sum(s, f) == 0 <==> forall x | x in s :: f(x) == 0
  {
    if |s| > 0 {
      var n := |s| - 1;
      ZeroSumIff(s[..n], f);
      SumNonNegative(s[..n], f);
      assert s == s[..n] + [s[n]];
    }
  }

  /** Nothing is undropped exactly when no shift of the day holds cash. */
  lemma UndroppedIff(db: Db, branch: Id, date: int)
    ensures DayTotals(db, branch, date).undropped == 0
            <==> forall k: Id | k < |db.custody.shifts| && db.custody.shifts[k].branch == branch
                                && db.custody.shifts[k].date == date :: WaiterLine(db, branch, k, date).undropped == 0
  {
    var ours := Positions(db.custody.shifts, ShiftOf(branch, date));
    ZeroSumIff(ours, UndroppedIn(db, branch, date));
    forall k: Id | k < |db.custody.shifts| && DayShift(db.custody.shifts[k], branch, date) ensures k in ours {
      assert ShiftOf(branch, date)(db.custody.shifts[k]);
    }
    forall k: Id | k in ours ensures k < |db.custody.shifts| && DayShift(db.custody.shifts[k], branch, date) {
      var i :| 0 <= i < |ours| && ours[i] == k;
      assert ShiftOf(branch, date)(db.custody.shifts[ours[i]]);
    }
  }

  // ---- blockers by name --------------------------------------------------

  lemma {:induction false} SelectedWhere<T>(rows: seq<T>, check: (nat, T) -> Option<Code>, code: Code, k: Id)
    ensures Blocker(code, k) in Select(rows, check) <==> k < |rows| && check(k, rows[k]) == Some(code)
  {
    if |rows| > 0 {
      var n := |rows| - 1;
      SelectedWhere(rows[..n], check, code, k);
    }
  }

  lemma ListedIff(db: Db, branch: Id, date: int, b: Blocker)
    ensures b in Blockers(db, branch, date)
            <==> b in SeatBlockers(db.floor, branch, date) || b in Select(db.floor.items, TicketCheck(branch))
                 || b in Select(db.custody.drops, DropCheck(branch))
                 || b in Select(db.custody.drawers, DrawerCheck(branch, date))
                 || b in Select(db.custody.drawers, FlagCheck(branch, date))
                 || b in Select(db.custody.shifts, PouchCheck(db, branch, date))
  {
  }

  /** What each kind of blocker objects to. */
  ghost predicate Objects(db: Db, branch: Id, date: int, b: Blocker)
  {
    var k := b.entity;
    match b.code
    case OpenTableSession =>
      k < |db.floor.sessions| && db.floor.sessions[k].branch == branch && db.floor.sessions[k].kind == DineIn
      && db.floor.sessions[k].status != Closed
    case OpenRoomSession => k < |db.floor.rooms| && db.floor.rooms[k].branch == branch && db.floor.rooms[k].open
    case OpenKitchenTicket => k < |db.floor.items| && OpenTicket(db.floor.items[k], branch)
    case OpenCashDrop =>
      k < |db.custody.drops| && db.custody.drops[k].branch == branch && db.custody.drops[k].status == Initiated
    case DisputedCashDrop =>
      k < |db.custody.drops| && db.custody.drops[k].branch == branch && db.custody.drops[k].status == Disputed
    case ReconciliationMissing =>
      k < |db.custody.drawers| && db.custody.drawers[k].branch == branch && db.custody.drawers[k].date == date
      && db.custody.drawers[k].reconciliation.None?
    case ReconciliationFlagged =>
      k < |db.custody.drawers| && db.custody.drawers[k].branch == branch && db.custody.drawers[k].date == date
      && db.custody.drawers[k].reconciliation.Some? && db.custody.drawers[k].reconciliation.value.flagged
    case UndroppedWaiterCash =>
      k < |db.custody.shifts| && db.custody.shifts[k].branch == branch && db.custody.shifts[k].date == date
      && WaiterLine(db, branch, k, date).undropped > 0
  }

  lemma SeatListedIff(floor: Floor, branch: Id, date: int, code: Code, k: Id)
    ensures Blocker(code, k) in SeatBlockers(floor, branch, date)
            <==> (code == OpenTableSession && k < |floor.sessions| && SeatedSession(floor.sessions[k], branch))
                 || (code == OpenRoomSession && k < |floor.rooms| && floor.rooms[k].branch == branch
                     && floor.rooms[k].open)
  {
    SelectedWhere(floor.sessions, TodaySession(branch, date), code, k);
    SelectedWhere(floor.sessions, LeftoverSession(branch, date), code, k);
    SelectedWhere(floor.rooms, TodayRoom(branch, date), code, k);
    SelectedWhere(floor.rooms, LeftoverRoom(branch, date), code, k);
  }

  lemma TicketListedIff(items: seq<Item>, branch: Id, code: Code, k: Id)
    ensures Blocker(code, k) in Select(items, TicketCheck(branch))
            <==> code == OpenKitchenTicket && k < |items| && OpenTicket(items[k], branch)
  {
    SelectedWhere(items, TicketCheck(branch), code, k);
  }

  lemma DropListedIff(drops: seq<Drop>, branch: Id, code: Code, k: Id)
    ensures Blocker(code, k) in Select(drops, DropCheck(branch))
            <==> k < |drops| && drops[k].branch == branch
                 && ((code == OpenCashDrop && drops[k].status == Initiated)
                     || (code == DisputedCashDrop && drops[k].status == Disputed))
  {
    SelectedWhere(drops, DropCheck(branch), code, k);
  }

  lemma DrawerListedIff(drawers: seq<Drawer>, branch: Id, date: int, code: Code, k: Id)
    ensures Blocker(code, k) in Select(drawers, DrawerCheck(branch, date))
            || Blocker(code, k) in Select(drawers, FlagCheck(branch, date))
            <==> k < |drawers| && drawers[k].branch == branch && drawers[k].date == date
                 && ((code == ReconciliationMissing && drawers[k].reconciliation.None?)
                     || (code == ReconciliationFlagged && drawers[k].reconciliation.Some?
                         && drawers[k].reconciliation.value.flagged))
  {
    SelectedWhere(drawers, DrawerCheck(branch, date), code, k);
    SelectedWhere(drawers, FlagCheck(branch, date), code, k);
  }

  lemma PouchListedIff(db: Db, branch: Id, date: int, code: Code, k: Id)
    ensures Blocker(code, k) in Select(db.custody.shifts, PouchCheck(db, branch, date))
            <==> code == UndroppedWaiterCash && k < |db.custody.shifts| && db.custody.shifts[k].branch == branch
                 && db.custody.shifts[k].date == date && WaiterLine(db, branch, k, date).undropped > 0
  {
    SelectedWhere(db.custody.shifts, PouchCheck(db, branch, date), code, k);
  }

  /** The list names every row that stands in the way, by its kind, and nothing else. */
  lemma BlockersNameRows(db: Db, branch: Id, date: int, b: Blocker)
    ensures b in Blockers(db, branch, date) <==> Objects(db, branch, date, b)
  {
    ListedIff(db, branch, date, b);
    SeatListedIff(db.floor, branch, date, b.code, b.entity);
    TicketListedIff(db.floor.items, branch, b.code, b.entity);
    DropListedIff(db.custody.drops, branch, b.code, b.entity);
    DrawerListedIff(db.custody.drawers, branch, date, b.code, b.entity);
    PouchListedIff(db, branch, date, b.code, b.entity);
  }

  // ---- the four commands -------------------------------------------------

  ghost predicate ClosedAs(db: Db, after: Db, c: Context, date: int, row: Close)
  {
    && (c.branch, date) in after.closes && after.closes[(c.branch, date)] == row
    && forall key | key != (c.branch, date) :: (key in after.closes <==> key in db.closes)
                                               && (key in db.closes ==> after.closes[key] == db.closes[key])
  }

  /** A day is closed once; its close is ready for review exactly when the day is clear. */
  lemma CreatesIff(db: Db, c: Context, date: int)
    ensures var (after, outcome) := CreateClose(db, c, date);
      && (outcome.Done? <==> (c.branch, date) !in db.closes)
      && (outcome.Done? ==>
            var status := if ClearToLock(db, c.branch, date) then ReadyForReview else Draft;
            var row := Close(status, DayTotals(db, c.branch, date), 1);
            ClosedAs(db, after, c, date, row) && outcome.answer == CloseAnswer(row))
  {
    HardBlockersDecide(db, c.branch, date);
  }

  /** Until it is locked, a close can be refreshed; an approved one stays approved. */
  lemma RefreshesIff(db: Db, c: Context, date: int)
    ensures var (after, outcome) := RefreshClose(db, c, date);
      && (outcome.Done? <==> (c.branch, date) in db.closes && db.closes[(c.branch, date)].status != Locked)
      && (outcome.Done? ==>
            var prior := db.closes[(c.branch, date)];
            var status := if prior.status == Approved then Approved
                          else if ClearToLock(db, c.branch, date) then ReadyForReview else Draft;
            var row := Close(status, DayTotals(db, c.branch, date), prior.version + 1);
            ClosedAs(db, after, c, date, row) && outcome.answer == CloseAnswer(row))
  {
    HardBlockersDecide(db, c.branch, date);
  }

  /** An approval changes the status of the version that was seen, and no figure. */
  lemma ApprovesIff(db: Db, c: Context, date: int, expected: int)
    ensures var (after, outcome) := ApproveClose(db, c, date, expected);
      && (outcome.Done? <==>
            (c.branch, date) in db.closes && db.closes[(c.branch, date)].status != Locked
            && db.closes[(c.branch, date)].version == expected)
      && (outcome.Done? ==>
            var prior := db.closes[(c.branch, date)];
            var row := Close(Approved, prior.totals, prior.version + 1);
            ClosedAs(db, after, c, date, row) && outcome.answer == CloseAnswer(row))
  {
  }

  /** A close that was seen is locked exactly when the day is clear; a refused lock leaves the closes alone. */
  lemma LocksIff(db: Db, c: Context, date: int, expected: int)
    ensures var (after, outcome) := LockClose(db, c, date, expected);
      && (outcome.Done? <==>
            (c.branch, date) in db.closes && db.closes[(c.branch, date)].status != Locked
            && db.closes[(c.branch, date)].version == expected && ClearToLock(db, c.branch, date))
      && (outcome.Done? ==>
            var row := Close(Locked, DayTotals(db, c.branch, date), db.closes[(c.branch, date)].version + 1);
            ClosedAs(db, after, c, date, row) && outcome.answer == CloseAnswer(row))
      && (!outcome.Done? ==> after.closes == db.closes)
  {
    HardBlockersDecide(AbandonTickets(db, c.branch), c.branch, date);
    SweepKeepsClear(db, c.branch, date);
  }

  lemma SweepKeepsGuests(db: Db, branch: Id)
    ensures ClearOfGuests(AbandonTickets(db, branch).floor, branch) <==> ClearOfGuests(db.floor, branch)
  {
    var swept := AbandonTickets(db, branch).floor.sessions;
    forall s | 0 <= s < |db.floor.sessions|
      ensures SeatedSession(swept[s], branch) <==> SeatedSession(db.floor.sessions[s], branch)
    {
    }
    assert |swept| == |db.floor.sessions|;
  }

  /** A waiter line reads payments and drops, and nothing of the floor. */
  lemma SameLine(db: Db, after: Db, branch: Id, shift: Id, date: int)
    requires after.billing == db.billing && after.custody == db.custody
    ensures WaiterLine(after, branch, shift, date) == WaiterLine(db, branch, shift, date)
  {
  }

  lemma SameTotals(db: Db, after: Db, branch: Id, date: int)
    requires after.billing == db.billing && after.custody == db.custody
    ensures DayTotals(after, branch, date) == DayTotals(db, branch, date)
  {
    var ours := Positions(db.custody.shifts, ShiftOf(branch, date));
    forall k | k in ours ensures UndroppedIn(after, branch, date)(k) == UndroppedIn(db, branch, date)(k) {
      SameLine(db, after, branch, k, date);
    }
    SumCongruent(ours, UndroppedIn(after, branch, date), UndroppedIn(db, branch, date));
  }

  lemma SameClear(db: Db, after: Db, branch: Id, date: int)
    requires after.billing == db.billing && after.custody == db.custody
    requires ClearOfGuests(after.floor, branch) && ClearToLock(db, branch, date)
    ensures ClearToLock(after, branch, date)
  {
    forall k | 0 <= k < |db.custody.shifts| && DayShift(db.custody.shifts[k], branch, date)
      ensures WaiterLine(after, branch, k, date).undropped == 0
    {
      SameLine(db, after, branch, k, date);
    }
  }

  /** Sweeping the kitchen tickets neither clears a day nor blocks it, and changes none of its figures. */
  lemma SweepKeepsClear(db: Db, branch: Id, date: int)
    ensures ClearToLock(AbandonTickets(db, branch), branch, date) <==> ClearToLock(db, branch, date)
    ensures DayTotals(AbandonTickets(db, branch), branch, date) == DayTotals(db, branch, date)
  {
    var swept := AbandonTickets(db, branch);
    SweepKeepsGuests(db, branch);
    SameTotals(db, swept, branch, date);
    if ClearToLock(db, branch, date) { SameClear(db, swept, branch, date); }
    if ClearToLock(swept, branch, date) { SameClear(swept, db, branch, date); }
  }

  // ---- the sweep ---------------------------------------------------------

  lemma TicketIff(item: Item, branch: Id)
    ensures OpenTicket(item, branch)
            <==> item.branch == branch && !item.cancelled
                 && item.state !in {Served, Cancelled, ChangeRequested, CancellationRequested}
  {
    var state := item.state;
    match state {
      case Confirmed | Queued | Acknowledged | InPreparation | Ready | Delayed | CannotPrepare =>
      case Served | ChangeRequested | CancellationRequested | Cancelled =>
    }
  }

  /** The sweep cancels every item of the branch that is neither served, nor cancelled, nor up for a change. */
  lemma SweepCancels(db: Db, branch: Id, i: Id)
    requires i < |db.floor.items|
    ensures var item, swept := db.floor.items[i], AbandonTickets(db, branch).floor.items;
      && |swept| == |db.floor.items|
      && swept[i] == if item.branch == branch && !item.cancelled
                        && item.state !in {Served, Cancelled, ChangeRequested, CancellationRequested}
                     then item.(state := Cancelled, cancelled := true) else item
  {
    TicketIff(db.floor.items[i], branch);
  }

  /** Whether an item of the session is still to be charged after the sweep. */
  ghost predicate KeepsItem(items: seq<Item>, branch: Id, session: Id)
  {
    exists i | 0 <= i < |items| ::
      items[i].session == session && !items[i].cancelled && items[i].state != Cancelled && !OpenTicket(items[i], branch)
  }

  ghost predicate HasTicket(items: seq<Item>, branch: Id, session: Id)
  {
    exists i | 0 <= i < |items| :: items[i].session == session && OpenTicket(items[i], branch)
  }

  lemma KeepsIff(items: seq<Item>, branch: Id, session: Id)
    ensures Positions(AbandonItems(items, branch), OwedBy(session)) != [] <==> KeepsItem(items, branch, session)
  {
    var swept := AbandonItems(items, branch);
    SelectedIff(swept, OwedBy(session));
    forall i | 0 <= i < |items|
      ensures OwedBy(session)(swept[i])
              <==> items[i].session == session && !items[i].cancelled && items[i].state != Cancelled
                   && !OpenTicket(items[i], branch)
    {
    }
  }

  /** Only an active order that loses its last item to the sweep is open again; every other session stays as it was. */
  lemma SweepReopens(db: Db, branch: Id, session: Id)
    requires session < |db.floor.sessions|
    ensures var row, items := db.floor.sessions[session], db.floor.items;
      AbandonTickets(db, branch).floor.sessions[session]
      == if row.status == ActiveOrder && HasTicket(items, branch, session) && !KeepsItem(items, branch, session)
         then row.(status := Open, version := row.version + 1) else row
  {
    KeepsIff(db.floor.items, branch, session);
  }
}
