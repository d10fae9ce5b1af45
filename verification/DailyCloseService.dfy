/** The daily-close service: the day's snapshot, the commands on a close, and the sweep before a lock. */
module DailyCloseServices {
  import opened Sums
  import opened Records
  import opened Billing
  import opened CashCustody
  import opened DailyClose
  import opened Stores

  class DailyCloseService {
    const db: Store

    constructor (db: Store)
      ensures this.db == db
    {
      this.db := db;
    }

    method BusinessDayLocked(branch: Id, date: int) returns (locked: bool)
      ensures locked <==> DayLocked(db.closes, branch, date)
    {
      locked := false;
      if (branch, date) in db.closes {
        locked := db.closes[(branch, date)].status == Locked;
      }
    }

    // ---- the snapshot ----------------------------------------------------

    /** One pass over a table, pushing a blocker for every row objected to. */
    method PushBlockers<T>(blockers: seq<Blocker>, rows: seq<T>, check: (nat, T) -> Option<Code>)
      returns (pushed: seq<Blocker>)
      ensures pushed == blockers + Select(rows, check)
    {
      pushed := blockers;
      for i := 0 to |rows|
        invariant pushed == blockers + Select(rows[..i], check)
      {
        assert rows[..i + 1][..i] == rows[..i];
        var found := check(i, rows[i]);
        if found.Some? {
          pushed := pushed + [Blocker(found.value, i)];
        }
      }
      assert rows[..|rows|] == rows;
    }

    method FloorBlockers(floor: Floor, branch: Id, date: int) returns (blockers: seq<Blocker>)
      ensures blockers == SeatBlockers(floor, branch, date) + Select(floor.items, TicketCheck(branch))
    {
      blockers := PushBlockers([], floor.sessions, TodaySession(branch, date));
      blockers := PushBlockers(blockers, floor.sessions, LeftoverSession(branch, date));
      blockers := PushBlockers(blockers, floor.rooms, TodayRoom(branch, date));
      blockers := PushBlockers(blockers, floor.rooms, LeftoverRoom(branch, date));
      blockers := PushBlockers(blockers, floor.items, TicketCheck(branch));
    }

    method CashBlockers(before: seq<Blocker>, day: Db, branch: Id, date: int) returns (blockers: seq<Blocker>)
      ensures blockers == before + Select(day.custody.drops, DropCheck(branch))
                          + Select(day.custody.drawers, DrawerCheck(branch, date))
                          + Select(day.custody.drawers, FlagCheck(branch, date))
                          + Select(day.custody.shifts, PouchCheck(day, branch, date))
    {
      blockers := PushBlockers(before, day.custody.drops, DropCheck(branch));
      blockers := PushBlockers(blockers, day.custody.drawers, DrawerCheck(branch, date));
      blockers := PushBlockers(blockers, day.custody.drawers, FlagCheck(branch, date));
      blockers := PushBlockers(blockers, day.custody.shifts, PouchCheck(day, branch, date));
    }

    method CollectBlockers(branch: Id, date: int) returns (blockers: seq<Blocker>)
      ensures blockers == Blockers(db.Snapshot(), branch, date)
    {
      var day := db.Snapshot();
      blockers := FloorBlockers(day.floor, branch, date);
      blockers := CashBlockers(blockers, day, branch, date);
    }

    method CollectHardBlockers(branch: Id, date: int) returns (hard: seq<Blocker>)
      ensures hard == HardBlockers(Blockers(db.Snapshot(), branch, date))
    {
      var blockers := CollectBlockers(branch, date);
      hard := [];
      for i := 0 to |blockers|
        invariant hard == Filter(blockers[..i], IsHard())
      {
        assert blockers[..i + 1][..i] == blockers[..i];
        if blockers[i].code != OpenKitchenTicket {
          hard := hard + [blockers[i]];
        }
      }
      assert blockers[..|blockers|] == blockers;
    }

    /** What a drawer should hold: one pass over the ledger, and the drop table when the ledger shows no drops. */
    method SessionExpected(drawer: Id) returns (expected: int)
      requires drawer < |db.drawers|
      ensures expected == DailyClose.SessionExpected(db.Custodies(), drawer)
    {
      var drops, other := 0, 0;
      for i := 0 to |db.ledger|
        invariant drops == Sum(db.ledger[..i], IntoDrawer(drawer))
        invariant other == Sum(db.ledger[..i], OtherInDrawer(drawer))
      {
        assert db.ledger[..i + 1][..i] == db.ledger[..i];
        var entry := db.ledger[i];
        if entry.holder == CashierDrawer(drawer) {
          if entry.entryType == DropIn {
            drops := drops + entry.amount;
          } else if entry.entryType != OpeningFloat {
            other := other + entry.amount;
          }
        }
      }
      assert db.ledger[..|db.ledger|] == db.ledger;
      if drops == 0 {
        drops := AddUp(db.drops, ReceivedInto(drawer));
      }
      expected := db.drawers[drawer].openingFloat + drops + other;
    }

    method WaiterLineForShift(branch: Id, shift: Id, date: int) returns (line: Line)
      ensures line == WaiterLine(db.Snapshot(), branch, shift, date)
    {
      var collected := AddUp(db.payments, CollectedOn(branch, shift, date));
      var dropped := AddUp(db.drops, DroppedOn(shift, date));
      var pending := AddUp(db.drops, OpenOn(shift, date));
      line := Line(collected, dropped, Clamp(collected - dropped - pending));
    }

    method DaySales(branch: Id, date: int) returns (cash: int, transfer: int)
      ensures cash == Sum(db.payments, SalesOn(branch, date, Cash))
      ensures transfer == Sum(db.payments, SalesOn(branch, date, Transfer))
    {
      cash, transfer := 0, 0;
      for i := 0 to |db.payments|
        invariant cash == Sum(db.payments[..i], SalesOn(branch, date, Cash))
        invariant transfer == Sum(db.payments[..i], SalesOn(branch, date, Transfer))
      {
        assert db.payments[..i + 1][..i] == db.payments[..i];
        var payment := db.payments[i];
        if payment.branch == branch && payment.date == date {
          if payment.means == Cash {
            cash := cash + payment.amount;
          } else {
            transfer := transfer + payment.amount;
          }
        }
      }
      assert db.payments[..|db.payments|] == db.payments;
    }

    /** Expected and counted cash over some drawers. */
    method TallyDrawers(drawers: seq<Id>) returns (expected: int, counted: int)
      requires forall k | k in drawers :: k < |db.drawers|
      ensures expected == Sum(drawers, ExpectedIn(db.Custodies()))
      ensures counted == Sum(drawers, CountedIn(db.Custodies()))
    {
      var custody := db.Custodies();
      expected, counted := 0, 0;
      for i := 0 to |drawers|
        invariant expected == Sum(drawers[..i], ExpectedIn(custody))
        invariant counted == Sum(drawers[..i], CountedIn(custody))
      {
        SumAppend(drawers[..i], drawers[i], ExpectedIn(custody));
        SumAppend(drawers[..i], drawers[i], CountedIn(custody));
        assert drawers[..i + 1] == drawers[..i] + [drawers[i]];
        assert drawers[i] in drawers;
        var one := SessionExpected(drawers[i]);
        expected := expected + one;
        var drawer := custody.drawers[drawers[i]];
        if drawer.reconciliation.Some? {
          counted := counted + drawer.reconciliation.value.counted;
        }
      }
      assert drawers[..|drawers|] == drawers;
    }

    /** The day's expected cash is raised to its floats plus its received drops when it falls below them. */
    method DayCash(branch: Id, date: int) returns (expected: int, counted: int)
      ensures expected == CashierExpected(db.Custodies(), branch, date)
      ensures counted == Sum(DayDrawers(db.Custodies(), branch, date), CountedIn(db.Custodies()))
    {
      var drawers := Query(db.drawers, OfDay(branch, date));
      expected, counted := TallyDrawers(drawers);
      var floats := AddUp(drawers, FloatIn(db.Custodies()));
      var received := AddUp(db.drops, ReceivedOn(branch, date));
      if expected < floats + received {
        expected := floats + received;
      }
    }

    method Undropped(branch: Id, date: int) returns (undropped: int)
      ensures undropped == Sum(Positions(db.shifts, ShiftOf(branch, date)), UndroppedIn(db.Snapshot(), branch, date))
    {
      var shifts := Query(db.shifts, ShiftOf(branch, date));
      undropped := 0;
      for i := 0 to |shifts|
        invariant undropped == Sum(shifts[..i], UndroppedIn(db.Snapshot(), branch, date))
      {
        assert shifts[..i + 1][..i] == shifts[..i];
        var line := WaiterLineForShift(branch, shifts[i], date);
        undropped := undropped + line.undropped;
      }
      assert shifts[..|shifts|] == shifts;
    }

    method BuildTotals(branch: Id, date: int) returns (totals: Totals)
      ensures totals == DayTotals(db.Snapshot(), branch, date)
    {
      var cash, transfer := DaySales(branch, date);
      var expected, counted := DayCash(branch, date);
      var undropped := Undropped(branch, date);
      totals := Totals(cash, transfer, expected, counted, undropped);
    }

    // ---- commands --------------------------------------------------------

    method Create(c: Context, date: int) returns (outcome: Outcome)
      modifies db
      ensures (db.Snapshot(), outcome) == CreateClose(old(db.Snapshot()), c, date)
    {
      if (c.branch, date) in db.closes {
        return Refused(CloseExists);
      }
      var hard := CollectHardBlockers(c.branch, date);
      var totals := BuildTotals(c.branch, date);
      var row := Close(if hard == [] then ReadyForReview else Draft, totals, 1);
      db.closes := db.closes[(c.branch, date) := row];
      outcome := Done(CloseAnswer(row));
    }

    method Refresh(c: Context, date: int) returns (outcome: Outcome)
      modifies db
      ensures (db.Snapshot(), outcome) == RefreshClose(old(db.Snapshot()), c, date)
    {
      if (c.branch, date) !in db.closes {
        return Refused(NotFound);
      }
      var prior := db.closes[(c.branch, date)];
      if prior.status == Locked {
        return Refused(AlreadyLocked);
      }
      var hard := CollectHardBlockers(c.branch, date);
      var totals := BuildTotals(c.branch, date);
      var status := if prior.status == Approved then Approved
                    else if hard == [] then ReadyForReview else Draft;
      var row := Close(status, totals, prior.version + 1);
      db.closes := db.closes[(c.branch, date) := row];
      outcome := Done(CloseAnswer(row));
    }

    method Approve(c: Context, date: int, expected: int) returns (outcome: Outcome)
      modifies db
      ensures (db.Snapshot(), outcome) == ApproveClose(old(db.Snapshot()), c, date, expected)
    {
      if (c.branch, date) !in db.closes {
        return Refused(NotFound);
      }
      var prior := db.closes[(c.branch, date)];
      if prior.version != expected {
        return Refused(StaleVersion);
      }
      if prior.status == Locked {
        return Refused(AlreadyLocked);
      }
      var row := prior.(status := Approved, version := prior.version + 1);
      db.closes := db.closes[(c.branch, date) := row];
      outcome := Done(CloseAnswer(row));
    }

    // ---- abandoned kitchen tickets ---------------------------------------

    /** Cancels every open ticket of the branch and says which sessions had one. */
    method CancelTickets(branch: Id) returns (touched: set<Id>)
      modifies db`items
      ensures db.items == AbandonItems(old(db.items), branch)
      ensures forall s: Id :: s in touched <==> Touched(old(db.items), branch, s)
    {
      ghost var before := db.items;
      touched := {};
      for i := 0 to |db.items|
        invariant |db.items| == |before|
        invariant forall k | 0 <= k < |before| ::
          db.items[k] == if k < i then Abandoned(before[k], branch) else before[k]
        invariant forall s: Id :: s in touched <==> Touched(before[..i], branch, s)
      {
        var item := db.items[i];
        assert before[..i + 1] == before[..i] + [item];
        TouchedAppend(before[..i], item, branch);
        if OpenTicket(item, branch) {
          db.items := db.items[i := item.(state := Cancelled, cancelled := true)];
          touched := touched + {item.session};
        }
      }
      assert before[..|before|] == before;
    }

    /** Puts one session that has nothing left to charge back from ACTIVE_ORDER to OPEN. */
    method ReopenIfEmpty(branch: Id, session: Id, ghost swept: seq<Item>)
      requires Touched(swept, branch, session)
      requires db.items == AbandonItems(swept, branch)
      modifies db`sessions
      ensures |db.sessions| == |old(db.sessions)|
      ensures forall s: Id | s < |db.sessions| ::
        db.sessions[s] == (if s == session then Emptied(old(db.sessions)[s], swept, branch, s)
                           else old(db.sessions)[s])
    {
      var remaining := Query(db.items, OwedBy(session));
      if remaining == [] && session < |db.sessions| && db.sessions[session].status == ActiveOrder {
        var row := db.sessions[session];
        db.sessions := db.sessions[session := row.(status := Open, version := row.version + 1)];
      }
    }

    /** Goes through the touched sessions in whatever order the set gives them. */
    method ReopenEmptied(branch: Id, touched: set<Id>, ghost swept: seq<Item>)
      requires forall s: Id :: s in touched <==> Touched(swept, branch, s)
      requires db.items == AbandonItems(swept, branch)
      modifies db`sessions
      ensures db.sessions == EmptySessions(old(db.sessions), swept, branch)
    {
      ghost var before := db.sessions;
      var todo := touched;
      while todo != {}
        invariant todo <= touched && |db.sessions| == |before|
        invariant forall s: Id | s < |before| :: db.sessions[s] == Swept(before[s], todo, swept, branch, s)
        decreases |todo|
      {
        var session :| session in todo;
        ReopenIfEmpty(branch, session, swept);
        todo := todo - {session};
      }
    }

    method AbandonOpenKitchenTickets(branch: Id)
      modifies db
      ensures db.Snapshot() == AbandonTickets(old(db.Snapshot()), branch)
    {
      ghost var before := db.items;
      var touched := CancelTickets(branch);
      ReopenEmptied(branch, touched, before);
    }

    /** The tickets are swept before the blockers are looked at, so a refused lock has swept them too. */
    method Lock(c: Context, date: int, expected: int) returns (outcome: Outcome)
      modifies db
      ensures (db.Snapshot(), outcome) == LockClose(old(db.Snapshot()), c, date, expected)
    {
      if (c.branch, date) !in db.closes {
        return Refused(NotFound);
      }
      var prior := db.closes[(c.branch, date)];
      if prior.version != expected {
        return Refused(StaleVersion);
      }
      if prior.status == Locked {
        return Refused(AlreadyLocked);
      }
      AbandonOpenKitchenTickets(c.branch);
      var hard := CollectHardBlockers(c.branch, date);
      if hard != [] {
        return Refused(Blocked);
      }
      var totals := BuildTotals(c.branch, date);
      var row := Close(Locked, totals, prior.version + 1);
      db.closes := db.closes[(c.branch, date) := row];
      outcome := Done(CloseAnswer(row));
    }
  }

  /** A session while the touched ones are being gone through: not yet visited, or settled. */
  function Swept(row: Session, todo: set<Id>, swept: seq<Item>, branch: Id, session: Id): Session
  {
    if session in todo then row else Emptied(row, swept, branch, session)
  }

  predicate TouchedBy(item: Item, branch: Id, session: Id)
  {
    item.session == session && OpenTicket(item, branch)
  }

  lemma TouchedAppend(items: seq<Item>, item: Item, branch: Id)
    ensures forall s: Id ::
      (Touched(items + [item], branch, s) <==> Touched(items, branch, s) || TouchedBy(item, branch, s))
  {
    var more := items + [item];
    assert more[|items|] == item;
    forall s: Id | Touched(items, branch, s) ensures Touched(more, branch, s) {
      var i :| 0 <= i < |items| && items[i].session == s && OpenTicket(items[i], branch);
      assert more[i] == items[i];
    }
  }
}
