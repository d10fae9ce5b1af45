/** The end-of-day snapshot of a branch, its blockers, and the day lock. */
module DailyClose {
  import opened Sums
  import opened Records
  import opened Billing
  import opened CashCustody

  // ---- blockers ----------------------------------------------------------

  datatype Code =
    | OpenTableSession | OpenRoomSession | OpenKitchenTicket | OpenCashDrop | DisputedCashDrop
    | ReconciliationMissing | ReconciliationFlagged | UndroppedWaiterCash

  datatype Blocker = Blocker(code: Code, entity: Id)

  /** One blocker for every row that `check` objects to, in row order. */
  function Select<T>(rows: seq<T>, check: (nat, T) -> Option<Code>): (r: seq<Blocker>)
  {
    if |rows| == 0 then []
    else
      var n := |rows| - 1;
      var rest := Select(rows[..n], check);
      match check(n, rows[n])
      case None => rest
      case Some(code) => rest + [Blocker(code, n)]
  }

  predicate SeatedSession(row: Session, branch: Id)
  {
    row.branch == branch && row.status != Closed && row.kind == DineIn
  }

  function TodaySession(branch: Id, date: int): (nat, Session) -> Option<Code>
  {
    (i, row: Session) => if SeatedSession(row, branch) && row.date == date then Some(OpenTableSession) else None
  }

  function LeftoverSession(branch: Id, date: int): (nat, Session) -> Option<Code>
  {
    (i, row: Session) => if SeatedSession(row, branch) && row.date != date then Some(OpenTableSession) else None
  }

  function TodayRoom(branch: Id, date: int): (nat, Room) -> Option<Code>
  {
    (i, row: Room) => if row.branch == branch && row.open && row.date == date then Some(OpenRoomSession) else None
  }

  function LeftoverRoom(branch: Id, date: int): (nat, Room) -> Option<Code>
  {
    (i, row: Room) => if row.branch == branch && row.open && row.date != date then Some(OpenRoomSession) else None
  }

  predicate OpenTicket(item: Item, branch: Id)
  {
    item.branch == branch && !item.cancelled
    && item.state in {Confirmed, Queued, Acknowledged, InPreparation, Ready, Delayed, CannotPrepare}
  }

  function TicketCheck(branch: Id): (nat, Item) -> Option<Code>
  {
    (i, item: Item) => if OpenTicket(item, branch) then Some(OpenKitchenTicket) else None
  }

  function DropCheck(branch: Id): (nat, Drop) -> Option<Code>
  {
    (i, row: Drop) =>
      if row.branch != branch || row.status == Received then None
      else if row.status == Disputed then Some(DisputedCashDrop) else Some(OpenCashDrop)
  }

  predicate DayDrawer(row: Drawer, branch: Id, date: int) { row.branch == branch && row.date == date }

  function DrawerCheck(branch: Id, date: int): (nat, Drawer) -> Option<Code>
  {
    (i, row: Drawer) =>
      if !DayDrawer(row, branch, date) then None
      else if row.reconciliation.None? then Some(ReconciliationMissing)
      else if row.reconciliation.value.flagged then Some(ReconciliationFlagged) else None
  }

  /** The separate pass over the day's reconciliations. */
  function FlagCheck(branch: Id, date: int): (nat, Drawer) -> Option<Code>
  {
    (i, row: Drawer) =>
      if DayDrawer(row, branch, date) && row.reconciliation.Some? && row.reconciliation.value.flagged
      then Some(ReconciliationFlagged) else None
  }

  predicate DayShift(row: Shift, branch: Id, date: int) { row.branch == branch && row.date == date }

  function PouchCheck(db: Db, branch: Id, date: int): (nat, Shift) -> Option<Code>
  {
    (i: nat, row: Shift) =>
      if DayShift(row, branch, date) && WaiterLine(db, branch, i, date).undropped > 0
      then Some(UndroppedWaiterCash) else None
  }

  function SeatBlockers(floor: Floor, branch: Id, date: int): seq<Blocker>
  {
    Select(floor.sessions, TodaySession(branch, date))
    + Select(floor.sessions, LeftoverSession(branch, date))
    + Select(floor.rooms, TodayRoom(branch, date))
    + Select(floor.rooms, LeftoverRoom(branch, date))
  }

  function Blockers(db: Db, branch: Id, date: int): seq<Blocker>
  {
    SeatBlockers(db.floor, branch, date)
    + Select(db.floor.items, TicketCheck(branch))
    + Select(db.custody.drops, DropCheck(branch))
    + Select(db.custody.drawers, DrawerCheck(branch, date))
    + Select(db.custody.drawers, FlagCheck(branch, date))
    + Select(db.custody.shifts, PouchCheck(db, branch, date))
  }

  function IsHard(): Blocker -> bool { (b: Blocker) => b.code != OpenKitchenTicket }

  /** Kitchen tickets are cancelled by the lock itself, so they do not block. */
  function HardBlockers(blockers: seq<Blocker>): seq<Blocker> { Filter(blockers, IsHard()) }

  // ---- waiter lines ------------------------------------------------------

  datatype Line = Line(collected: int, dropped: int, undropped: int)

  function CollectedOn(branch: Id, shift: Id, date: int): Payment -> int
  {
    (p: Payment) => if p.branch == branch && p.shift == shift && p.date == date && p.means == Cash
      then p.amount else 0
  }

  function AcceptedAmount(row: Drop): int { row.resolution.GetOr(row.counted.GetOr(row.declared)) }

  function DroppedOn(shift: Id, date: int): Drop -> int
  {
    (d: Drop) => if d.shift == shift && d.date == date && d.status == Received then AcceptedAmount(d) else 0
  }

  function OpenOn(shift: Id, date: int): Drop -> int
  {
    (d: Drop) => if d.shift == shift && d.date == date && d.status != Received then d.declared else 0
  }

  function WaiterLine(db: Db, branch: Id, shift: Id, date: int): Line
  {
    var collected := Sum(db.billing.payments, CollectedOn(branch, shift, date));
    var dropped := Sum(db.custody.drops, DroppedOn(shift, date));
    Line(collected, dropped, Clamp(collected - dropped - Sum(db.custody.drops, OpenOn(shift, date))))
  }

  // ---- totals ------------------------------------------------------------

  function SalesOn(branch: Id, date: int, means: Method): Payment -> int
  {
    (p: Payment) => if p.branch == branch && p.date == date && p.means == means then p.amount else 0
  }

  function IntoDrawer(drawer: Id): Entry -> int
  {
    (e: Entry) => if e.holder == CashierDrawer(drawer) && e.entryType == DropIn then e.amount else 0
  }

  function OtherInDrawer(drawer: Id): Entry -> int
  {
    (e: Entry) => if e.holder == CashierDrawer(drawer) && e.entryType != DropIn && e.entryType != OpeningFloat
      then e.amount else 0
  }

  function ReceivedInto(drawer: Id): Drop -> int
  {
    (d: Drop) => if d.status == Received && d.drawer == Some(drawer) then AcceptedAmount(d) else 0
  }

  function LedgerDrops(custody: Custody, drawer: Id): int { Sum(custody.ledger, IntoDrawer(drawer)) }
  function TableDrops(custody: Custody, drawer: Id): int { Sum(custody.drops, ReceivedInto(drawer)) }
  function OtherCash(custody: Custody, drawer: Id): int { Sum(custody.ledger, OtherInDrawer(drawer)) }

  /** Drops come from the ledger, or from the drop table when the ledger sums to zero. */
  function SessionExpected(custody: Custody, drawer: Id): int
    requires drawer < |custody.drawers|
  {
    var fromLedger := LedgerDrops(custody, drawer);
    var drops := if fromLedger == 0 then TableDrops(custody, drawer) else fromLedger;
    custody.drawers[drawer].openingFloat + drops + OtherCash(custody, drawer)
  }

  function OfDay(branch: Id, date: int): Drawer -> bool { (row: Drawer) => DayDrawer(row, branch, date) }

  function DayDrawers(custody: Custody, branch: Id, date: int): seq<Id>
  {
    Positions(custody.drawers, OfDay(branch, date))
  }

  function ExpectedIn(custody: Custody): Id -> int
  {
    (k: Id) => if k < |custody.drawers| then SessionExpected(custody, k) else 0
  }

  function FloatIn(custody: Custody): Id -> int
  {
    (k: Id) => if k < |custody.drawers| then custody.drawers[k].openingFloat else 0
  }

  function CountedIn(custody: Custody): Id -> int
  {
    (k: Id) => if k < |custody.drawers| && custody.drawers[k].reconciliation.Some?
      then custody.drawers[k].reconciliation.value.counted else 0
  }

  function ReceivedOn(branch: Id, date: int): Drop -> int
  {
    (d: Drop) => if d.branch == branch && d.date == date && d.status == Received then AcceptedAmount(d) else 0
  }

  function SumOfSessions(custody: Custody, branch: Id, date: int): int
  {
    Sum(DayDrawers(custody, branch, date), ExpectedIn(custody))
  }

  function DrawerFloor(custody: Custody, branch: Id, date: int): int
  {
    Sum(DayDrawers(custody, branch, date), FloatIn(custody)) + Sum(custody.drops, ReceivedOn(branch, date))
  }

  function CashierExpected(custody: Custody, branch: Id, date: int): int
  {
    var expected := SumOfSessions(custody, branch, date);
    var floor := DrawerFloor(custody, branch, date);
    if expected < floor then floor else expected
  }

  function ShiftOf(branch: Id, date: int): Shift -> bool { (row: Shift) => DayShift(row, branch, date) }

  function UndroppedIn(db: Db, branch: Id, date: int): Id -> int
  {
    (k: Id) => WaiterLine(db, branch, k, date).undropped
  }

  function DayTotals(db: Db, branch: Id, date: int): Totals
  {
    Totals(Sum(db.billing.payments, SalesOn(branch, date, Cash)),
           Sum(db.billing.payments, SalesOn(branch, date, Transfer)),
           CashierExpected(db.custody, branch, date),
           Sum(DayDrawers(db.custody, branch, date), CountedIn(db.custody)),
           Sum(Positions(db.custody.shifts, ShiftOf(branch, date)), UndroppedIn(db, branch, date)))
  }

  // ---- commands ----------------------------------------------------------

  function StatusFor(db: Db, branch: Id, date: int): CloseStatus
  {
    if HardBlockers(Blockers(db, branch, date)) == [] then ReadyForReview else Draft
  }

  function WithClose(db: Db, branch: Id, date: int, row: Close): Db
  {
    db.(closes := db.closes[(branch, date) := row])
  }

  function CreateClose(db: Db, c: Context, date: int): (Db, Outcome)
  {
    if (c.branch, date) in db.closes then (db, Refused(CloseExists))
    else
      var row := Close(StatusFor(db, c.branch, date), DayTotals(db, c.branch, date), 1);
      (WithClose(db, c.branch, date, row), Done(CloseAnswer(row)))
  }

  function RefreshClose(db: Db, c: Context, date: int): (Db, Outcome)
  {
    if (c.branch, date) !in db.closes then (db, Refused(NotFound))
    else
      var prior := db.closes[(c.branch, date)];
      if prior.status == Locked then (db, Refused(AlreadyLocked))
      else
        var status := if prior.status == Approved then Approved else StatusFor(db, c.branch, date);
        var row := Close(status, DayTotals(db, c.branch, date), prior.version + 1);
        (WithClose(db, c.branch, date, row), Done(CloseAnswer(row)))
  }

  function ApproveClose(db: Db, c: Context, date: int, expected: int): (Db, Outcome)
  {
    if (c.branch, date) !in db.closes then (db, Refused(NotFound))
    else
      var prior := db.closes[(c.branch, date)];
      if prior.version != expected then (db, Refused(StaleVersion))
      else if prior.status == Locked then (db, Refused(AlreadyLocked))
      else
        var row := prior.(status := Approved, version := prior.version + 1);
        (WithClose(db, c.branch, date, row), Done(CloseAnswer(row)))
  }

  // ---- abandoned kitchen tickets -----------------------------------------

  function Abandoned(item: Item, branch: Id): Item
  {
    if OpenTicket(item, branch) then item.(state := Cancelled, cancelled := true) else item
  }

  function AbandonItems(items: seq<Item>, branch: Id): (r: seq<Item>)
    ensures |r| == |items|
    ensures forall i | 0 <= i < |r| :: r[i] == Abandoned(items[i], branch)
  {
    if |items| == 0 then []
    else
      var n := |items| - 1;
      AbandonItems(items[..n], branch) + [Abandoned(items[n], branch)]
  }

  predicate Touched(items: seq<Item>, branch: Id, session: Id)
  {
    exists i | 0 <= i < |items| :: items[i].session == session && OpenTicket(items[i], branch)
  }

  /** A session left with nothing to charge goes back from ACTIVE_ORDER to OPEN. */
  function Emptied(row: Session, items: seq<Item>, branch: Id, session: Id): Session
  {
    if Touched(items, branch, session) && row.status == ActiveOrder
       && Positions(AbandonItems(items, branch), OwedBy(session)) == [] then Restated(row, Open)
    else row
  }

  function EmptySessions(sessions: seq<Session>, items: seq<Item>, branch: Id): (r: seq<Session>)
    ensures |r| == |sessions|
    ensures forall s | 0 <= s < |r| :: r[s] == Emptied(sessions[s], items, branch, s)
  {
    if |sessions| == 0 then []
    else
      var n := |sessions| - 1;
      EmptySessions(sessions[..n], items, branch) + [Emptied(sessions[n], items, branch, n)]
  }

  function AbandonTickets(db: Db, branch: Id): Db
  {
    db.(floor := db.floor.(sessions := EmptySessions(db.floor.sessions, db.floor.items, branch),
                           items := AbandonItems(db.floor.items, branch)))
  }

  /** A lock that is refused for a blocker has still cancelled the open kitchen tickets. */
  function LockClose(db: Db, c: Context, date: int, expected: int): (Db, Outcome)
  {
    if (c.branch, date) !in db.closes then (db, Refused(NotFound))
    else
      var prior := db.closes[(c.branch, date)];
      if prior.version != expected then (db, Refused(StaleVersion))
      else if prior.status == Locked then (db, Refused(AlreadyLocked))
      else
        var swept := AbandonTickets(db, c.branch);
        if HardBlockers(Blockers(swept, c.branch, date)) != [] then (swept, Refused(Blocked))
        else
          var row := Close(Locked, DayTotals(swept, c.branch, date), prior.version + 1);
          (WithClose(swept, c.branch, date, row), Done(CloseAnswer(row)))
  }

  // ---- when a day is clear -----------------------------------------------

  ghost predicate ClearOfDrops(drops: seq<Drop>, branch: Id)
  {
    forall k | 0 <= k < |drops| :: drops[k].branch == branch ==> drops[k].status == Received
  }

  ghost predicate ClearOfGuests(floor: Floor, branch: Id)
  {
    && (forall s | 0 <= s < |floor.sessions| :: !SeatedSession(floor.sessions[s], branch))
    && (forall k | 0 <= k < |floor.rooms| && floor.rooms[k].branch == branch :: !floor.rooms[k].open)
  }

  ghost predicate ClearToLock(db: Db, branch: Id, date: int)
  {
    && ClearOfGuests(db.floor, branch)
    && ClearOfDrops(db.custody.drops, branch)
    && (forall k | 0 <= k < |db.custody.drawers| && DayDrawer(db.custody.drawers[k], branch, date) ::
          db.custody.drawers[k].reconciliation.Some? && !db.custody.drawers[k].reconciliation.value.flagged)
    && (forall k | 0 <= k < |db.custody.shifts| && DayShift(db.custody.shifts[k], branch, date) ::
          WaiterLine(db, branch, k, date).undropped == 0)
  }

  lemma {:induction false} SelectHard<T>(rows: seq<T>, check: (nat, T) -> Option<Code>)
    ensures Filter(Select(rows, check), IsHard()) == []
            <==> forall i | 0 <= i < |rows| :: check(i, rows[i]) in {None, Some(OpenKitchenTicket)}
  {
    if |rows| > 0 {
      var n := |rows| - 1;
      SelectHard(rows[..n], check);
      var rest := Select(rows[..n], check);
      assert forall i | 0 <= i < n :: rows[..n][i] == rows[i];
      match check(n, rows[n]) {
        case None =>
        case Some(code) => FilterAppend(rest, Blocker(code, n), IsHard());
      }
    }
  }

  lemma {:induction false} FilterConcat<T>(a: seq<T>, b: seq<T>, p: T -> bool)
    ensures Filter(a + b, p) == Filter(a, p) + Filter(b, p)
  {
    if |b| == 0 {
      assert a + b == a;
    } else {
      var n := |b| - 1;
      FilterConcat(a, b[..n], p);
      assert a + b == (a + b[..n]) + [b[n]];
      FilterAppend(a + b[..n], b[n], p);
    }
  }

  lemma SeatsDecide(floor: Floor, branch: Id, date: int)
    ensures HardBlockers(SeatBlockers(floor, branch, date)) == [] <==> ClearOfGuests(floor, branch)
  {
    var a := Select(floor.sessions, TodaySession(branch, date));
    var b := Select(floor.sessions, LeftoverSession(branch, date));
    var c := Select(floor.rooms, TodayRoom(branch, date));
    var d := Select(floor.rooms, LeftoverRoom(branch, date));
    FilterConcat(a, b, IsHard());
    FilterConcat(a + b, c, IsHard());
    FilterConcat(a + b + c, d, IsHard());
    SelectHard(floor.sessions, TodaySession(branch, date));
    SelectHard(floor.sessions, LeftoverSession(branch, date));
    SelectHard(floor.rooms, TodayRoom(branch, date));
    SelectHard(floor.rooms, LeftoverRoom(branch, date));
    SessionsDecide(floor.sessions, branch, date);
    RoomsDecide(floor.rooms, branch, date);
  }

  lemma RoomsDecide(rooms: seq<Room>, branch: Id, date: int)
    ensures (forall k | 0 <= k < |rooms| && rooms[k].branch == branch :: !rooms[k].open)
            <==> (forall k | 0 <= k < |rooms| ::
                    TodayRoom(branch, date)(k, rooms[k]) in {None, Some(OpenKitchenTicket)})
                 && (forall k | 0 <= k < |rooms| ::
                       LeftoverRoom(branch, date)(k, rooms[k]) in {None, Some(OpenKitchenTicket)})
  {
    forall k | 0 <= k < |rooms|
      ensures rooms[k].branch == branch && rooms[k].open
              <==> TodayRoom(branch, date)(k, rooms[k]) == Some(OpenRoomSession)
                   || LeftoverRoom(branch, date)(k, rooms[k]) == Some(OpenRoomSession)
    {
    }
  }

  /** The hard blockers are empty exactly when the day is clear. */
  lemma HardBlockersDecide(db: Db, branch: Id, date: int)
    ensures HardBlockers(Blockers(db, branch, date)) == [] <==> ClearToLock(db, branch, date)
  {
    var c := Select(db.floor.items, TicketCheck(branch));
    var d := Select(db.custody.drops, DropCheck(branch));
    var e := Select(db.custody.drawers, DrawerCheck(branch, date));
    var f := Select(db.custody.drawers, FlagCheck(branch, date));
    var g := Select(db.custody.shifts, PouchCheck(db, branch, date));
    NoHardInAny(SeatBlockers(db.floor, branch, date), c, d, e, f, g);
    SeatsDecide(db.floor, branch, date);
    SelectHard(db.floor.items, TicketCheck(branch));
    SelectHard(db.custody.drops, DropCheck(branch));
    SelectHard(db.custody.drawers, DrawerCheck(branch, date));
    SelectHard(db.custody.drawers, FlagCheck(branch, date));
    SelectHard(db.custody.shifts, PouchCheck(db, branch, date));
    DrawersDecide(db.custody.drawers, branch, date);
    PouchesDecide(db, branch, date);
    DropsDecide(db.custody.drops, branch);
    assert forall i | 0 <= i < |db.floor.items| ::
      TicketCheck(branch)(i, db.floor.items[i]) in {None, Some(OpenKitchenTicket)};
  }

  lemma NoHardInAny(a: seq<Blocker>, c: seq<Blocker>, d: seq<Blocker>, e: seq<Blocker>, f: seq<Blocker>,
                    g: seq<Blocker>)
    ensures HardBlockers(a + c + d + e + f + g) == []
            <==> HardBlockers(a) == [] && HardBlockers(c) == [] && HardBlockers(d) == []
                 && HardBlockers(e) == [] && HardBlockers(f) == [] && HardBlockers(g) == []
  {
    FilterConcat(a, c, IsHard());
    FilterConcat(a + c, d, IsHard());
    FilterConcat(a + c + d, e, IsHard());
    FilterConcat(a + c + d + e, f, IsHard());
    FilterConcat(a + c + d + e + f, g, IsHard());
  }

  lemma DropsDecide(drops: seq<Drop>, branch: Id)
    ensures ClearOfDrops(drops, branch) <==> forall i | 0 <= i < |drops| ::
      DropCheck(branch)(i, drops[i]) in {None, Some(OpenKitchenTicket)}
  {
  }

  lemma SessionsDecide(sessions: seq<Session>, branch: Id, date: int)
    ensures (forall s | 0 <= s < |sessions| :: !SeatedSession(sessions[s], branch))
            <==> (forall s | 0 <= s < |sessions| ::
                    TodaySession(branch, date)(s, sessions[s]) in {None, Some(OpenKitchenTicket)})
                 && (forall s | 0 <= s < |sessions| ::
                       LeftoverSession(branch, date)(s, sessions[s]) in {None, Some(OpenKitchenTicket)})
  {
    forall s | 0 <= s < |sessions|
      ensures SeatedSession(sessions[s], branch)
              <==> TodaySession(branch, date)(s, sessions[s]) == Some(OpenTableSession)
                   || LeftoverSession(branch, date)(s, sessions[s]) == Some(OpenTableSession)
    {
    }
  }

  lemma DrawersDecide(drawers: seq<Drawer>, branch: Id, date: int)
    ensures (forall k | 0 <= k < |drawers| && DayDrawer(drawers[k], branch, date) ::
               drawers[k].reconciliation.Some? && !drawers[k].reconciliation.value.flagged)
            <==> (forall k | 0 <= k < |drawers| ::
                    DrawerCheck(branch, date)(k, drawers[k]) in {None, Some(OpenKitchenTicket)})
                 && (forall k | 0 <= k < |drawers| ::
                       FlagCheck(branch, date)(k, drawers[k]) in {None, Some(OpenKitchenTicket)})
  {
  }

  lemma PouchesDecide(db: Db, branch: Id, date: int)
    ensures (forall k | 0 <= k < |db.custody.shifts| && DayShift(db.custody.shifts[k], branch, date) ::
               WaiterLine(db, branch, k, date).undropped == 0)
            <==> (forall k | 0 <= k < |db.custody.shifts| ::
                    PouchCheck(db, branch, date)(k, db.custody.shifts[k]) in {None, Some(OpenKitchenTicket)})
  {
  }
}
