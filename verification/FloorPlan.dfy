/** Opening and closing table sessions. */
module FloorPlan {
  import opened Sums
  import opened Records
  import opened Billing

  predicate IsOpen(row: Session) { row.closedAt.None? && row.status != Closed }

  predicate HasOpenSession(sessions: seq<Session>, table: Id)
  {
    exists s | 0 <= s < |sessions| :: sessions[s].table == table && IsOpen(sessions[s])
  }

  function StartSession(db: Db, c: Context, today: int, table: Id, asCallPickup: bool): (Db, Outcome)
  {
    if table >= |db.floor.tables| || db.floor.tables[table].branch != c.branch
       || db.floor.tables[table].archived then (db, Refused(NotFound))
    else
      var row := db.floor.tables[table];
      if HasOpenSession(db.floor.sessions, table) || row.status == Occupied then
        (db, Refused(TableNotAvailable))
      else
        var kind := if asCallPickup || row.callPickup then CallPickup else DineIn;
        var session := Session(c.branch, table, today, kind, Open, None, 1);
        (db.(floor := db.floor.(
               sessions := db.floor.sessions + [session],
               tables := db.floor.tables[table := row.(status := Occupied)])),
         Done(SessionAnswer(|db.floor.sessions|, session)))
  }

  function ArchiveIfPaid(bill: Bill, session: Id): Bill
  {
    if bill.session == session && bill.status == FullyPaid then
      bill.(status := Archived, version := bill.version + 1)
    else bill
  }

  /** The bills of a session that are PAID become CLOSED with it. */
  function ArchivePaid(bills: seq<Bill>, session: Id): (r: seq<Bill>)
    ensures |r| == |bills|
    ensures forall b | 0 <= b < |r| :: r[b] == ArchiveIfPaid(bills[b], session)
  {
    if |bills| == 0 then []
    else
      var n := |bills| - 1;
      ArchivePaid(bills[..n], session) + [ArchiveIfPaid(bills[n], session)]
  }

  function SessionClosed(db: Db, session: Id, now: int, archive: bool): Db
    requires session < |db.floor.sessions| && db.floor.sessions[session].table < |db.floor.tables|
  {
    var row := db.floor.sessions[session];
    var table := db.floor.tables[row.table];
    db.(floor := db.floor.(
          sessions := db.floor.sessions[session := Restated(row, Closed).(closedAt := Some(now))],
          tables := db.floor.tables[row.table := table.(status := Available)]),
        billing := if archive then db.billing.(bills := ArchivePaid(db.billing.bills, session))
                   else db.billing)
  }

  function CloseSession(db: Db, c: Context, now: int, session: Id, expected: int): (Db, Outcome)
  {
    if session >= |db.floor.sessions| || db.floor.sessions[session].branch != c.branch
       || db.floor.sessions[session].table >= |db.floor.tables| then (db, Refused(NotFound))
    else
      var row := db.floor.sessions[session];
      var busy := Positions(db.floor.items, OwedBy(session)) != [];
      if !IsOpen(row) then (db, Refused(AlreadyClosed))
      else if row.version != expected then (db, Refused(StaleVersion))
      else if busy && row.status != Paid then (db, Refused(CloseBlocked))
      else
        var after := SessionClosed(db, session, now, row.status == Paid);
        (after, Done(SessionAnswer(session, after.floor.sessions[session])))
  }

  predicate InService(state: ItemState)
  {
    state in {Queued, Acknowledged, InPreparation, Ready, CannotPrepare, Served}
  }

  function LiveIn(session: Id): Item -> bool
  {
    (item: Item) => item.session == session && Chargeable(item) && InService(item.state)
  }

  predicate HasSettledBill(bills: seq<Bill>, session: Id)
  {
    exists b | 0 <= b < |bills| :: bills[b].session == session && bills[b].status == FullyPaid
  }

  function ForceClose(db: Db, c: Context, now: int, session: Id, expected: int): (Db, Outcome)
  {
    if session >= |db.floor.sessions| || db.floor.sessions[session].branch != c.branch
       || db.floor.sessions[session].table >= |db.floor.tables| then (db, Refused(NotFound))
    else
      var row := db.floor.sessions[session];
      var busy := Positions(db.floor.items, OwedBy(session)) != [];
      var live := Positions(db.floor.items, LiveIn(session)) != [];
      if !IsOpen(row) then (db, Refused(AlreadyClosed))
      else if row.version != expected then (db, Refused(StaleVersion))
      else if live && row.status != Paid then (db, Refused(CloseBlocked))
      else if row.status in {BillRequested, BillReady} || (row.status == ActiveOrder && busy) then
        (db, Refused(CloseBlocked))
      else
        var archive := row.status == Paid || HasSettledBill(db.billing.bills, session);
        var after := SessionClosed(db, session, now, archive);
        (after, Done(SessionAnswer(session, after.floor.sessions[session])))
  }
}
