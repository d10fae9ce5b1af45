/** Table sessions, as the floor service opens and closes them in the database. */
module FloorServices {
  import opened Records
  import opened Billing
  import opened FloorPlan
  import opened Stores

  class FloorService {
    const db: Store

    constructor (db: Store)
      ensures this.db == db
    {
      this.db := db;
    }

    method StartSession(c: Context, today: int, table: Id, asCallPickup: bool) returns (outcome: Outcome)
      modifies db
      ensures (db.Snapshot(), outcome) == FloorPlan.StartSession(old(db.Snapshot()), c, today, table, asCallPickup)
    {
      if table >= |db.tables| || db.tables[table].branch != c.branch || db.tables[table].archived {
        return Refused(NotFound);
      }
      var row := db.tables[table];
      var kind := DineIn;
      if asCallPickup || row.callPickup {
        kind := CallPickup;
      }
      if HasOpenSession(db.sessions, table) || row.status == Occupied {
        return Refused(TableNotAvailable);
      }
      var session := Session(c.branch, table, today, kind, Open, None, 1);
      outcome := Done(SessionAnswer(|db.sessions|, session));
      db.sessions := db.sessions + [session];
      db.tables := db.tables[table := row.(status := Occupied)];
    }

    /** The PAID bills of a closing session become CLOSED. */
    method ArchivePaidBills(session: Id)
      modifies db`bills
      ensures db.bills == ArchivePaid(old(db.bills), session)
    {
      ghost var before := db.bills;
      for b := 0 to |db.bills|
        invariant |db.bills| == |before|
        invariant forall k | 0 <= k < |before| ::
          db.bills[k] == if k < b then ArchiveIfPaid(before[k], session) else before[k]
      {
        var row := db.bills[b];
        if row.session == session && row.status == FullyPaid {
          db.bills := db.bills[b := row.(status := Archived, version := row.version + 1)];
        }
      }
    }

    /** Closes the session, frees its table and archives its bills in one transaction. */
    method WriteClosed(session: Id, now: int, archive: bool)
      requires session < |db.sessions| && db.sessions[session].table < |db.tables|
      modifies db
      ensures db.Snapshot() == SessionClosed(old(db.Snapshot()), session, now, archive)
    {
      var row := db.sessions[session];
      db.sessions := db.sessions[session := row.(status := Closed, closedAt := Some(now), version := row.version + 1)];
      db.tables := db.tables[row.table := db.tables[row.table].(status := Available)];
      if archive {
        ArchivePaidBills(session);
      }
    }

    method CloseSession(c: Context, now: int, session: Id, expected: int) returns (outcome: Outcome)
      modifies db
      ensures (db.Snapshot(), outcome) == FloorPlan.CloseSession(old(db.Snapshot()), c, now, session, expected)
    {
      if session >= |db.sessions| || db.sessions[session].branch != c.branch
         || db.sessions[session].table >= |db.tables| {
        return Refused(NotFound);
      }
      var row := db.sessions[session];
      if row.status == Closed || row.closedAt.Some? {
        return Refused(AlreadyClosed);
      }
      if row.version != expected {
        return Refused(StaleVersion);
      }
      var items := Query(db.items, OwedBy(session));
      var unpaidBusy := items != [] && row.status != Paid && row.status != Open;
      var unpaidOpen := items != [] && row.status == Open;
      if unpaidBusy || unpaidOpen {
        return Refused(CloseBlocked);
      }
      WriteClosed(session, now, row.status == Paid);
      outcome := Done(SessionAnswer(session, db.sessions[session]));
    }

    method ForceCloseSession(c: Context, now: int, session: Id, expected: int) returns (outcome: Outcome)
      modifies db
      ensures (db.Snapshot(), outcome) == ForceClose(old(db.Snapshot()), c, now, session, expected)
    {
      if session >= |db.sessions| || db.sessions[session].branch != c.branch
         || db.sessions[session].table >= |db.tables| {
        return Refused(NotFound);
      }
      var row := db.sessions[session];
      if row.status == Closed || row.closedAt.Some? {
        return Refused(AlreadyClosed);
      }
      if row.version != expected {
        return Refused(StaleVersion);
      }
      var live := Query(db.items, LiveIn(session));
      if live != [] && row.status != Paid {
        return Refused(CloseBlocked);
      }
      var items := Query(db.items, OwedBy(session));
      if row.status in {BillRequested, BillReady} || (row.status == ActiveOrder && items != []) {
        return Refused(CloseBlocked);
      }
      WriteClosed(session, now, row.status == Paid || HasSettledBill(db.bills, session));
      outcome := Done(SessionAnswer(session, db.sessions[session]));
    }
  }
}
