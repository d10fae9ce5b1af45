/** The database the services share: one field per table, changed in place. */
module Stores {
  import opened Sums
  import opened Records

  class Store {
    var sessions: seq<Session>
    var tables: seq<Table>
    var items: seq<Item>
    var requests: seq<BillRequest>
    var rooms: seq<Room>

    var bills: seq<Bill>
    var lines: seq<BillLine>
    var payments: seq<Payment>
    var references: map<(Id, string), Id>
    var audits: seq<TransferAudit>

    var shifts: seq<Shift>
    var drops: seq<Drop>
    var disputes: seq<Dispute>
    var ledger: seq<Entry>
    var drawers: seq<Drawer>

    var closes: Closes
    var idempotency: map<IdemKey, IdemRow>

    function Custodies(): Custody
      reads this
    {
      Custody(shifts, drops, disputes, ledger, drawers)
    }

    /** The tables as one value. */
    function Snapshot(): Db
      reads this
    {
      Db(Floor(sessions, tables, items, requests, rooms), BillTables(bills, lines, payments, references, audits),
         Custodies(), closes, idempotency)
    }

    constructor (db: Db)
      ensures Snapshot() == db
    {
      sessions, tables, items, requests := db.floor.sessions, db.floor.tables, db.floor.items, db.floor.requests;
      rooms := db.floor.rooms;
      bills, lines, payments := db.billing.bills, db.billing.lines, db.billing.payments;
      references, audits := db.billing.references, db.billing.audits;
      shifts, drops, disputes := db.custody.shifts, db.custody.drops, db.custody.disputes;
      ledger, drawers := db.custody.ledger, db.custody.drawers;
      closes, idempotency := db.closes, db.idempotency;
    }

    method RestoreFloor(to: Floor)
      modifies `sessions, `tables, `items, `requests, `rooms
      ensures Floor(sessions, tables, items, requests, rooms) == to
    {
      sessions := to.sessions;
      tables := to.tables;
      items := to.items;
      requests := to.requests;
      rooms := to.rooms;
    }

    method RestoreBilling(to: BillTables)
      modifies `bills, `lines, `payments, `references, `audits
      ensures BillTables(bills, lines, payments, references, audits) == to
    {
      bills := to.bills;
      lines := to.lines;
      payments := to.payments;
      references := to.references;
      audits := to.audits;
    }

    method RestoreCustody(to: Custody)
      modifies `shifts, `drops, `disputes, `ledger, `drawers
      ensures Custodies() == to
    {
      shifts := to.shifts;
      drops := to.drops;
      disputes := to.disputes;
      ledger := to.ledger;
      drawers := to.drawers;
    }

    /** A transaction that throws leaves every table as it found it. */
    method Rollback(to: Db)
      modifies this
      ensures Snapshot() == to
    {
      RestoreFloor(to.floor);
      RestoreBilling(to.billing);
      RestoreCustody(to.custody);
      closes := to.closes;
      idempotency := to.idempotency;
    }
  }

  /** Adding up an amount over rows, as every total here is computed. */
  method AddUp<T>(rows: seq<T>, amount: T -> int) returns (total: int)
    ensures total == Sum(rows, amount)
  {
    total := 0;
    for i := 0 to |rows|
      invariant total == Sum(rows[..i], amount)
    {
      assert rows[..i + 1] == rows[..i] + [rows[i]];
      total := total + amount(rows[i]);
    }
    assert rows[..|rows|] == rows;
  }

  /** The positions of the rows a query selects. */
  method Query<T>(rows: seq<T>, wanted: T -> bool) returns (found: seq<Id>)
    ensures found == Positions(rows, wanted)
  {
    found := [];
    for i := 0 to |rows|
      invariant found == Positions(rows[..i], wanted)
    {
      assert rows[..i + 1][..i] == rows[..i];
      if wanted(rows[i]) {
        found := found + [i];
      }
    }
    assert rows[..|rows|] == rows;
  }
}
