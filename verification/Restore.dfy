/** Restoring an archive: its INSERT statements upsert rows by table and id. */
module Restore {
  import opened Records
  import opened Archive
  import opened SqlReader

  type Row = map<string, SqlValue>

  /** The stored rows, by table and id. */
  type Database = map<(string, SqlValue), Row>

  predicate Keyed(db: Database)
  {
    forall key | key in db :: "id" in db[key] && db[key]["id"] == key.1
  }

  // ---- upserts -----------------------------------------------------------

  datatype Saved = Saved(table: string, row: Row)

  predicate HasId(e: Saved) { "id" in e.row && e.row["id"] != Null }

  function KeyOf(e: Saved): (string, SqlValue)
    requires HasId(e)
  {
    (e.table, e.row["id"])
  }

  /** A row that is there takes every column but the id; a row that is not there is inserted. */
  function Put(db: Database, e: Saved): Database
    requires HasId(e)
  {
    var key := KeyOf(e);
    if key in db then db[key := db[key] + (e.row - {"id"})] else db[key := e.row]
  }

  ghost predicate AllHaveId(es: seq<Saved>) { forall e | e in es :: HasId(e) }

  ghost function Replay(db: Database, es: seq<Saved>): Database
    requires AllHaveId(es)
  {
    if |es| == 0 then db
    else
      var n := |es| - 1;
      assert forall e | e in es[..n] :: e in es;
      Put(Replay(db, es[..n]), es[n])
  }

  /** The row is stored under its key, in every column it has. */
  ghost predicate Stored(db: Database, e: Saved)
    requires HasId(e)
  {
    KeyOf(e) in db && forall c | c in e.row :: c in db[KeyOf(e)] && db[KeyOf(e)][c] == e.row[c]
  }

  /** Rows archived under one key are the same row, as when a table is exported twice. */
  ghost predicate Consistent(es: seq<Saved>)
    requires AllHaveId(es)
  {
    forall d, e | d in es && e in es && KeyOf(d) == KeyOf(e) :: d.row == e.row
  }

  lemma PutStores(db: Database, e: Saved, other: Saved)
    requires Keyed(db) && HasId(e) && HasId(other)
    requires KeyOf(e) == KeyOf(other) ==> e.row == other.row
    ensures Keyed(Put(db, e)) && Stored(Put(db, e), e)
    ensures Stored(db, other) ==> Stored(Put(db, e), other)
  {
  }

  /** From any later state, every archived row is back in every archived column. */
  lemma {:induction false} ReplayRestores(db: Database, es: seq<Saved>)
    requires Keyed(db) && AllHaveId(es) && Consistent(es)
    ensures Keyed(Replay(db, es))
    ensures forall e | e in es :: Stored(Replay(db, es), e)
  {
    if |es| > 0 {
      var n := |es| - 1;
      assert forall e | e in es[..n] :: e in es;
      ReplayRestores(db, es[..n]);
      var mid := Replay(db, es[..n]);
      PutStores(mid, es[n], es[n]);
      forall e | e in es ensures Stored(Put(mid, es[n]), e) {
        PutStores(mid, es[n], e);
        assert e in es[..n] || e == es[n];
      }
    }
  }

  ghost predicate Archives(es: seq<Saved>, key: (string, SqlValue))
    requires AllHaveId(es)
  {
    exists e :: e in es && KeyOf(e) == key
  }

  ghost predicate ArchivesColumn(es: seq<Saved>, key: (string, SqlValue), c: string)
    requires AllHaveId(es)
  {
    exists e :: e in es && KeyOf(e) == key && c in e.row
  }

  /** Rows under other keys stay as they are, and rows that are not archived do not appear. */
  lemma {:induction false} ReplaySparesOthers(db: Database, es: seq<Saved>, key: (string, SqlValue))
    requires AllHaveId(es) && !Archives(es, key)
    ensures key in Replay(db, es) <==> key in db
    ensures key in db ==> Replay(db, es)[key] == db[key]
  {
    if |es| > 0 {
      var n := |es| - 1;
      assert forall e | e in es[..n] :: e in es;
      ReplaySparesOthers(db, es[..n], key);
      assert es[n] in es;
    }
  }

  /** Columns the archive does not have stay as they are in rows that were there. */
  lemma {:induction false} ReplaySparesColumns(db: Database, es: seq<Saved>, key: (string, SqlValue), c: string)
    requires AllHaveId(es) && key in db && !ArchivesColumn(es, key, c)
    ensures key in Replay(db, es)
    ensures c in Replay(db, es)[key] <==> c in db[key]
    ensures c in db[key] ==> Replay(db, es)[key][c] == db[key][c]
  {
    if |es| > 0 {
      var n := |es| - 1;
      assert forall e | e in es[..n] :: e in es;
      ReplaySparesColumns(db, es[..n], key, c);
      assert es[n] in es;
    }
  }

  lemma PutStoredIsIdentity(db: Database, e: Saved)
    requires HasId(e) && Stored(db, e)
    ensures Put(db, e) == db
  {
    var key := KeyOf(e);
    assert db[key] + (e.row - {"id"}) == db[key];
  }

  /** Replaying what is already there changes nothing: the archive is the identity on the database it was taken from. */
  lemma {:induction false} ReplayIsIdentity(db: Database, es: seq<Saved>)
    requires AllHaveId(es) && forall e | e in es :: Stored(db, e)
    ensures Replay(db, es) == db
  {
    if |es| > 0 {
      var n := |es| - 1;
      assert forall e | e in es[..n] :: e in es;
      ReplayIsIdentity(db, es[..n]);
      PutStoredIsIdentity(db, es[n]);
    }
  }

  lemma ReplayIsIdempotent(db: Database, es: seq<Saved>)
    requires Keyed(db) && AllHaveId(es) && Consistent(es)
    ensures Replay(Replay(db, es), es) == Replay(db, es)
  {
    ReplayRestores(db, es);
    ReplayIsIdentity(Replay(db, es), es);
  }

  // ---- the rows of an archive --------------------------------------------

  function RowOf(columns: seq<string>, values: seq<SqlValue>): (row: Row)
    requires |columns| == |values|
    ensures forall c :: c in row <==> c in columns
  {
    if |columns| == 0 then map[]
    else
      var n := |columns| - 1;
      RowOf(columns[..n], values[..n])[columns[n] := values[n]]
  }

  predicate Carries(t: TableDump, row: seq<SqlValue>)
  {
    |row| == |t.columns| && "id" in t.columns && RowOf(t.columns, row)["id"] != Null
  }

  function RowsOf(t: TableDump, rows: seq<seq<SqlValue>>): (es: seq<Saved>)
    requires forall row | row in rows :: Carries(t, row)
    ensures |es| == |rows|
    ensures forall e | e in es :: HasId(e)
  {
    if |rows| == 0 then []
    else
      var n := |rows| - 1;
      assert Carries(t, rows[n]);
      RowsOf(t, rows[..n]) + [Saved(t.name, RowOf(t.columns, rows[n]))]
  }

  ghost predicate Carried(tables: seq<TableDump>)
  {
    forall t | t in tables :: Exportable(t) && forall row | row in t.rows :: Carries(t, row)
  }

  ghost function Entries(tables: seq<TableDump>): (es: seq<Saved>)
    requires Carried(tables)
    ensures AllHaveId(es)
  {
    if |tables| == 0 then []
    else
      var n := |tables| - 1;
      assert forall t | t in tables[..n] :: t in tables;
      assert tables[n] in tables;
      Entries(tables[..n]) + RowsOf(tables[n], tables[n].rows)
  }

  // ---- executing statements ----------------------------------------------

  /** An upsert without an id, or with a null one, fails; BEGIN and COMMIT run inside the restore's own transaction. */
  function Execute(db: Database, st: Statement): Option<Database>
  {
    match st
    case Begin => Some(db)
    case Commit => Some(db)
    case Upsert(table, columns, values) =>
      if |columns| != |values| || "id" !in columns || RowOf(columns, values)["id"] == Null then None
      else Some(Put(db, Saved(table, RowOf(columns, values))))
  }

  function ExecuteText(db: Database, text: string): Option<Database>
  {
    match ReadStatement(text)
    case None => None
    case Some(st) => Execute(db, st)
  }

  function ExecuteAll(db: Database, texts: seq<string>): Option<Database>
  {
    if |texts| == 0 then Some(db)
    else
      match ExecuteAll(db, texts[..|texts| - 1])
      case None => None
      case Some(sofar) => ExecuteText(sofar, texts[|texts| - 1])
  }

  datatype Restored = Restored(db: Database, statements: nat, success: bool)

  /** All statements in one transaction: if one fails, nothing is restored. */
  function RestoreText(db: Database, sql: string): Restored
  {
    match ExecuteAll(db, Statements(sql))
    case None => Restored(db, 0, false)
    case Some(after) => Restored(after, |Statements(sql)|, true)
  }

  /** Every statement before the n-th executes, each in the state the ones before it leave. */
  ghost predicate AllRun(db: Database, texts: seq<string>, n: nat)
    requires n <= |texts|
  {
    forall i | 0 <= i < n :: var sofar := ExecuteAll(db, texts[..i]); sofar.Some? && ExecuteText(sofar.value, texts[i]).Some?
  }

  lemma {:induction false} ExecutesIff(db: Database, texts: seq<string>, n: nat)
    requires n <= |texts|
    ensures ExecuteAll(db, texts[..n]).Some? <==> AllRun(db, texts, n)
  {
    if n > 0 {
      ExecutesIff(db, texts, n - 1);
      assert texts[..n][..n - 1] == texts[..n - 1];
      if AllRun(db, texts, n) {
        assert ExecuteText(ExecuteAll(db, texts[..n - 1]).value, texts[n - 1]).Some?;
      } else if AllRun(db, texts, n - 1) {
        assert ExecuteText(ExecuteAll(db, texts[..n - 1]).value, texts[n - 1]).None?;
      }
    }
  }

  /** A restore succeeds exactly when every statement executes in turn; otherwise the database is as it was. */
  lemma RestoresAllOrNothing(db: Database, sql: string)
    ensures var restored, texts := RestoreText(db, sql), Statements(sql);
      && (restored.success <==> AllRun(db, texts, |texts|))
      && (restored.success ==> ExecuteAll(db, texts) == Some(restored.db) && restored.statements == |texts|)
      && (!restored.success ==> restored == Restored(db, 0, false))
  {
    ExecutesIff(db, Statements(sql), |Statements(sql)|);
    assert Statements(sql)[..|Statements(sql)|] == Statements(sql);
  }

  // ---- from the database to text and back --------------------------------

  lemma RowExecutes(db: Database, t: TableDump, row: seq<SqlValue>)
    requires Exportable(t) && row in t.rows && Carries(t, row)
    ensures ExecuteText(db, InsertLine(t.name, t.columns, row))
            == Some(Put(db, Saved(t.name, RowOf(t.columns, row))))
  {
    LineReadsBack(t, row);
  }

  lemma {:induction false} ReplayConcat(db: Database, a: seq<Saved>, b: seq<Saved>)
    requires AllHaveId(a) && AllHaveId(b)
    ensures AllHaveId(a + b) && Replay(db, a + b) == Replay(Replay(db, a), b)
  {
    if |b| == 0 {
      assert a + b == a;
    } else {
      var n := |b| - 1;
      assert forall e | e in b[..n] :: e in b;
      ReplayConcat(db, a, b[..n]);
      assert (a + b)[..|a + b| - 1] == a + b[..n];
    }
  }

  lemma {:induction false} ExecuteConcat(db: Database, a: seq<string>, b: seq<string>)
    ensures ExecuteAll(db, a + b)
            == match ExecuteAll(db, a) case None => None case Some(mid) => ExecuteAll(mid, b)
  {
    if |b| == 0 {
      assert a + b == a;
    } else {
      var n := |b| - 1;
      ExecuteConcat(db, a, b[..n]);
      assert (a + b)[..|a + b| - 1] == a + b[..n];
    }
  }

  lemma {:induction false} RowsExecute(db: Database, t: TableDump, rows: seq<seq<SqlValue>>)
    requires Exportable(t) && forall row | row in rows :: row in t.rows && Carries(t, row)
    ensures ExecuteAll(db, InsertLines(t, rows)) == Some(Replay(db, RowsOf(t, rows)))
  {
    if |rows| > 0 {
      var n := |rows| - 1;
      RowsExecute(db, t, rows[..n]);
      RowExecutes(Replay(db, RowsOf(t, rows[..n])), t, rows[n]);
      assert InsertLines(t, rows)[..n] == InsertLines(t, rows[..n]);
      assert RowsOf(t, rows)[..n] == RowsOf(t, rows[..n]);
    }
  }

  lemma {:induction false} InsertsExecute(db: Database, tables: seq<TableDump>)
    requires Carried(tables)
    ensures ExecuteAll(db, Inserts(tables)) == Some(Replay(db, Entries(tables)))
  {
    if |tables| > 0 {
      var n := |tables| - 1;
      assert forall t | t in tables[..n] :: t in tables;
      assert tables[n] in tables;
      InsertsExecute(db, tables[..n]);
      var mid := Replay(db, Entries(tables[..n]));
      RowsExecute(mid, tables[n], tables[n].rows);
      ExecuteConcat(db, Inserts(tables[..n]), InsertLines(tables[n], tables[n].rows));
      ReplayConcat(db, Entries(tables[..n]), RowsOf(tables[n], tables[n].rows));
    }
  }

  lemma ControlExecutes(db: Database)
    ensures ExecuteAll(db, ["BEGIN;"]) == Some(db) && ExecuteAll(db, ["COMMIT;"]) == Some(db)
  {
    assert ["BEGIN;"][..0] == [] && ["COMMIT;"][..0] == [];
  }

  /** Restoring the text of an archive replays exactly its rows, and reports two statements more than rows. */
  lemma ArchiveRestores(db: Database, h: Header, tables: seq<TableDump>)
    requires HeaderClean(h) && TablesClean(tables) && Carried(tables)
    ensures RestoreText(db, ArchiveText(h, tables))
            == Restored(Replay(db, Entries(tables)), TotalRows(tables) + 2, true)
  {
    CleanArchiveSplits(h, tables);
    StatementsCount(h, tables);
    InsertsExecute(db, tables);
    ControlExecutes(db);
    ControlExecutes(Replay(db, Entries(tables)));
    ExecuteConcat(db, ["BEGIN;"] + Inserts(tables), ["COMMIT;"]);
    ExecuteConcat(db, ["BEGIN;"], Inserts(tables));
  }

  /** Restored into any later state, an archive puts back every archived row; on its own source it changes nothing. */
  lemma BackupBringsBack(source: Database, later: Database, h: Header, tables: seq<TableDump>)
    requires HeaderClean(h) && TablesClean(tables) && Carried(tables)
    requires Keyed(later) && forall e | e in Entries(tables) :: Stored(source, e)
    requires Consistent(Entries(tables))
    ensures forall e | e in Entries(tables) :: Stored(RestoreText(later, ArchiveText(h, tables)).db, e)
    ensures RestoreText(source, ArchiveText(h, tables)).db == source
  {
    ArchiveRestores(later, h, tables);
    ArchiveRestores(source, h, tables);
    ReplayRestores(later, Entries(tables));
    ReplayIsIdentity(source, Entries(tables));
  }
}
