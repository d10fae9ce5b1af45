/** The exporter and the restorer, as loops that push chunks, gather lines and execute statements in order. */
module BackupServices {
  import opened Records
  import opened Texts
  import opened Archive
  import opened Restore

  class TenantExporter {
    var sqlChunks: seq<string>
    var totalTables: nat
    var totalRows: nat

    constructor ()
      ensures sqlChunks == [] && totalTables == 0 && totalRows == 0
    {
      sqlChunks, totalTables, totalRows := [], 0, 0;
    }

    method PushRecords(t: TableDump)
      modifies `sqlChunks
      ensures sqlChunks == old(sqlChunks) + InsertLines(t, t.rows)
    {
      var lines: seq<string> := [];
      for i := 0 to |t.rows|
        invariant lines == InsertLines(t, t.rows[..i]) && sqlChunks == old(sqlChunks) + lines
      {
        assert t.rows[..i + 1][..i] == t.rows[..i];
        var line := InsertLine(t.name, t.columns, t.rows[i]);
        lines := lines + [line];
        sqlChunks := sqlChunks + [line];
      }
      assert t.rows[..|t.rows|] == t.rows;
    }

    /** One comment, one INSERT per record and a blank line; nothing at all for an empty table. */
    method AppendTableInserts(t: TableDump)
      modifies this
      ensures sqlChunks == old(sqlChunks) + TableChunks(t)
      ensures totalTables == old(totalTables) + (if t.rows == [] then 0 else 1)
      ensures totalRows == old(totalRows) + |t.rows|
    {
      if |t.rows| == 0 {
        return;
      }
      totalTables := totalTables + 1;
      totalRows := totalRows + |t.rows|;
      var heading := TableComment(t);
      sqlChunks := sqlChunks + [heading];
      PushRecords(t);
      sqlChunks := sqlChunks + [""];
      PushedInOrder(old(sqlChunks), [heading], InsertLines(t, t.rows), [""]);
    }

    method AppendTables(tables: seq<TableDump>)
      requires totalTables == 0 && totalRows == 0
      modifies this
      ensures sqlChunks == old(sqlChunks) + AllChunks(tables)
      ensures totalTables == TotalTables(tables) && totalRows == TotalRows(tables)
    {
      for i := 0 to |tables|
        invariant sqlChunks == old(sqlChunks) + AllChunks(tables[..i])
        invariant totalTables == TotalTables(tables[..i]) && totalRows == TotalRows(tables[..i])
      {
        TablesMore(old(sqlChunks), tables, i);
        AppendTableInserts(tables[i]);
      }
      assert tables[..|tables|] == tables;
    }

    method ExportTenantData(h: Header, tables: seq<TableDump>) returns (sql: string)
      requires sqlChunks == [] && totalTables == 0 && totalRows == 0
      modifies this
      ensures sql == ArchiveText(h, tables)
      ensures totalTables == TotalTables(tables) && totalRows == TotalRows(tables)
    {
      sqlChunks := HeaderChunks(h);
      AppendTables(tables);
      sqlChunks := sqlChunks + FooterChunks(totalTables, totalRows);
      sql := Join(sqlChunks, "\n");
    }
  }

  class TenantRestorer {
    var db: Database

    constructor (db: Database)
      ensures this.db == db
    {
      this.db := db;
    }

    /** Gathers trimmed lines until one ends in a semicolon; an unfinished statement at the end is dropped. */
    method SplitStatements(sql: string) returns (statements: seq<string>)
      ensures statements == Statements(sql)
    {
      var lines := SplitLines(sql);
      statements := [];
      var currentStmt := "";
      for i := 0 to |lines|
        invariant Splitter(statements, currentStmt) == FeedAll(Splitter([], ""), lines[..i])
      {
        assert lines[..i + 1][..i] == lines[..i];
        var trimmed := Trim(lines[i]);
        if !(trimmed == "" || "--" <= trimmed) {
          currentStmt := currentStmt + (if currentStmt == "" then "" else " ") + trimmed;
          if EndsWith(trimmed, ';') {
            statements := statements + [currentStmt];
            currentStmt := "";
          }
        }
      }
      assert lines[..|lines|] == lines;
    }

    /** Executes the statements in order; the first failure rolls the transaction back. */
    method RestoreFromArchive(sql: string) returns (statementsCount: nat, success: bool)
      modifies this
      ensures Restored(db, statementsCount, success) == RestoreText(old(db), sql)
    {
      var statements := SplitStatements(sql);
      var before := db;
      for i := 0 to |statements|
        invariant ExecuteAll(before, statements[..i]) == Some(db)
      {
        assert statements[..i + 1][..i] == statements[..i];
        var executed := ExecuteText(db, statements[i]);
        if executed.None? {
          FailureStays(before, statements, i + 1);
          db := before;
          return 0, false;
        }
        db := executed.value;
      }
      assert statements[..|statements|] == statements;
      return |statements|, true;
    }
  }

  lemma PushedInOrder(start: seq<string>, a: seq<string>, b: seq<string>, c: seq<string>)
    ensures start + a + b + c == start + (a + b + c)
  {
  }

  lemma TablesMore(start: seq<string>, tables: seq<TableDump>, i: nat)
    requires i < |tables|
    ensures start + AllChunks(tables[..i]) + TableChunks(tables[i]) == start + AllChunks(tables[..i + 1])
    ensures TotalTables(tables[..i + 1]) == TotalTables(tables[..i]) + (if tables[i].rows == [] then 0 else 1)
    ensures TotalRows(tables[..i + 1]) == TotalRows(tables[..i]) + |tables[i].rows|
  {
    assert tables[..i + 1][..i] == tables[..i];
    Associate(start, AllChunks(tables[..i]), TableChunks(tables[i]));
  }

  lemma FailureStays(db: Database, statements: seq<string>, n: nat)
    requires n <= |statements| && ExecuteAll(db, statements[..n]).None?
    ensures ExecuteAll(db, statements).None?
  {
    ExecuteConcat(db, statements[..n], statements[n..]);
    assert statements[..n] + statements[n..] == statements;
  }
}
