/** The tenant backup archive: how rows are printed as SQL, and how the text splits back into statements. */
module Archive {
  import opened Sums
  import opened Texts

  // ---- values ------------------------------------------------------------

  datatype SqlValue =
    | Null
    | Bool(flag: bool)
    | Number(digits: string)
    | Instant(iso: string)
    | Json(document: string)
    | Text(text: string)

  /** Quotes inside a literal are doubled. */
  function Escape(s: string): string
  {
    if |s| == 0 then "" else (if s[0] == '\'' then "''" else [s[0]]) + Escape(s[1..])
  }

  function Quoted(s: string): string { "'" + s + "'" }

  function FormatSqlValue(v: SqlValue): string
  {
    match v
    case Null => "NULL"
    case Bool(flag) => if flag then "TRUE" else "FALSE"
    case Number(digits) => digits
    case Instant(iso) => Quoted(iso) + "::timestamptz"
    case Json(document) => Quoted(Escape(document)) + "::jsonb"
    case Text(text) => Quoted(Escape(text))
  }

  function FormatAll(values: seq<SqlValue>): (r: seq<string>)
    ensures |r| == |values|
  {
    if |values| == 0 then [] else [FormatSqlValue(values[0])] + FormatAll(values[1..])
  }

  // ---- tables ------------------------------------------------------------

  /** The rows of one table, each with a value for every column. */
  datatype TableDump = TableDump(name: string, columns: seq<string>, rows: seq<seq<SqlValue>>)

  datatype Header = Header(tenantId: string, tenantName: string, exportedAt: string)

  function Name(s: string): string { "\"" + s + "\"" }

  function Names(columns: seq<string>): (r: seq<string>)
    ensures |r| == |columns|
  {
    if |columns| == 0 then [] else [Name(columns[0])] + Names(columns[1..])
  }

  /** What an existing row takes from the archived one: every column but its id. */
  function Assignments(columns: seq<string>): seq<string>
  {
    if |columns| == 0 then []
    else
      (if columns[0] == "id" then [] else [Name(columns[0]) + " = EXCLUDED." + Name(columns[0])])
      + Assignments(columns[1..])
  }

  function NotId(): string -> bool { (c: string) => c != "id" }

  function Assigned(c: string): string { "\"" + c + "\" = EXCLUDED.\"" + c + "\"" }

  lemma {:induction false} AssignmentsAppend(columns: seq<string>, c: string)
    ensures Assignments(columns + [c]) == Assignments(columns) + Assignments([c])
  {
    if |columns| > 0 {
      assert (columns + [c])[1..] == columns[1..] + [c];
      AssignmentsAppend(columns[1..], c);
    }
  }

  lemma OneAssignment(c: string)
    ensures Assignments([c]) == if c == "id" then [] else [Assigned(c)]
  {
    assert [c][1..] == [];
    assert Name(c) + " = EXCLUDED." + Name(c) == Assigned(c);
  }

  /** The conflict clause assigns every column but the id from the archived row, once and in order. */
  lemma {:induction false} AssignsAllButId(columns: seq<string>)
    ensures var kept := Filter(columns, NotId());
      && |Assignments(columns)| == |kept|
      && forall k | 0 <= k < |kept| :: Assignments(columns)[k] == Assigned(kept[k])
  {
    if |columns| > 0 {
      var n := |columns| - 1;
      AssignsAllButId(columns[..n]);
      AssignmentsAppend(columns[..n], columns[n]);
      assert columns == columns[..n] + [columns[n]];
      OneAssignment(columns[n]);
    }
  }

  const INSERT: string := "INSERT INTO public."
  const VALUES: string := ") VALUES ("

  function OnConflict(columns: seq<string>): string
  {
    ") ON CONFLICT (\"id\") DO UPDATE SET " + Join(Assignments(columns), ", ") + ";"
  }

  function InsertLine(name: string, columns: seq<string>, row: seq<SqlValue>): string
  {
    INSERT + (Name(name) + (" (" + (Join(Names(columns), ", ")
    + (VALUES + (Join(FormatAll(row), ", ") + OnConflict(columns))))))
  }

  function InsertLines(t: TableDump, rows: seq<seq<SqlValue>>): (r: seq<string>)
    ensures |r| == |rows|
    ensures forall i | 0 <= i < |r| :: r[i] == InsertLine(t.name, t.columns, rows[i])
  {
    if |rows| == 0 then []
    else
      var n := |rows| - 1;
      InsertLines(t, rows[..n]) + [InsertLine(t.name, t.columns, rows[n])]
  }

  function Comment(s: string): string { "-- " + s }

  function TableComment(t: TableDump): string
  {
    Comment("Table: public." + Name(t.name) + " (" + Digits(|t.rows|) + " records)")
  }

  function TableChunks(t: TableDump): seq<string>
  {
    if t.rows == [] then [] else [TableComment(t)] + InsertLines(t, t.rows) + [""]
  }

  function AllChunks(tables: seq<TableDump>): seq<string>
  {
    if |tables| == 0 then []
    else
      var n := |tables| - 1;
      AllChunks(tables[..n]) + TableChunks(tables[n])
  }

  function TotalTables(tables: seq<TableDump>): nat
  {
    if |tables| == 0 then 0
    else
      var n := |tables| - 1;
      TotalTables(tables[..n]) + if tables[n].rows == [] then 0 else 1
  }

  function TotalRows(tables: seq<TableDump>): nat
  {
    if |tables| == 0 then 0
    else
      var n := |tables| - 1;
      TotalRows(tables[..n]) + |tables[n].rows|
  }

  /** Each counted table adds two lines to its rows, a comment and a blank; an empty table adds nothing. */
  lemma {:induction false} ChunksCount(tables: seq<TableDump>)
    ensures |AllChunks(tables)| == TotalRows(tables) + 2 * TotalTables(tables)
    ensures TotalTables(tables) <= |tables|
  {
    if |tables| > 0 {
      ChunksCount(tables[..|tables| - 1]);
    }
  }

  function Rule(n: nat): string { if n == 0 then "" else "=" + Rule(n - 1) }

  const MAGIC: string := "RESTORCH AUTOMATED TENANT BACKUP ARCHIVE"
  const ENGINE: string := "Engine: PostgreSQL"
  const FORMAT: string := "Format: Gzipped SQL Insert Stream"

  function TitleChunks(): seq<string> { [Comment(Rule(77)), Comment(MAGIC)] }

  function OriginChunks(h: Header): seq<string>
  {
    [Comment("Tenant ID: " + h.tenantId), Comment("Tenant Name: " + h.tenantName),
     Comment("Exported At: " + h.exportedAt)]
  }

  function FormatChunks(): seq<string>
  {
    [Comment(ENGINE), Comment(FORMAT), Comment(Rule(77)) + "\n"]
  }

  function HeaderChunks(h: Header): seq<string>
  {
    TitleChunks() + OriginChunks(h) + FormatChunks() + ["BEGIN;\n"]
  }

  function FooterText(tables: nat, rows: nat): string
  {
    "RESTORCH BACKUP COMPLETE: " + Digits(tables) + " tables, " + Digits(rows) + " rows."
  }

  function FooterChunks(tables: nat, rows: nat): seq<string>
  {
    ["COMMIT;\n", Comment(FooterText(tables, rows)) + "\n"]
  }

  function ArchiveChunks(h: Header, tables: seq<TableDump>): seq<string>
  {
    HeaderChunks(h) + AllChunks(tables) + FooterChunks(TotalTables(tables), TotalRows(tables))
  }

  function ArchiveText(h: Header, tables: seq<TableDump>): string { Join(ArchiveChunks(h, tables), "\n") }

  // ---- splitting ---------------------------------------------------------

  datatype Splitter = Splitter(statements: seq<string>, current: string)

  predicate Skipped(trimmed: string) { trimmed == "" || "--" <= trimmed }

  /** One line: blank and comment lines are dropped, a line that ends in a semicolon ends the statement. */
  function Feed(st: Splitter, line: string): Splitter
  {
    var trimmed := Trim(line);
    if Skipped(trimmed) then st
    else
      var current := st.current + (if st.current == "" then "" else " ") + trimmed;
      if EndsWith(trimmed, ';') then Splitter(st.statements + [current], "") else Splitter(st.statements, current)
  }

  function FeedAll(st: Splitter, lines: seq<string>): Splitter
  {
    if |lines| == 0 then st else Feed(FeedAll(st, lines[..|lines| - 1]), lines[|lines| - 1])
  }

  function Statements(sql: string): seq<string> { FeedAll(Splitter([], ""), SplitLines(sql)).statements }

  lemma {:induction false} FeedConcat(st: Splitter, a: seq<string>, b: seq<string>)
    ensures FeedAll(st, a + b) == FeedAll(FeedAll(st, a), b)
  {
    if |b| == 0 {
      assert a + b == a;
    } else {
      var n := |b| - 1;
      FeedConcat(st, a, b[..n]);
      assert (a + b)[..|a + b| - 1] == a + b[..n];
    }
  }

  lemma CommentSkipped(st: Splitter, s: string)
    ensures Feed(st, Comment(s)) == st
  {
    var line := Comment(s);
    assert line[0] == '-' && line[1] == '-';
    assert TrimStart(line) == line;
    TrimEndKeeps(line, 2);
    assert Trim(line)[..2] == line[..2] == "--";
  }

  lemma BlankSkipped(st: Splitter)
    ensures Feed(st, "") == st
  {
  }

  /** A line that begins visibly and ends in a semicolon is one statement, unchanged. */
  lemma StatementFed(st: Splitter, line: string)
    requires |line| > 0 && !IsSpace(line[0]) && line[0] != '-' && EndsWith(line, ';')
    requires st.current == ""
    ensures Feed(st, line) == Splitter(st.statements + [line], "")
  {
    assert Trim(line) == line;
    assert "" + "" + line == line;
  }

  // ---- the statements of an archive --------------------------------------

  ghost predicate HeaderClean(h: Header)
  {
    NoBreak(h.tenantId) && NoBreak(h.tenantName) && NoBreak(h.exportedAt)
  }

  ghost predicate RowsClean(t: TableDump)
  {
    forall row | row in t.rows :: NoBreak(InsertLine(t.name, t.columns, row))
  }

  ghost predicate TablesClean(tables: seq<TableDump>)
  {
    forall t | t in tables :: RowsClean(t)
  }

  function Inserts(tables: seq<TableDump>): seq<string>
  {
    if |tables| == 0 then []
    else
      var n := |tables| - 1;
      Inserts(tables[..n]) + InsertLines(tables[n], tables[n].rows)
  }

  function Expected(tables: seq<TableDump>): seq<string> { ["BEGIN;"] + Inserts(tables) + ["COMMIT;"] }

  lemma {:induction false} RuleNoBreak(n: nat)
    ensures NoBreak(Rule(n))
  {
    if n > 0 {
      RuleNoBreak(n - 1);
    }
  }

  lemma CommentFed(st: Splitter, s: string)
    requires NoBreak(s)
    ensures FeedAll(st, SplitLines(Comment(s))) == st
    ensures FeedAll(st, SplitLines(Comment(s) + "\n")) == st
  {
    OneLine(Comment(s));
    CommentSkipped(st, s);
    FeedOne(st, Comment(s));
    BreakAfter(st, Comment(s));
  }

  lemma FeedOne(st: Splitter, line: string)
    ensures FeedAll(st, [line]) == Feed(st, line)
  {
    assert [line][..0] == [];
  }

  lemma BreakAfter(st: Splitter, line: string)
    requires NoBreak(line)
    ensures FeedAll(st, SplitLines(line + "\n")) == Feed(st, line)
  {
    assert line + "\n" == line + "\n" + "";
    SplitAtBreak(line, "");
    OneLine(line);
    OneLine("");
    assert SplitLines(line + "\n") == [line, ""];
    FeedConcat(st, [line], [""]);
    FeedOne(st, line);
    FeedOne(Feed(st, line), "");
    BlankSkipped(Feed(st, line));
    assert [line] + [""] == [line, ""];
  }

  lemma InsertShape(name: string, columns: seq<string>, row: seq<SqlValue>)
    ensures var line := InsertLine(name, columns, row);
      |line| > 0 && line[0] == 'I' && EndsWith(line, ';')
  {
  }

  lemma {:induction false} InsertsFed(st: Splitter, t: TableDump, rows: seq<seq<SqlValue>>)
    requires st.current == "" && forall row | row in rows :: NoBreak(InsertLine(t.name, t.columns, row))
    ensures FeedAll(st, LinesOfAll(InsertLines(t, rows))) == Splitter(st.statements + InsertLines(t, rows), "")
  {
    if |rows| == 0 {
      assert st.statements + [] == st.statements;
    } else {
      var n := |rows| - 1;
      var line := InsertLine(t.name, t.columns, rows[n]);
      InsertsFed(st, t, rows[..n]);
      ChunkFed(st, InsertLines(t, rows[..n]), line);
      InsertShape(t.name, t.columns, rows[n]);
      StatementFed(Splitter(st.statements + InsertLines(t, rows[..n]), ""), line);
      OneLine(line);
      FeedOne(Splitter(st.statements + InsertLines(t, rows[..n]), ""), line);
      Associate(st.statements, InsertLines(t, rows[..n]), [line]);
    }
  }

  /** Feeding one more chunk. */
  lemma ChunkFed(st: Splitter, chunks: seq<string>, chunk: string)
    ensures FeedAll(st, LinesOfAll(chunks + [chunk])) == FeedAll(FeedAll(st, LinesOfAll(chunks)), SplitLines(chunk))
  {
    LinesOfAllConcat(chunks, [chunk]);
    assert LinesOfAll([chunk]) == SplitLines(chunk) by {
      assert [chunk][1..] == [];
      assert SplitLines(chunk) + [] == SplitLines(chunk);
    }
    FeedConcat(st, LinesOfAll(chunks), SplitLines(chunk));
  }

  lemma ChunksFed(st: Splitter, a: seq<string>, b: seq<string>)
    ensures FeedAll(st, LinesOfAll(a + b)) == FeedAll(FeedAll(st, LinesOfAll(a)), LinesOfAll(b))
  {
    LinesOfAllConcat(a, b);
    FeedConcat(st, LinesOfAll(a), LinesOfAll(b));
  }

  lemma SingleChunk(st: Splitter, chunk: string)
    ensures FeedAll(st, LinesOfAll([chunk])) == FeedAll(st, SplitLines(chunk))
  {
    ChunkFed(st, [], chunk);
    assert [] + [chunk] == [chunk];
  }

  lemma DigitsNoBreak(n: nat)
    ensures NoBreak(Digits(n))
  {
  }

  lemma NamePartOf(name: string, columns: seq<string>, row: seq<SqlValue>)
    requires NoBreak(InsertLine(name, columns, row))
    ensures NoBreak(name)
  {
    var rest := " (" + (Join(Names(columns), ", ")
                + (VALUES + (Join(FormatAll(row), ", ") + OnConflict(columns))));
    NoBreakConcat(INSERT, Name(name) + rest);
    NoBreakConcat(Name(name), rest);
    NoBreakConcat("\"" + name, "\"");
    NoBreakConcat("\"", name);
  }

  lemma TableCommentClean(t: TableDump)
    requires NoBreak(t.name)
    ensures NoBreak("Table: public." + Name(t.name) + " (" + Digits(|t.rows|) + " records)")
  {
    DigitsNoBreak(|t.rows|);
  }

  lemma TableFed(st: Splitter, t: TableDump)
    requires st.current == "" && RowsClean(t)
    ensures FeedAll(st, LinesOfAll(TableChunks(t))) == Splitter(st.statements + InsertLines(t, t.rows), "")
  {
    if t.rows == [] {
      assert st.statements + [] == st.statements;
    } else {
      var inserts := InsertLines(t, t.rows);
      NamePartOf(t.name, t.columns, t.rows[0]);
      TableCommentClean(t);
      ChunksFed(st, [TableComment(t)] + inserts, [""]);
      ChunksFed(st, [TableComment(t)], inserts);
      SingleChunk(st, TableComment(t));
      CommentFed(st, "Table: public." + Name(t.name) + " (" + Digits(|t.rows|) + " records)");
      InsertsFed(st, t, t.rows);
      var after := Splitter(st.statements + inserts, "");
      SingleChunk(after, "");
      FeedOne(after, "");
      BlankSkipped(after);
    }
  }

  lemma {:induction false} TablesFed(st: Splitter, tables: seq<TableDump>)
    requires st.current == "" && TablesClean(tables)
    ensures FeedAll(st, LinesOfAll(AllChunks(tables))) == Splitter(st.statements + Inserts(tables), "")
  {
    if |tables| == 0 {
      assert st.statements + [] == st.statements;
    } else {
      var n := |tables| - 1;
      TablesFed(st, tables[..n]);
      ChunksFed(st, AllChunks(tables[..n]), TableChunks(tables[n]));
      TableFed(Splitter(st.statements + Inserts(tables[..n]), ""), tables[n]);
      Associate(st.statements, Inserts(tables[..n]), InsertLines(tables[n], tables[n].rows));
    }
  }

  lemma CommentChunk(st: Splitter, s: string)
    requires NoBreak(s)
    ensures FeedAll(st, LinesOfAll([Comment(s)])) == st
    ensures FeedAll(st, LinesOfAll([Comment(s) + "\n"])) == st
  {
    SingleChunk(st, Comment(s));
    SingleChunk(st, Comment(s) + "\n");
    CommentFed(st, s);
  }

  lemma StatementChunk(st: Splitter, line: string)
    requires |line| > 0 && !IsSpace(line[0]) && line[0] != '-' && EndsWith(line, ';') && NoBreak(line)
    requires st.current == ""
    ensures FeedAll(st, LinesOfAll([line + "\n"])) == Splitter(st.statements + [line], "")
  {
    SingleChunk(st, line + "\n");
    BreakAfter(st, line);
    StatementFed(st, line);
  }

  /** A chunk that changes nothing, after chunks that change nothing. */
  lemma InertMore(st: Splitter, chunks: seq<string>, chunk: string)
    requires FeedAll(st, LinesOfAll(chunks)) == st && FeedAll(st, LinesOfAll([chunk])) == st
    ensures FeedAll(st, LinesOfAll(chunks + [chunk])) == st
  {
    ChunksFed(st, chunks, [chunk]);
  }

  lemma ThreeComments(st: Splitter, a: string, b: string, c: string)
    requires NoBreak(a) && NoBreak(b) && NoBreak(c)
    ensures FeedAll(st, LinesOfAll([Comment(a), Comment(b)])) == st
    ensures FeedAll(st, LinesOfAll([Comment(a), Comment(b), Comment(c)])) == st
    ensures FeedAll(st, LinesOfAll([Comment(a), Comment(b), Comment(c) + "\n"])) == st
  {
    CommentChunk(st, a);
    CommentChunk(st, b);
    CommentChunk(st, c);
    InertMore(st, [Comment(a)], Comment(b));
    assert [Comment(a)] + [Comment(b)] == [Comment(a), Comment(b)];
    InertMore(st, [Comment(a), Comment(b)], Comment(c));
    assert [Comment(a), Comment(b)] + [Comment(c)] == [Comment(a), Comment(b), Comment(c)];
    InertMore(st, [Comment(a), Comment(b)], Comment(c) + "\n");
    assert [Comment(a), Comment(b)] + [Comment(c) + "\n"] == [Comment(a), Comment(b), Comment(c) + "\n"];
  }

  lemma MagicNoBreak()
    ensures NoBreak(MAGIC)
  {
  }

  lemma TitleFed(st: Splitter)
    ensures FeedAll(st, LinesOfAll(TitleChunks())) == st
  {
    RuleNoBreak(77);
    MagicNoBreak();
    ThreeComments(st, Rule(77), MAGIC, "");
  }

  lemma OriginFed(st: Splitter, h: Header)
    requires HeaderClean(h)
    ensures FeedAll(st, LinesOfAll(OriginChunks(h))) == st
  {
    ThreeComments(st, "Tenant ID: " + h.tenantId, "Tenant Name: " + h.tenantName, "Exported At: " + h.exportedAt);
  }

  lemma EngineNoBreak()
    ensures NoBreak(ENGINE)
  {
  }

  lemma FormatNoBreak()
    ensures NoBreak(FORMAT)
  {
  }

  lemma FormatFed(st: Splitter)
    ensures FeedAll(st, LinesOfAll(FormatChunks())) == st
  {
    RuleNoBreak(77);
    EngineNoBreak();
    FormatNoBreak();
    ThreeComments(st, ENGINE, FORMAT, Rule(77));
  }

  lemma HeaderFed(h: Header)
    requires HeaderClean(h)
    ensures FeedAll(Splitter([], ""), LinesOfAll(HeaderChunks(h))) == Splitter(["BEGIN;"], "")
  {
    var st := Splitter([], "");
    TitleFed(st);
    OriginFed(st, h);
    FormatFed(st);
    BeginFed(st);
    ChunksFed(st, TitleChunks(), OriginChunks(h));
    ChunksFed(st, TitleChunks() + OriginChunks(h), FormatChunks());
    ChunksFed(st, TitleChunks() + OriginChunks(h) + FormatChunks(), ["BEGIN;\n"]);
  }

  lemma BeginFed(st: Splitter)
    requires st == Splitter([], "")
    ensures FeedAll(st, LinesOfAll(["BEGIN;\n"])) == Splitter(["BEGIN;"], "")
  {
    StatementChunk(st, "BEGIN;");
    assert "BEGIN;" + "\n" == "BEGIN;\n";
  }

  lemma FooterNoBreak(tables: nat, rows: nat)
    ensures NoBreak(FooterText(tables, rows))
  {
    var t, n := Digits(tables), Digits(rows);
    DigitsNoBreak(tables);
    DigitsNoBreak(rows);
    NoBreakConcat("RESTORCH BACKUP COMPLETE: ", t);
    NoBreakConcat("RESTORCH BACKUP COMPLETE: " + t, " tables, ");
    NoBreakConcat("RESTORCH BACKUP COMPLETE: " + t + " tables, ", n);
    NoBreakConcat("RESTORCH BACKUP COMPLETE: " + t + " tables, " + n, " rows.");
  }

  lemma CommitFed(st: Splitter, closing: string)
    requires st.current == "" && NoBreak(closing)
    ensures FeedAll(st, LinesOfAll(["COMMIT;\n", Comment(closing) + "\n"]))
            == Splitter(st.statements + ["COMMIT;"], "")
  {
    var after := Splitter(st.statements + ["COMMIT;"], "");
    StatementChunk(st, "COMMIT;");
    CommentChunk(after, closing);
    ChunksFed(st, ["COMMIT;\n"], [Comment(closing) + "\n"]);
    assert "COMMIT;" + "\n" == "COMMIT;\n";
    assert ["COMMIT;\n"] + [Comment(closing) + "\n"] == ["COMMIT;\n", Comment(closing) + "\n"];
  }

  lemma FooterFed(st: Splitter, tables: nat, rows: nat)
    requires st.current == ""
    ensures FeedAll(st, LinesOfAll(FooterChunks(tables, rows))) == Splitter(st.statements + ["COMMIT;"], "")
  {
    FooterNoBreak(tables, rows);
    CommitFed(st, FooterText(tables, rows));
  }

  /** A clean archive splits into BEGIN, its INSERT lines in order, and COMMIT. */
  lemma CleanArchiveSplits(h: Header, tables: seq<TableDump>)
    requires HeaderClean(h) && TablesClean(tables)
    ensures Statements(ArchiveText(h, tables)) == Expected(tables)
  {
    var st := Splitter([], "");
    var body := HeaderChunks(h) + AllChunks(tables);
    SplitJoined(ArchiveChunks(h, tables));
    ChunksFed(st, body, FooterChunks(TotalTables(tables), TotalRows(tables)));
    ChunksFed(st, HeaderChunks(h), AllChunks(tables));
    HeaderFed(h);
    TablesFed(Splitter(["BEGIN;"], ""), tables);
    FooterFed(Splitter(["BEGIN;"] + Inserts(tables), ""), TotalTables(tables), TotalRows(tables));
  }

  lemma {:induction false} TrimNoBreak(s: string)
    requires NoBreak(s)
    ensures NoBreak(Trim(s))
  {
    TrimStartPart(s);
    TrimEndPart(TrimStart(s));
  }

  lemma {:induction false} TrimStartPart(s: string)
    ensures forall c | c in TrimStart(s) :: c in s
  {
    if |s| > 0 && IsSpace(s[0]) {
      TrimStartPart(s[1..]);
    }
  }

  lemma {:induction false} TrimEndPart(s: string)
    ensures forall c | c in TrimEnd(s) :: c in s
  {
    if |s| > 0 && IsSpace(s[|s| - 1]) {
      TrimEndPart(s[..|s| - 1]);
    }
  }

  lemma {:induction false} FedHasNoBreak(st: Splitter, lines: seq<string>)
    requires NoBreak(st.current) && forall x | x in st.statements :: NoBreak(x)
    requires forall line | line in lines :: NoBreak(line)
    ensures NoBreak(FeedAll(st, lines).current) && forall x | x in FeedAll(st, lines).statements :: NoBreak(x)
  {
    if |lines| > 0 {
      FedHasNoBreak(st, lines[..|lines| - 1]);
      TrimNoBreak(lines[|lines| - 1]);
    }
  }

  /** No statement the splitter returns holds a line feed. */
  lemma StatementsHaveNoBreak(sql: string)
    ensures forall x | x in Statements(sql) :: NoBreak(x)
  {
    LinesHaveNoBreak(sql);
    FedHasNoBreak(Splitter([], ""), SplitLines(sql));
  }

  lemma {:induction false} InsertsInclude(tables: seq<TableDump>, t: TableDump, row: seq<SqlValue>)
    requires t in tables && row in t.rows
    ensures InsertLine(t.name, t.columns, row) in Inserts(tables)
  {
    var n := |tables| - 1;
    if t == tables[n] {
      var i :| 0 <= i < |t.rows| && t.rows[i] == row;
      assert InsertLines(t, t.rows)[i] in InsertLines(t, t.rows);
    } else {
      InsertsInclude(tables[..n], t, row);
    }
  }

  /**
   The splitter gives back BEGIN, the INSERT lines in order and COMMIT exactly when no INSERT line holds a line
   feed.
   */
  lemma SplitsBackIff(h: Header, tables: seq<TableDump>)
    requires HeaderClean(h)
    ensures Statements(ArchiveText(h, tables)) == Expected(tables) <==> TablesClean(tables)
  {
    if TablesClean(tables) {
      CleanArchiveSplits(h, tables);
    } else {
      var t :| t in tables && !RowsClean(t);
      var row :| row in t.rows && !NoBreak(InsertLine(t.name, t.columns, row));
      InsertsInclude(tables, t, row);
      StatementsHaveNoBreak(ArchiveText(h, tables));
    }
  }

  lemma {:induction false} InsertsCount(tables: seq<TableDump>)
    ensures |Inserts(tables)| == TotalRows(tables)
  {
    if |tables| > 0 {
      InsertsCount(tables[..|tables| - 1]);
    }
  }

  /** So the restorer counts two statements more than the exporter counted rows. */
  lemma StatementsCount(h: Header, tables: seq<TableDump>)
    requires HeaderClean(h) && TablesClean(tables)
    ensures |Statements(ArchiveText(h, tables))| == TotalRows(tables) + 2
  {
    CleanArchiveSplits(h, tables);
    InsertsCount(tables);
  }
}
