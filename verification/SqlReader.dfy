/** Reading back an INSERT line of the archive: identifiers, literals and the conflict clause. */
module SqlReader {
  import opened Records
  import opened Texts
  import opened Archive

  // ---- literals ----------------------------------------------------------

  /** The rest of a character string literal, doubled quotes standing for one (ISO/IEC 9075-2, section 5.3). */
  function LexQuoted(s: string): Option<(string, string)>
  {
    if |s| == 0 then None
    else if s[0] != '\'' then
      match LexQuoted(s[1..])
      case None => None
      case Some(found) => Some(([s[0]] + found.0, found.1))
    else if |s| > 1 && s[1] == '\'' then
      match LexQuoted(s[2..])
      case None => None
      case Some(found) => Some(("'" + found.0, found.1))
    else Some(("", s[1..]))
  }

  predicate Delimiter(c: char) { c == ',' || c == ')' }

  /** A bare token, up to the comma or parenthesis that ends it. */
  function LexBare(s: string): (string, string)
  {
    if |s| == 0 || Delimiter(s[0]) then ("", s)
    else
      var found := LexBare(s[1..]);
      ([s[0]] + found.0, found.1)
  }

  function BareValue(token: string): SqlValue
  {
    if token == "NULL" then Null
    else if token == "TRUE" then Bool(true)
    else if token == "FALSE" then Bool(false)
    else Number(token)
  }

  const TIMESTAMP_CAST: string := "::timestamptz"
  const JSON_CAST: string := "::jsonb"

  function CastValue(content: string, rest: string): (SqlValue, string)
  {
    if Strip(rest, TIMESTAMP_CAST).Some? then (Instant(content), Strip(rest, TIMESTAMP_CAST).value)
    else if Strip(rest, JSON_CAST).Some? then (Json(content), Strip(rest, JSON_CAST).value)
    else (Text(content), rest)
  }

  function LexValue(s: string): Option<(SqlValue, string)>
  {
    if |s| > 0 && s[0] == '\'' then
      match LexQuoted(s[1..])
      case None => None
      case Some(found) => Some(CastValue(found.0, found.1))
    else
      var bare := LexBare(s);
      if bare.0 == "" then None else Some((BareValue(bare.0), bare.1))
  }

  /** A comma-separated list of `n` values. */
  function LexValues(s: string, n: nat): Option<(seq<SqlValue>, string)>
    decreases n
  {
    if n == 0 then Some(([], s))
    else
      match LexValue(s)
      case None => None
      case Some(first) =>
        if n == 1 then Some(([first.0], first.1))
        else
          match Strip(first.1, ", ")
          case None => None
          case Some(rest) =>
            match LexValues(rest, n - 1)
            case None => None
            case Some(more) => Some(([first.0] + more.0, more.1))
  }

  /** What the driver hands over: numbers and instants print without quotes, commas or parentheses. */
  predicate Printable(v: SqlValue)
  {
    match v
    case Number(digits) =>
      digits != "" && digits[0] != '\'' && (forall c | c in digits :: !Delimiter(c))
      && digits !in {"NULL", "TRUE", "FALSE"}
    case Instant(iso) => '\'' !in iso
    case _ => true
  }

  lemma {:induction false} EscapeReads(s: string, rest: string)
    requires |rest| > 0 && rest[0] != '\''
    ensures LexQuoted(Escape(s) + "'" + rest) == Some((s, rest))
  {
    var text := Escape(s) + "'" + rest;
    if |s| == 0 {
      assert text == "'" + rest;
      assert text[1..] == rest;
    } else {
      EscapeReads(s[1..], rest);
      var tail := Escape(s[1..]) + "'" + rest;
      assert s == [s[0]] + s[1..];
      if s[0] == '\'' {
        assert text == "''" + tail;
        assert text[2..] == tail;
      } else {
        assert text == [s[0]] + tail;
        assert text[1..] == tail;
      }
    }
  }

  lemma {:induction false} PlainIsEscaped(s: string)
    requires '\'' !in s
    ensures Escape(s) == s
  {
    if |s| > 0 {
      PlainIsEscaped(s[1..]);
      assert s == [s[0]] + s[1..];
    }
  }

  lemma {:induction false} BareReads(s: string, rest: string)
    requires |rest| > 0 && Delimiter(rest[0]) && forall c | c in s :: !Delimiter(c)
    ensures LexBare(s + rest) == (s, rest)
  {
    if |s| == 0 {
      assert s + rest == rest;
    } else {
      BareReads(s[1..], rest);
      assert (s + rest)[1..] == s[1..] + rest;
      assert s == [s[0]] + s[1..];
    }
  }

  lemma QuotedReads(content: string, after: string)
    requires |after| > 0 && after[0] != '\''
    ensures LexValue(Quoted(Escape(content)) + after) == Some(CastValue(content, after))
  {
    var s := Quoted(Escape(content)) + after;
    EscapeReads(content, after);
    assert s[1..] == Escape(content) + "'" + after;
  }

  lemma TokenReads(token: string, rest: string)
    requires |rest| > 0 && Delimiter(rest[0])
    requires token != "" && token[0] != '\'' && forall c | c in token :: !Delimiter(c)
    ensures LexValue(token + rest) == Some((BareValue(token), rest))
  {
    BareReads(token, rest);
    assert (token + rest)[0] == token[0];
  }

  lemma InstantReads(iso: string, rest: string)
    requires '\'' !in iso
    ensures LexValue(Quoted(iso) + TIMESTAMP_CAST + rest) == Some((Instant(iso), rest))
  {
    PlainIsEscaped(iso);
    QuotedReads(iso, TIMESTAMP_CAST + rest);
    StripConcat(TIMESTAMP_CAST, rest);
    assert Quoted(iso) + TIMESTAMP_CAST + rest == Quoted(iso) + (TIMESTAMP_CAST + rest);
  }

  lemma JsonReads(document: string, rest: string)
    ensures LexValue(Quoted(Escape(document)) + JSON_CAST + rest) == Some((Json(document), rest))
  {
    var after := JSON_CAST + rest;
    QuotedReads(document, after);
    StripConcat(JSON_CAST, rest);
    assert after[2] == 'j' && TIMESTAMP_CAST[2] == 't';
    assert Quoted(Escape(document)) + JSON_CAST + rest == Quoted(Escape(document)) + after;
  }

  lemma TextReads(text: string, rest: string)
    requires |rest| > 0 && Delimiter(rest[0])
    ensures LexValue(Quoted(Escape(text)) + rest) == Some((Text(text), rest))
  {
    QuotedReads(text, rest);
    assert rest[0] != TIMESTAMP_CAST[0] && rest[0] != JSON_CAST[0];
  }

  /** Every printed value reads back, whatever quotes, commas, parentheses or semicolons it holds. */
  lemma ValueReads(v: SqlValue, rest: string)
    requires Printable(v) && |rest| > 0 && Delimiter(rest[0])
    ensures LexValue(FormatSqlValue(v) + rest) == Some((v, rest))
  {
    match v {
      case Null => TokenReads("NULL", rest);
      case Bool(flag) =>
        if flag {
          TokenReads("TRUE", rest);
        } else {
          TokenReads("FALSE", rest);
        }
      case Number(digits) => TokenReads(digits, rest);
      case Instant(iso) => InstantReads(iso, rest);
      case Json(document) => JsonReads(document, rest);
      case Text(text) => TextReads(text, rest);
    }
  }

  lemma JoinMore(parts: seq<string>, separator: string, rest: string)
    requires |parts| > 1
    ensures Join(parts, separator) + rest == parts[0] + (separator + (Join(parts[1..], separator) + rest))
  {
  }

  lemma LexMore(s: string, n: nat, first: SqlValue, tail: string)
    requires n > 1 && LexValue(s) == Some((first, ", " + tail)) && LexValues(tail, n - 1).Some?
    ensures LexValues(s, n)
            == Some(([first] + LexValues(tail, n - 1).value.0, LexValues(tail, n - 1).value.1))
  {
    StripConcat(", ", tail);
  }

  lemma FormatMore(first: SqlValue, more: seq<SqlValue>, rest: string)
    requires |more| > 0
    ensures Join(FormatAll([first] + more), ", ") + rest
            == FormatSqlValue(first) + (", " + (Join(FormatAll(more), ", ") + rest))
  {
    assert ([first] + more)[1..] == more;
    assert FormatAll([first] + more)[1..] == FormatAll(more);
    JoinMore(FormatAll([first] + more), ", ", rest);
  }

  lemma OneValueReads(v: SqlValue, rest: string)
    requires Printable(v) && |rest| > 0 && Delimiter(rest[0])
    ensures LexValues(Join(FormatAll([v]), ", ") + rest, 1) == Some(([v], rest))
  {
    ValueReads(v, rest);
  }

  lemma MoreValuesRead(first: SqlValue, more: seq<SqlValue>, rest: string)
    requires Printable(first) && |more| > 0
    requires LexValues(Join(FormatAll(more), ", ") + rest, |more|) == Some((more, rest))
    ensures LexValues(Join(FormatAll([first] + more), ", ") + rest, |more| + 1) == Some(([first] + more, rest))
  {
    var tail := Join(FormatAll(more), ", ") + rest;
    FormatMore(first, more, rest);
    ValueReads(first, ", " + tail);
    LexMore(Join(FormatAll([first] + more), ", ") + rest, |more| + 1, first, tail);
  }

  /** The VALUES list of an INSERT line gives back every value. */
  lemma {:induction false} ValuesRead(values: seq<SqlValue>, rest: string)
    requires |values| > 0 && forall v | v in values :: Printable(v)
    requires |rest| > 0 && rest[0] == ')'
    ensures LexValues(Join(FormatAll(values), ", ") + rest, |values|) == Some((values, rest))
  {
    var more := values[1..];
    assert values == [values[0]] + more;
    if |values| == 1 {
      assert values == [values[0]];
      OneValueReads(values[0], rest);
    } else {
      ValuesRead(more, rest);
      MoreValuesRead(values[0], more, rest);
    }
  }

  // ---- identifiers -------------------------------------------------------

  function ReadName(s: string): Option<(string, string)>
  {
    match Strip(s, "\"")
    case None => None
    case Some(rest) => ReadTo(rest, '"')
  }

  function ReadNames(s: string): Option<(seq<string>, string)>
    decreases |s|
  {
    match ReadName(s)
    case None => None
    case Some(first) =>
      if |first.1| >= |s| || Strip(first.1, ", ").None? then Some(([first.0], first.1))
      else
        match ReadNames(Strip(first.1, ", ").value)
        case None => None
        case Some(more) => Some(([first.0] + more.0, more.1))
  }

  predicate PlainName(s: string) { '"' !in s }

  lemma NameReads(name: string, rest: string)
    requires PlainName(name)
    ensures ReadName(Name(name) + rest) == Some((name, rest))
  {
    var after := name + ['"'] + rest;
    assert Name(name) + rest == "\"" + after;
    StripConcat("\"", after);
    ReadToStop(name, '"', rest);
  }

  lemma {:induction false} NamesRead(names: seq<string>, rest: string)
    requires |names| > 0 && forall n | n in names :: PlainName(n)
    requires |rest| > 0 && rest[0] == ')'
    ensures ReadNames(Join(Names(names), ", ") + rest) == Some((names, rest))
  {
    if |names| == 1 {
      NameReads(names[0], rest);
      assert names == [names[0]];
    } else {
      var tail := Join(Names(names[1..]), ", ") + rest;
      assert Names(names)[1..] == Names(names[1..]);
      JoinMore(Names(names), ", ", rest);
      NameReads(names[0], ", " + tail);
      StripConcat(", ", tail);
      NamesRead(names[1..], rest);
      assert names == [names[0]] + names[1..];
    }
  }

  // ---- statements --------------------------------------------------------

  datatype Statement = Begin | Commit | Upsert(table: string, columns: seq<string>, values: seq<SqlValue>)

  /** The conflict clause must be the one the exporter prints for these columns, and must set something. */
  function ReadClause(table: string, columns: seq<string>, values: seq<SqlValue>, rest: string): Option<Statement>
  {
    if rest == OnConflict(columns) && Assignments(columns) != [] then Some(Upsert(table, columns, values)) else None
  }

  function ReadValues(table: string, columns: seq<string>, s: string): Option<Statement>
  {
    match Strip(s, VALUES)
    case None => None
    case Some(list) =>
      match LexValues(list, |columns|)
      case None => None
      case Some(values) => ReadClause(table, columns, values.0, values.1)
  }

  function ReadColumns(table: string, s: string): Option<Statement>
  {
    match Strip(s, " (")
    case None => None
    case Some(list) =>
      match ReadNames(list)
      case None => None
      case Some(columns) => ReadValues(table, columns.0, columns.1)
  }

  function ReadInsert(s: string): Option<Statement>
  {
    match Strip(s, INSERT)
    case None => None
    case Some(rest) =>
      match ReadName(rest)
      case None => None
      case Some(table) => ReadColumns(table.0, table.1)
  }

  function ReadStatement(s: string): Option<Statement>
  {
    if s == "BEGIN;" then Some(Begin) else if s == "COMMIT;" then Some(Commit) else ReadInsert(s)
  }

  /** A table the statements can carry: an id, at least one other column, and values that print. */
  ghost predicate Exportable(t: TableDump)
  {
    && PlainName(t.name) && (forall c | c in t.columns :: PlainName(c))
    && "id" in t.columns && Assignments(t.columns) != []
    && forall row | row in t.rows :: |row| == |t.columns| && forall v | v in row :: Printable(v)
  }

  lemma ClauseStarts(columns: seq<string>)
    ensures |OnConflict(columns)| > 0 && OnConflict(columns)[0] == ')'
  {
  }

  lemma ValuesReadBack(table: string, columns: seq<string>, row: seq<SqlValue>)
    requires |columns| > 0 && Assignments(columns) != []
    requires |row| == |columns| && forall v | v in row :: Printable(v)
    ensures ReadValues(table, columns, VALUES + (Join(FormatAll(row), ", ") + OnConflict(columns)))
            == Some(Upsert(table, columns, row))
  {
    ClauseStarts(columns);
    StripConcat(VALUES, Join(FormatAll(row), ", ") + OnConflict(columns));
    ValuesRead(row, OnConflict(columns));
  }

  lemma ColumnsReadBack(table: string, columns: seq<string>, rest: string)
    requires |columns| > 0 && forall c | c in columns :: PlainName(c)
    requires |rest| > 0 && rest[0] == ')'
    ensures ReadColumns(table, " (" + (Join(Names(columns), ", ") + rest)) == ReadValues(table, columns, rest)
  {
    StripConcat(" (", Join(Names(columns), ", ") + rest);
    NamesRead(columns, rest);
  }

  lemma TableReadsBack(name: string, rest: string)
    requires PlainName(name)
    ensures ReadInsert(INSERT + (Name(name) + rest)) == ReadColumns(name, rest)
  {
    StripConcat(INSERT, Name(name) + rest);
    NameReads(name, rest);
  }

  lemma InsertReadsBack(name: string, columns: seq<string>, row: seq<SqlValue>)
    requires PlainName(name) && |columns| > 0 && forall c | c in columns :: PlainName(c)
    requires Assignments(columns) != []
    requires |row| == |columns| && forall v | v in row :: Printable(v)
    ensures ReadInsert(InsertLine(name, columns, row)) == Some(Upsert(name, columns, row))
  {
    var values := VALUES + (Join(FormatAll(row), ", ") + OnConflict(columns));
    TableReadsBack(name, " (" + (Join(Names(columns), ", ") + values));
    ColumnsReadBack(name, columns, values);
    ValuesReadBack(name, columns, row);
  }

  /** An INSERT line of the archive reads back as the row it was printed from. */
  lemma LineReadsBack(t: TableDump, row: seq<SqlValue>)
    requires Exportable(t) && row in t.rows
    ensures ReadStatement(InsertLine(t.name, t.columns, row)) == Some(Upsert(t.name, t.columns, row))
  {
    InsertReadsBack(t.name, t.columns, row);
    InsertShape(t.name, t.columns, row);
  }
}
