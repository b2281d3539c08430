/** The response formatter: the card, documentation and table renderings of
    a result frame, and the rule-based answers to documentation questions
    over a schema. */
module ResponseFormatter {
  import opened Common
  import opened Text
  import opened Schemas
  import opened Frames
  import DataProcessor

  /** The bullet that starts every list line. */
  const Bullet := "\U{2022} "

  /** Prefixing the bullet keeps a line free of newlines. */
  lemma BulletLineFree(s: string)
    requires SeparatorFree(s, Char('\n'))
    ensures SeparatorFree(Bullet + s, Char('\n'))
  {
    var b := Bullet + s;
    forall j | 0 <= j < |b| ensures !IsSeparator(Char('\n'), b[j]) {
      if j >= |Bullet| {
        assert b[j] == s[j - |Bullet|];
      }
    }
  }

  /** Lines joined by newlines split back into the same lines. */
  lemma LinesOfJoin(lines: seq<string>)
    requires |lines| >= 1
    requires forall i :: 0 <= i < |lines| ==> SeparatorFree(lines[i], Char('\n'))
    ensures Fields(Join("\n", lines), Char('\n')) == lines
  {
    assert ['\n'] == "\n";
    FieldsOfJoin(lines, '\n');
  }

  // ---------------------------------------------------------------------
  // Cards

  /** `format_card_response`, the loop over the columns followed by the cut
      to four cards; it is the data processor's card rendering. */
  method FormatCardResponse(f: Frame) returns (cards: Option<seq<DataProcessor.Card>>)
    requires Rectangular(f)
    ensures cards == DataProcessor.FormatCardResponse(f)
  {
    if Empty(f) {
      return None;
    }
    if |f.rows| == 1 && |f.columns| == 1 {
      return Some([DataProcessor.Card("Result", DataProcessor.Cell(f.rows[0][0]))]);
    }
    var all: seq<DataProcessor.Card> := [];
    var k := 0;
    while k < |f.columns|
      invariant 0 <= k <= |f.columns| && |all| == k
      invariant forall j :: 0 <= j < k ==> all[j] == DataProcessor.ColumnCard(f, j)
    {
      all := all + [DataProcessor.ColumnCard(f, k)];
      k := k + 1;
    }
    assert all == seq(|f.columns|, j requires 0 <= j < |f.columns| => DataProcessor.ColumnCard(f, j));
    return Some(PyTake(all, DataProcessor.MaxCards));
  }

  // ---------------------------------------------------------------------
  // Documentation-shaped results

  const NoDocumentation := "I couldn't find any database documentation matching your query. Could you please be more specific about what you're looking for?"
  const ColumnsHeader := "Here are the columns:\n\n"
  const FoundHeader := "Here's what I found:\n\n"

  /** `I found **N** tables in the database:` and a blank line. */
  function TableCountHeader(n: nat): string {
    "I found **" + NatToString(n) + "** tables in the database:\n\n"
  }

  /** One bullet per row, holding the row's first cell. */
  function FirstCellBullets(f: Frame): (r: seq<string>)
    requires Rectangular(f) && |f.columns| > 0
    ensures |r| == |f.rows|
  {
    seq(|f.rows|, i requires 0 <= i < |f.rows| => Bullet + f.rows[i][0])
  }

  /** A column row: the name in bold, then the type in parentheses when the
      row has a non-empty second cell. */
  function ColumnBullet(row: seq<string>): string
    requires |row| > 0
  {
    var typ := if |row| > 1 then row[1] else "";
    if typ != "" then Bullet + "**" + row[0] + "** (" + typ + ")" else Bullet + "**" + row[0] + "**"
  }

  /** A generic row: the single cell, or the first cell in bold and the
      second after a colon. */
  function RowBullet(row: seq<string>): string
    requires |row| > 0
  {
    if |row| == 1 then Bullet + row[0] else Bullet + "**" + row[0] + "**: " + row[1]
  }

  function ColumnBullets(f: Frame): (r: seq<string>)
    requires Rectangular(f) && |f.columns| > 0
    ensures |r| == |f.rows|
  {
    seq(|f.rows|, i requires 0 <= i < |f.rows| => ColumnBullet(f.rows[i]))
  }

  function RowBullets(f: Frame): (r: seq<string>)
    requires Rectangular(f) && |f.columns| > 0
    ensures |r| == |f.rows|
  {
    seq(|f.rows|, i requires 0 <= i < |f.rows| => RowBullet(f.rows[i]))
  }

  /** `format_database_documentation_response`. `narrate` is the language
      model's plain-text answer for the frame, which the formatter falls
      back to for a single row of several columns. */
  function FormatDatabaseDocumentationResponse(f: Frame, question: string, narrate: Frame -> string): (r: string)
    requires Rectangular(f)
    ensures Empty(f) ==> r == NoDocumentation
    ensures !Empty(f) && |f.rows| > 1 ==>
      StartsWith(r, TableCountHeader(|f.rows|)) || StartsWith(r, ColumnsHeader) || StartsWith(r, FoundHeader)
  {
    var q := Lower(question);
    if Empty(f) then NoDocumentation
    else if Contains(q, "table") && |f.rows| > 1 then
      TableCountHeader(|f.rows|) + Join("\n", FirstCellBullets(f))
    else if Contains(q, "column") && |f.rows| > 1 then
      ColumnsHeader + Join("\n", ColumnBullets(f))
    else if |f.rows| == 1 && |f.columns| == 1 then
      "**" + f.rows[0][0] + "**"
    else if |f.rows| > 1 then
      FoundHeader + Join("\n", RowBullets(f))
    else narrate(f)
  }

  /** A question about tables over several rows gets one bullet per row,
      holding the row's first cell, under a header whose number reads back
      as the row count. */
  lemma DocumentationTableListing(f: Frame, question: string, narrate: Frame -> string)
    requires Rectangular(f) && !Empty(f) && |f.rows| > 1
    requires Contains(Lower(question), "table")
    requires forall i :: 0 <= i < |f.rows| ==> SeparatorFree(f.rows[i][0], Char('\n'))
    ensures var r := FormatDatabaseDocumentationResponse(f, question, narrate);
      var header := TableCountHeader(|f.rows|);
      && StartsWith(r, header)
      && DigitsValue(NatToString(|f.rows|)) == |f.rows|
      && var lines := Fields(r[|header|..], Char('\n'));
         && |lines| == |f.rows|
         && (forall i :: 0 <= i < |f.rows| ==> lines[i] == Bullet + f.rows[i][0])
  {
    var bullets := FirstCellBullets(f);
    forall i | 0 <= i < |bullets| ensures SeparatorFree(bullets[i], Char('\n')) {
      BulletLineFree(f.rows[i][0]);
    }
    LinesOfJoin(bullets);
    var header := TableCountHeader(|f.rows|);
    var r := header + Join("\n", bullets);
    assert r[|header|..] == Join("\n", bullets);
    NatToStringRoundTrip(|f.rows|);
  }

  /** A question about columns (and not tables) over several rows gets one
      line per row: the bold name, with the type in parentheses exactly when
      the row carries a non-empty type. */
  lemma DocumentationColumnListing(f: Frame, question: string, narrate: Frame -> string)
    requires Rectangular(f) && !Empty(f) && |f.rows| > 1
    requires !Contains(Lower(question), "table") && Contains(Lower(question), "column")
    ensures var r := FormatDatabaseDocumentationResponse(f, question, narrate);
      && StartsWith(r, ColumnsHeader)
      && r[|ColumnsHeader|..] == Join("\n", ColumnBullets(f))
      && forall i :: 0 <= i < |f.rows| ==>
           var line := ColumnBullets(f)[i];
           && StartsWith(line, Bullet + "**" + f.rows[i][0] + "**")
           && (EndsWith(line, ")") <== |f.columns| > 1 && f.rows[i][1] != "")
           && (line == Bullet + "**" + f.rows[i][0] + "**" <==> |f.columns| == 1 || f.rows[i][1] == "")
  {
    var r := FormatDatabaseDocumentationResponse(f, question, narrate);
    assert r == ColumnsHeader + Join("\n", ColumnBullets(f));
    assert r[..|ColumnsHeader|] == ColumnsHeader;
    forall i | 0 <= i < |f.rows|
      ensures var line := ColumnBullets(f)[i];
        && StartsWith(line, Bullet + "**" + f.rows[i][0] + "**")
        && (EndsWith(line, ")") <== |f.columns| > 1 && f.rows[i][1] != "")
        && (line == Bullet + "**" + f.rows[i][0] + "**" <==> |f.columns| == 1 || f.rows[i][1] == "")
    {
      assert ColumnBullets(f)[i] == ColumnBullet(f.rows[i]);
      ColumnBulletShape(f.rows[i]);
    }
  }

  lemma ColumnBulletShape(row: seq<string>)
    requires |row| > 0
    ensures var line := ColumnBullet(row);
      var head := Bullet + "**" + row[0] + "**";
      && StartsWith(line, head)
      && (EndsWith(line, ")") <== |row| > 1 && row[1] != "")
      && (line == head <==> |row| == 1 || row[1] == "")
  {
    var head := Bullet + "**" + row[0] + "**";
    var line := ColumnBullet(row);
    if |row| > 1 && row[1] != "" {
      assert line == head + (" (" + row[1] + ")");
      assert |line| > |head|;
      assert line[|line| - 1] == ')';
    } else {
      assert line == head;
    }
    assert line[..|head|] == head;
  }

  /** A single value is shown in bold whatever the question. */
  lemma DocumentationSingleValue(f: Frame, question: string, narrate: Frame -> string)
    requires Rectangular(f) && |f.rows| == 1 && |f.columns| == 1
    ensures FormatDatabaseDocumentationResponse(f, question, narrate) == "**" + f.rows[0][0] + "**"
  {
  }

  /** The language model is consulted exactly for one row of several
      columns. */
  lemma DocumentationNarratesOnlyOneWideRow(f: Frame, question: string)
    requires Rectangular(f)
    ensures (forall narrate: Frame -> string {:trigger narrate(f)} ::
               FormatDatabaseDocumentationResponse(f, question, narrate) == narrate(f))
        <== (|f.rows| == 1 && |f.columns| > 1)
    ensures FormatDatabaseDocumentationResponse(f, question, _ => "a")
        == FormatDatabaseDocumentationResponse(f, question, _ => "b")
      <==> !(|f.rows| == 1 && |f.columns| > 1)
  {
  }

  // ---------------------------------------------------------------------
  // Table-shaped results

  /** A record: each column name paired with the row's cell. */
  datatype TableResponse = Message(text: string) | Records(records: seq<seq<(string, string)>>)

  const NoData := "No data found."

  /** `format_table_response`: a message for an empty frame, otherwise one
      record per row. */
  function FormatTableResponse(f: Frame): (r: TableResponse)
    requires Rectangular(f)
    ensures r.Message? <==> Empty(f)
    ensures r.Message? ==> r.text == NoData
    ensures r.Records? ==>
      && |r.records| == |f.rows|
      && forall i :: 0 <= i < |f.rows| ==> |r.records[i]| == |f.columns|
  {
    if Empty(f) then Message(NoData)
    else Records(seq(|f.rows|, i requires 0 <= i < |f.rows| =>
      seq(|f.columns|, j requires 0 <= j < |f.columns| => (f.columns[j], f.rows[i][j]))))
  }

  /** The records give the frame back: their keys are the column names and
      their values the rows, in order. */
  lemma TableRecordsReadBack(f: Frame)
    requires Rectangular(f) && !Empty(f)
    ensures var rs := FormatTableResponse(f).records;
      forall i :: 0 <= i < |rs| ==>
        && seq(|rs[i]|, j requires 0 <= j < |rs[i]| => rs[i][j].0) == f.columns
        && seq(|rs[i]|, j requires 0 <= j < |rs[i]| => rs[i][j].1) == f.rows[i]
  {
  }

  // ---------------------------------------------------------------------
  // Documentation questions over the schema

  /** What a documentation question asks for, by the first matching rule. */
  datatype DocIntent = ListTables | ListColumns | Structure | Describe | Help

  /** The intent of a lower-cased question: a table listing, a column
      listing, the structure, a description, or the help text. */
  function Intent(q: string): (r: DocIntent)
    ensures r == ListTables <==> Contains(q, "table") && (Contains(q, "list") || Contains(q, "show") || Contains(q, "what"))
    ensures r == ListColumns <==> r != ListTables && Contains(q, "column") && (Contains(q, "list") || Contains(q, "show"))
    ensures r == Structure <==> r !in {ListTables, ListColumns} && (Contains(q, "schema") || Contains(q, "structure"))
    ensures r == Describe <==> r !in {ListTables, ListColumns, Structure} && (Contains(q, "describe") || Contains(q, "what is"))
  {
    if Contains(q, "table") && (Contains(q, "list") || Contains(q, "show") || Contains(q, "what")) then ListTables
    else if Contains(q, "column") && (Contains(q, "list") || Contains(q, "show")) then ListColumns
    else if Contains(q, "schema") || Contains(q, "structure") then Structure
    else if Contains(q, "describe") || Contains(q, "what is") then Describe
    else Help
  }

  /** The first table at or after `i`, in schema order, whose lower-cased
      name occurs in `q`. */
  function FirstNamedFrom(ts: seq<(string, TableInfo)>, q: string, i: nat): (r: Option<nat>)
    requires i <= |ts|
    ensures r.Some? ==> i <= r.value < |ts| && Contains(q, Lower(ts[r.value].0))
    ensures r.Some? ==> forall j :: i <= j < r.value ==> !Contains(q, Lower(ts[j].0))
    ensures r.None? ==> forall j :: i <= j < |ts| ==> !Contains(q, Lower(ts[j].0))
    decreases |ts| - i
  {
    if i == |ts| then None
    else if Contains(q, Lower(ts[i].0)) then Some(i)
    else FirstNamedFrom(ts, q, i + 1)
  }

  /** The first table, in schema order, named in `q`. */
  function FirstNamed(ts: seq<(string, TableInfo)>, q: string): Option<nat> {
    FirstNamedFrom(ts, q, 0)
  }

  const NoSchemaApology := "I'm sorry, I couldn't retrieve the database schema. Please check your database connection."

  /** `• name`, one line per table. */
  function TableNameLines(ts: seq<(string, TableInfo)>): (r: seq<string>)
    ensures |r| == |ts|
  {
    seq(|ts|, i requires 0 <= i < |ts| => Bullet + ts[i].0)
  }

  function TableListing(database: string, ts: seq<(string, TableInfo)>): string {
    if |ts| > 0 then
      "I found " + NatToString(|ts|) + " tables in the " + database + " database:\n\n" + Join("\n", TableNameLines(ts))
    else "The " + database + " database doesn't have any tables."
  }

  /** `• name (type)`, with ` (Primary Key)` for a key column. */
  function ColumnLine(c: Column): string {
    Bullet + c.name + " (" + c.typ + ")" + (if c.primaryKey then " (Primary Key)" else "")
  }

  function ColumnListing(name: string, info: TableInfo): string {
    "The " + name + " table has " + NatToString(|info.columns|) + " columns:\n\n"
      + Join("\n", seq(|info.columns|, i requires 0 <= i < |info.columns| => ColumnLine(info.columns[i])))
  }

  /** Every table with its number of columns. */
  function ColumnCounts(database: string, ts: seq<(string, TableInfo)>): string {
    "Here are all tables in the " + database + " database with their column counts:\n\n"
      + Join("\n", seq(|ts|, i requires 0 <= i < |ts| =>
          Bullet + ts[i].0 + ": " + NatToString(|ts[i].1.columns|) + " columns"))
  }

  /** Every table with its numbers of columns and foreign keys. */
  function StructureSummary(database: string, ts: seq<(string, TableInfo)>): string {
    if |ts| > 0 then
      "The " + database + " database contains " + NatToString(|ts|) + " tables:\n\n"
        + Join("", seq(|ts|, i requires 0 <= i < |ts| =>
            Bullet + ts[i].0 + ": " + NatToString(|ts[i].1.columns|) + " columns, "
              + NatToString(|ts[i].1.foreignKeys|) + " foreign keys\n"))
    else "The " + database + " database is empty (no tables found)."
  }

  /** `• name (type)`, then ` - Primary Key` and ` - Not Null` as they apply. */
  function DescribedColumn(c: Column): string {
    Bullet + c.name + " (" + c.typ + ")" + (if c.primaryKey then " - Primary Key" else "")
      + (if !c.nullable then " - Not Null" else "") + "\n"
  }

  function DescribedForeignKey(fk: ForeignKey): string {
    Bullet + fk.column + " \U{2192} " + fk.referredTable + "." + fk.referredColumn + "\n"
  }

  /** The description of one table: its columns, then its foreign keys when
      it has any. */
  function Description(name: string, info: TableInfo): string {
    "The " + name + " table contains " + NatToString(|info.columns|) + " columns:\n\n"
      + Join("", seq(|info.columns|, i requires 0 <= i < |info.columns| => DescribedColumn(info.columns[i])))
      + (if |info.foreignKeys| > 0 then
           "\nForeign Key Relationships:\n"
             + Join("", seq(|info.foreignKeys|, i requires 0 <= i < |info.foreignKeys| =>
                 DescribedForeignKey(info.foreignKeys[i])))
         else "")
  }

  /** The table names in one sentence. */
  function Overview(database: string, ts: seq<(string, TableInfo)>): string {
    if |ts| > 0 then
      "The " + database + " database contains " + NatToString(|ts|) + " tables: " + Join(", ", Names(ts))
        + ". You can ask me about specific tables or columns for more details."
    else "The " + database + " database is empty."
  }

  function HelpText(database: string): string {
    "I can help you explore the " + database + " database. You can ask me to:\n\n" + Bullet + "List all tables\n"
      + Bullet + "Show columns for a specific table\n" + Bullet + "Describe the database structure\n"
      + Bullet + "Get information about specific tables or columns"
  }

  /** `handle_documentation_query`, given the outcome of the schema fetch. */
  function HandleDocumentationQuery(question: string, database: string, schema: Option<Schema>): (r: string)
    ensures schema.None? ==> r == NoSchemaApology
    ensures schema.Some? ==>
      var ts := schema.value.tables;
      var q := Lower(question);
      && (Intent(q) == ListTables ==> r == TableListing(database, ts))
      && (Intent(q) == ListColumns ==>
            if FirstNamed(ts, q).Some? then r == ColumnListing(ts[FirstNamed(ts, q).value].0, ts[FirstNamed(ts, q).value].1)
            else r == ColumnCounts(database, ts))
      && (Intent(q) == Structure ==> r == StructureSummary(database, ts))
      && (Intent(q) == Describe ==>
            if FirstNamed(ts, q).Some? then r == Description(ts[FirstNamed(ts, q).value].0, ts[FirstNamed(ts, q).value].1)
            else r == Overview(database, ts))
      && (Intent(q) == Help ==> r == HelpText(database))
  {
    match schema
    case None => NoSchemaApology
    case Some(s) =>
      var q := Lower(question);
      var ts := s.tables;
      match Intent(q)
      case ListTables => TableListing(database, ts)
      case ListColumns =>
        var i := FirstNamed(ts, q);
        if i.Some? then ColumnListing(ts[i.value].0, ts[i.value].1) else ColumnCounts(database, ts)
      case Structure => StructureSummary(database, ts)
      case Describe =>
        var i := FirstNamed(ts, q);
        if i.Some? then Description(ts[i.value].0, ts[i.value].1) else Overview(database, ts)
      case Help => HelpText(database)
  }

  /** The table listing reports as many tables as the schema has and names
      each of them on its own line, in schema order. */
  lemma TableListingCountsTables(database: string, ts: seq<(string, TableInfo)>)
    requires |ts| > 0
    requires forall i :: 0 <= i < |ts| ==> SeparatorFree(ts[i].0, Char('\n'))
    ensures var r := TableListing(database, ts);
      var header := "I found " + NatToString(|ts|) + " tables in the " + database + " database:\n\n";
      && StartsWith(r, header)
      && DigitsValue(NatToString(|ts|)) == |ts|
      && var lines := Fields(r[|header|..], Char('\n'));
         && |lines| == |ts|
         && forall i :: 0 <= i < |ts| ==> lines[i] == Bullet + ts[i].0
  {
    var lines := TableNameLines(ts);
    forall i | 0 <= i < |lines| ensures SeparatorFree(lines[i], Char('\n')) {
      BulletLineFree(ts[i].0);
    }
    LinesOfJoin(lines);
    var header := "I found " + NatToString(|ts|) + " tables in the " + database + " database:\n\n";
    assert TableListing(database, ts) == header + Join("\n", lines);
    NatToStringRoundTrip(|ts|);
  }

  /** A column listing names the first table, in schema order, that the
      question mentions: no earlier table's name occurs in the question. */
  lemma ColumnListingPicksFirstNamedTable(question: string, database: string, s: Schema, k: nat)
    requires Intent(Lower(question)) == ListColumns
    requires k < |s.tables| && Contains(Lower(question), Lower(s.tables[k].0))
    ensures exists i ::
      && 0 <= i <= k
      && HandleDocumentationQuery(question, database, Some(s)) == ColumnListing(s.tables[i].0, s.tables[i].1)
      && Contains(Lower(question), Lower(s.tables[i].0))
      && forall j :: 0 <= j < i ==> !Contains(Lower(question), Lower(s.tables[j].0))
  {
    var i := FirstNamed(s.tables, Lower(question));
    assert i.Some?;
    assert i.value <= k;
  }

  /** A description of a named table likewise takes the first table the
      question mentions. */
  lemma DescriptionPicksFirstNamedTable(question: string, database: string, s: Schema, k: nat)
    requires Intent(Lower(question)) == Describe
    requires k < |s.tables| && Contains(Lower(question), Lower(s.tables[k].0))
    ensures exists i ::
      && 0 <= i <= k
      && HandleDocumentationQuery(question, database, Some(s)) == Description(s.tables[i].0, s.tables[i].1)
      && forall j :: 0 <= j < i ==> !Contains(Lower(question), Lower(s.tables[j].0))
  {
    var i := FirstNamed(s.tables, Lower(question));
    assert i.Some?;
    assert i.value <= k;
  }
}
