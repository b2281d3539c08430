/** The data processor: its second copies of the compact schema rendering
    and of the question-to-table extraction, the card and plain-text
    summaries of a result frame, the size cap and redaction of query
    results, and the clean-up of response objects before JSON encoding. */
module DataProcessor {
  import opened Common
  import opened Text
  import opened Schemas
  import opened Frames
  import DatabaseManager

  // ---------------------------------------------------------------------
  // Compact schema rendering, second copy

  /** `format_compact_schema` as the program's nested loops build it; it is
      the database manager's rendering, character for character. */
  method FormatCompactSchema(tables: seq<(string, TableInfo)>) returns (s: string)
    ensures s == DatabaseManager.FormatCompactSchema(tables)
  {
    var compact: seq<string> := [];
    var i := 0;
    while i < |tables|
      invariant 0 <= i <= |tables|
      invariant compact == DatabaseManager.TableLines(tables[..i])
    {
      var name := tables[i].0;
      var info := tables[i].1;
      var cols: seq<string> := [];
      var j := 0;
      while j < |info.columns|
        invariant 0 <= j <= |info.columns|
        invariant cols == DatabaseManager.ColumnTokens(info.columns[..j])
      {
        var col := info.columns[j];
        var colStr := col.name + "(" + PyTake(col.typ, 10) + ")";
        if col.primaryKey {
          colStr := colStr + "*PK";
        }
        if !col.nullable {
          colStr := colStr + "!NULL";
        }
        assert colStr == DatabaseManager.ColumnToken(col);
        cols := cols + [colStr];
        j := j + 1;
      }
      assert info.columns[..j] == info.columns;
      var fks: seq<string> := [];
      var k := 0;
      while k < |info.foreignKeys|
        invariant 0 <= k <= |info.foreignKeys|
        invariant fks == DatabaseManager.ForeignKeyTokens(info.foreignKeys[..k])
      {
        var fk := info.foreignKeys[k];
        fks := fks + [fk.column + "\U{2192}" + fk.referredTable];
        k := k + 1;
      }
      assert info.foreignKeys[..k] == info.foreignKeys;
      var line := name + "[" + Join(",", cols) + "]";
      if |fks| > 0 {
        line := line + "FK:" + Join(",", fks);
      }
      assert line == DatabaseManager.TableLine(tables[i]);
      compact := compact + [line];
      i := i + 1;
    }
    assert tables[..i] == tables;
    s := Join("\n", compact);
  }

  // ---------------------------------------------------------------------
  // Table and column extraction, second copy

  /** `relevant_columns[t].update(h)` on a defaultdict: nothing is stored
      for an empty `h`. */
  function AddNamed(m: map<string, set<string>>, t: string, h: set<string>): map<string, set<string>> {
    if h == {} then m else m[t := (if t in m then m[t] else {}) + h]
  }

  /** `extract_relevant_tables_columns` as the program's loops build it; it
      agrees with the database manager's copy on every question and schema. */
  method ExtractRelevantTablesColumns(question: string, schema: Schema) returns (r: DatabaseManager.Extraction)
    ensures r == DatabaseManager.ExtractRelevantTablesColumns(question, schema)
  {
    var q := Lower(question);
    var ts := schema.tables;
    var tables: set<string> := {};
    var columns: map<string, set<string>> := map[];
    var i := 0;
    while i < |ts|
      invariant 0 <= i <= |ts|
      invariant tables == DatabaseManager.HitTables(ts[..i], q)
      invariant columns == DatabaseManager.ColumnMap(ts[..i], q)
    {
      tables, columns := ScanTable(q, ts[i].0, ts[i].1.columns, tables, columns);
      HitTablesSnoc(ts, i, q);
      ColumnMapSnoc(ts, i, q);
      i := i + 1;
    }
    assert ts[..i] == ts;
    if tables == {} {
      r := DatabaseManager.Extraction(NameSet(schema), map[]);
    } else {
      r := DatabaseManager.Extraction(tables, columns);
    }
  }

  /** One pass of the outer loop: the table is added when its name or one of
      its column names occurs in `q`, and the named columns are filed under it. */
  method ScanTable(q: string, name: string, cs: seq<Column>, tables0: set<string>, columns0: map<string, set<string>>)
    returns (tables: set<string>, columns: map<string, set<string>>)
    ensures tables == tables0 + (if Contains(q, Lower(name)) || DatabaseManager.NamedColumns(cs, q) != {} then {name} else {})
    ensures columns == AddNamed(columns0, name, DatabaseManager.NamedColumns(cs, q))
  {
    tables := tables0;
    columns := columns0;
    var named := Contains(q, Lower(name));
    if named {
      tables := tables + {name};
    }
    var j := 0;
    while j < |cs|
      invariant 0 <= j <= |cs|
      invariant tables == tables0 + (if named || DatabaseManager.NamedColumns(cs[..j], q) != {} then {name} else {})
      invariant columns == AddNamed(columns0, name, DatabaseManager.NamedColumns(cs[..j], q))
    {
      var col := cs[j];
      ghost var h := DatabaseManager.NamedColumns(cs[..j], q);
      NamedColumnsSnoc(cs, j, q);
      if Contains(q, Lower(col.name)) {
        tables := tables + {name};
        AddNamedSnoc(columns0, name, h, col.name);
        columns := columns[name := (if name in columns then columns[name] else {}) + {col.name}];
        assert columns == AddNamed(columns0, name, h + {col.name});
      } else {
        assert DatabaseManager.NamedColumns(cs[..j + 1], q) == h;
      }
      j := j + 1;
    }
    assert cs[..j] == cs;
  }

  /** Adding one more name to a table's entry. */
  lemma AddNamedSnoc(m: map<string, set<string>>, t: string, h: set<string>, x: string)
    ensures var m1 := AddNamed(m, t, h);
      AddNamed(m, t, h + {x}) == m1[t := (if t in m1 then m1[t] else {}) + {x}]
  {
    var g := if t in m then m[t] else {};
    var m1 := AddNamed(m, t, h);
    if h == {} {
      assert h + {x} == {x};
    } else {
      assert (if t in m1 then m1[t] else {}) == g + h;
      var lhs := m1[t := g + h + {x}];
      var rhs := m[t := g + (h + {x})];
      assert g + h + {x} == g + (h + {x});
      assert lhs.Keys == rhs.Keys;
      forall k | k in lhs.Keys
        ensures lhs[k] == rhs[k]
      {
      }
      assert lhs == rhs;
    }
  }

  lemma NamedColumnsSnoc(cs: seq<Column>, j: int, q: string)
    requires 0 <= j < |cs|
    ensures DatabaseManager.NamedColumns(cs[..j + 1], q)
         == DatabaseManager.NamedColumns(cs[..j], q) + (if Contains(q, Lower(cs[j].name)) then {cs[j].name} else {})
  {
    assert cs[..j + 1] == cs[..j] + [cs[j]];
  }

  lemma HitTablesSnoc(ts: seq<(string, TableInfo)>, i: int, q: string)
    requires 0 <= i < |ts|
    ensures DatabaseManager.HitTables(ts[..i + 1], q)
         == DatabaseManager.HitTables(ts[..i], q)
            + (if Contains(q, Lower(ts[i].0)) || DatabaseManager.NamedColumns(ts[i].1.columns, q) != {} then {ts[i].0} else {})
  {
    var a := ts[..i + 1];
    var b := ts[..i];
    forall t | t in DatabaseManager.HitTables(a, q)
      ensures t in DatabaseManager.HitTables(b, q) || t == ts[i].0
    {
      var k :| 0 <= k < |a| && (Contains(q, Lower(a[k].0)) || DatabaseManager.ColumnHits(a, k, q) != {}) && a[k].0 == t;
      if k < i {
        assert a[k] == b[k];
        assert DatabaseManager.ColumnHits(a, k, q) == DatabaseManager.ColumnHits(b, k, q);
      }
    }
    forall t | t in DatabaseManager.HitTables(b, q)
      ensures t in DatabaseManager.HitTables(a, q)
    {
      var k :| 0 <= k < |b| && (Contains(q, Lower(b[k].0)) || DatabaseManager.ColumnHits(b, k, q) != {}) && b[k].0 == t;
      assert a[k] == b[k];
      assert DatabaseManager.ColumnHits(a, k, q) == DatabaseManager.ColumnHits(b, k, q);
    }
    if Contains(q, Lower(ts[i].0)) || DatabaseManager.NamedColumns(ts[i].1.columns, q) != {} {
      assert a[i] == ts[i];
      assert ts[i].0 in DatabaseManager.HitTables(a, q);
    } else if ts[i].0 in DatabaseManager.HitTables(a, q) {
      assert a[i] == ts[i];
      var k :| 0 <= k < |a| && (Contains(q, Lower(a[k].0)) || DatabaseManager.ColumnHits(a, k, q) != {}) && a[k].0 == ts[i].0;
      assert k < i;
      assert a[k] == b[k];
      assert DatabaseManager.ColumnHits(a, k, q) == DatabaseManager.ColumnHits(b, k, q);
      assert ts[i].0 in DatabaseManager.HitTables(b, q);
    }
  }

  lemma ColumnTablesSnoc(ts: seq<(string, TableInfo)>, i: int, q: string)
    requires 0 <= i < |ts|
    ensures DatabaseManager.ColumnTables(ts[..i + 1], q)
         == DatabaseManager.ColumnTables(ts[..i], q)
            + (if DatabaseManager.NamedColumns(ts[i].1.columns, q) != {} then {ts[i].0} else {})
  {
    var a := ts[..i + 1];
    var b := ts[..i];
    forall t | t in DatabaseManager.ColumnTables(a, q)
      ensures t in DatabaseManager.ColumnTables(b, q) || t == ts[i].0
    {
      var k :| 0 <= k < |a| && DatabaseManager.ColumnHits(a, k, q) != {} && a[k].0 == t;
      if k < i {
        assert a[k] == b[k];
        assert DatabaseManager.ColumnHits(a, k, q) == DatabaseManager.ColumnHits(b, k, q);
      }
    }
    forall t | t in DatabaseManager.ColumnTables(b, q)
      ensures t in DatabaseManager.ColumnTables(a, q)
    {
      var k :| 0 <= k < |b| && DatabaseManager.ColumnHits(b, k, q) != {} && b[k].0 == t;
      assert a[k] == b[k];
      assert DatabaseManager.ColumnHits(a, k, q) == DatabaseManager.ColumnHits(b, k, q);
    }
    if DatabaseManager.NamedColumns(ts[i].1.columns, q) != {} {
      assert a[i] == ts[i];
      assert ts[i].0 in DatabaseManager.ColumnTables(a, q);
    } else if ts[i].0 in DatabaseManager.ColumnTables(a, q) {
      var k :| 0 <= k < |a| && DatabaseManager.ColumnHits(a, k, q) != {} && a[k].0 == ts[i].0;
      assert a[i] == ts[i];
      assert k < i;
      assert a[k] == b[k];
      assert DatabaseManager.ColumnHits(a, k, q) == DatabaseManager.ColumnHits(b, k, q);
      assert ts[i].0 in DatabaseManager.ColumnTables(b, q);
    }
  }

  lemma ColumnsOfSnoc(ts: seq<(string, TableInfo)>, i: int, t: string, q: string)
    requires 0 <= i < |ts|
    ensures DatabaseManager.ColumnsOf(ts[..i + 1], t, q)
         == DatabaseManager.ColumnsOf(ts[..i], t, q)
            + (if ts[i].0 == t then DatabaseManager.NamedColumns(ts[i].1.columns, q) else {})
  {
    var a := ts[..i + 1];
    var b := ts[..i];
    forall c | c in DatabaseManager.ColumnsOf(a, t, q)
      ensures c in DatabaseManager.ColumnsOf(b, t, q) || (ts[i].0 == t && c in DatabaseManager.NamedColumns(ts[i].1.columns, q))
    {
      var k :| 0 <= k < |a| && a[k].0 == t && c in DatabaseManager.ColumnHits(a, k, q);
      assert a[k] == ts[k];
      if k < i {
        assert b[k] == ts[k];
        assert c in DatabaseManager.ColumnHits(b, k, q);
      }
    }
    forall c | c in DatabaseManager.ColumnsOf(b, t, q)
      ensures c in DatabaseManager.ColumnsOf(a, t, q)
    {
      var k :| 0 <= k < |b| && b[k].0 == t && c in DatabaseManager.ColumnHits(b, k, q);
      assert a[k] == b[k];
      assert c in DatabaseManager.ColumnHits(a, k, q);
    }
    if ts[i].0 == t {
      forall c | c in DatabaseManager.NamedColumns(ts[i].1.columns, q)
        ensures c in DatabaseManager.ColumnsOf(a, t, q)
      {
        assert a[i] == ts[i];
        assert c in DatabaseManager.ColumnHits(a, i, q);
      }
    }
  }

  lemma ColumnsOfOutside(ts: seq<(string, TableInfo)>, t: string, q: string)
    requires t !in DatabaseManager.ColumnTables(ts, q)
    ensures DatabaseManager.ColumnsOf(ts, t, q) == {}
  {
  }

  lemma ColumnMapSnoc(ts: seq<(string, TableInfo)>, i: int, q: string)
    requires 0 <= i < |ts|
    ensures DatabaseManager.ColumnMap(ts[..i + 1], q)
         == AddNamed(DatabaseManager.ColumnMap(ts[..i], q), ts[i].0, DatabaseManager.NamedColumns(ts[i].1.columns, q))
  {
    var a := ts[..i + 1];
    var b := ts[..i];
    var name := ts[i].0;
    var h := DatabaseManager.NamedColumns(ts[i].1.columns, q);
    var ma := DatabaseManager.ColumnMap(a, q);
    var mb := DatabaseManager.ColumnMap(b, q);
    var m := AddNamed(mb, name, h);
    ColumnTablesSnoc(ts, i, q);
    assert ma.Keys == m.Keys;
    forall t | t in ma.Keys
      ensures ma[t] == m[t]
    {
      ColumnsOfSnoc(ts, i, t, q);
      if t !in mb {
        ColumnsOfOutside(b, t, q);
      }
    }
  }

  // ---------------------------------------------------------------------
  // Cards

  /** A card's value: the first cell of a text column, or the total of a
      numeric column (its `,.2f` rendering is not modelled). */
  datatype CardValue = Cell(text: string) | ColumnTotal(column: nat)

  datatype Card = Card(title: string, value: CardValue)

  /** The card for column `k`: titled by the column, valued by its total
      when numeric and by its first cell otherwise. */
  function ColumnCard(f: Frame, k: int): Card
    requires Rectangular(f) && |f.rows| > 0 && 0 <= k < |f.columns|
  {
    Card(f.columns[k], if f.numeric[k] then ColumnTotal(k) else Cell(f.rows[0][k]))
  }

  const MaxCards := 4

  /** `format_card_response`. */
  function FormatCardResponse(f: Frame): (r: Option<seq<Card>>)
    requires Rectangular(f)
    ensures r.None? <==> Empty(f)
    ensures |f.rows| == 1 && |f.columns| == 1 ==> r == Some([Card("Result", Cell(f.rows[0][0]))])
    ensures r.Some? && !(|f.rows| == 1 && |f.columns| == 1) ==>
      && |r.value| == (if |f.columns| < MaxCards then |f.columns| else MaxCards)
      && forall k :: 0 <= k < |r.value| ==> r.value[k] == ColumnCard(f, k)
  {
    if Empty(f) then None
    else if |f.rows| == 1 && |f.columns| == 1 then Some([Card("Result", Cell(f.rows[0][0]))])
    else Some(PyTake(seq(|f.columns|, k requires 0 <= k < |f.columns| => ColumnCard(f, k)), MaxCards))
  }

  /** Beyond the single-value case the card titles are the leading column
      names, at most four, in column order. */
  lemma CardTitlesAreLeadingColumns(f: Frame)
    requires Rectangular(f) && !Empty(f) && !(|f.rows| == 1 && |f.columns| == 1)
    ensures var cards := FormatCardResponse(f).value;
      seq(|cards|, k requires 0 <= k < |cards| => cards[k].title) == PyTake(f.columns, MaxCards)
  {
  }

  // ---------------------------------------------------------------------
  // Plain-text summary

  const NoInformation := "I couldn't find any information for your request."

  /** `col: value` for each column of the first row. */
  function Pieces(f: Frame): (r: seq<string>)
    requires Rectangular(f) && |f.rows| > 0
    ensures |r| == |f.columns|
  {
    seq(|f.columns|, i requires 0 <= i < |f.columns| => f.columns[i] + ": " + f.rows[0][i])
  }

  /** `generate_nl_from_data`: four messages by the frame's shape. */
  function GenerateNlFromData(f: Frame): (r: string)
    requires Rectangular(f)
    ensures Empty(f) ==> r == NoInformation
    ensures !Empty(f) && |f.rows| == 1 && |f.columns| == 1 ==> r == "I found: " + f.rows[0][0]
    ensures !Empty(f) && |f.rows| == 1 && |f.columns| > 1 ==>
      r == "I found " + NatToString(|f.columns|) + " pieces of information: " + Join(", ", Pieces(f))
    ensures !Empty(f) && |f.rows| > 1 ==>
      r == "I found " + NatToString(|f.rows|) + " records with " + NatToString(|f.columns|) + " columns each."
  {
    if Empty(f) then NoInformation
    else if |f.rows| == 1 then
      if |f.columns| == 1 then "I found: " + f.rows[0][0]
      else "I found " + NatToString(|f.columns|) + " pieces of information: " + Join(", ", Pieces(f))
    else "I found " + NatToString(|f.rows|) + " records with " + NatToString(|f.columns|) + " columns each."
  }

  /** The summary of a multi-row frame states its row and column counts:
      the digits after "I found " read back as the row count, and those
      after " records with " as the column count. */
  lemma NlReportsCounts(f: Frame)
    requires Rectangular(f) && !Empty(f) && |f.rows| > 1
    ensures var r := GenerateNlFromData(f);
      var rows := NatToString(|f.rows|);
      var cols := NatToString(|f.columns|);
      && StartsWith(r, "I found " + rows + " records with " + cols)
      && DigitsValue(rows) == |f.rows| && DigitsValue(cols) == |f.columns|
  {
    NatToStringRoundTrip(|f.rows|);
    NatToStringRoundTrip(|f.columns|);
  }

  // ---------------------------------------------------------------------
  // Validation and redaction

  const SensitiveColumnWords := ["password", "secret", "token", "key"]
  const RowLimit := 10000
  const TruncatedRows := 1000
  const Redacted := "[REDACTED]"

  /** A column whose lower-cased name contains a sensitive word. */
  predicate SensitiveColumn(name: string) {
    ContainsAny(Lower(name), SensitiveColumnWords)
  }

  /** Every sensitive column overwritten with the redaction marker (which
      makes it a text column). */
  function Redact(f: Frame): (g: Frame)
    requires Rectangular(f)
    ensures Rectangular(g) && g.columns == f.columns && |g.rows| == |f.rows|
    ensures forall r, c :: 0 <= r < |f.rows| && 0 <= c < |f.columns| ==>
      g.rows[r][c] == if SensitiveColumn(f.columns[c]) then Redacted else f.rows[r][c]
    ensures forall c :: 0 <= c < |f.columns| ==> g.numeric[c] == (f.numeric[c] && !SensitiveColumn(f.columns[c]))
  {
    Frame(f.columns,
          seq(|f.columns|, c requires 0 <= c < |f.columns| => f.numeric[c] && !SensitiveColumn(f.columns[c])),
          seq(|f.rows|, r requires 0 <= r < |f.rows| =>
            seq(|f.columns|, c requires 0 <= c < |f.columns| =>
              if SensitiveColumn(f.columns[c]) then Redacted else f.rows[r][c])))
  }

  datatype Validation = Validation(frame: Option<Frame>, message: string)

  function TruncationMessage(n: nat): string {
    "Results truncated to 1000 rows (original: " + NatToString(n) + ")"
  }

  /** `validate_and_sanitize_results` as written: a result of more than
      10000 rows is cut to its first 1000 and returned before redaction. */
  function ValidateAndSanitizeResults(f: Option<Frame>): (v: Validation)
    requires f.Some? ==> Rectangular(f.value)
    ensures f.None? || Empty(f.value) ==> v == Validation(f, "No results found")
    ensures f.Some? && !Empty(f.value) && |f.value.rows| > RowLimit ==>
      v == Validation(Some(f.value.(rows := f.value.rows[..TruncatedRows])), TruncationMessage(|f.value.rows|))
    ensures f.Some? && !Empty(f.value) && |f.value.rows| <= RowLimit ==>
      v == Validation(Some(Redact(f.value)), "Success")
  {
    if f.None? || Empty(f.value) then Validation(f, "No results found")
    else if |f.value.rows| > RowLimit then
      Validation(Some(f.value.(rows := f.value.rows[..TruncatedRows])), TruncationMessage(|f.value.rows|))
    else Validation(Some(Redact(f.value)), "Success")
  }

  /** The validation with the row cap applied before redaction, so that no
      path returns a sensitive value. */
  function ValidateAndSanitizeResultsRedacted(f: Option<Frame>): (v: Validation)
    requires f.Some? ==> Rectangular(f.value)
    ensures f.None? || Empty(f.value) ==> v == Validation(f, "No results found")
    ensures f.Some? && !Empty(f.value) ==> v.frame.Some? && Rectangular(v.frame.value)
    ensures f.Some? && !Empty(f.value) && |f.value.rows| <= RowLimit ==>
      v == ValidateAndSanitizeResults(f)
  {
    if f.None? || Empty(f.value) then Validation(f, "No results found")
    else if |f.value.rows| > RowLimit then
      Validation(Some(Redact(f.value.(rows := f.value.rows[..TruncatedRows]))), TruncationMessage(|f.value.rows|))
    else Validation(Some(Redact(f.value)), "Success")
  }

  /** Every cell of a sensitive column that the corrected validation returns
      is the redaction marker, whatever the result size. */
  lemma RedactedValidationHidesSensitiveColumns(f: Frame)
    requires Rectangular(f) && !Empty(f)
    ensures var g := ValidateAndSanitizeResultsRedacted(Some(f)).frame.value;
      g.columns == f.columns &&
      forall r, c :: 0 <= r < |g.rows| && 0 <= c < |g.columns| && SensitiveColumn(g.columns[c]) ==>
        g.rows[r][c] == Redacted
  {
  }

  /** Redacting twice is redacting once. */
  lemma RedactIdempotent(f: Frame)
    requires Rectangular(f)
    ensures Redact(Redact(f)) == Redact(f)
  {
    var g := Redact(f);
    var gg := Redact(g);
    assert gg.numeric == g.numeric;
    forall r | 0 <= r < |f.rows|
      ensures gg.rows[r] == g.rows[r]
    {
    }
  }

  /** The concrete leak: 10001 rows of a `password` column. */
  const LeakyFrame := Frame(["password"], [false], seq(RowLimit + 1, _ => ["hunter2"]))

  lemma PasswordIsSensitive()
    ensures SensitiveColumn("password")
  {
    var l := Lower("password");
    assert l == "password";
    OccursAtByIndex(l, "password", 0);
    assert SensitiveColumnWords[0] == "password";
  }

  /** As written, the large result keeps its passwords in clear, where the
      corrected validation redacts them. */
  lemma LargeResultsLeakSensitiveColumns()
    ensures Rectangular(LeakyFrame)
    ensures ValidateAndSanitizeResults(Some(LeakyFrame)).frame.value.rows[0][0] == "hunter2"
    ensures ValidateAndSanitizeResultsRedacted(Some(LeakyFrame)).frame.value.rows[0][0] == Redacted
  {
    PasswordIsSensitive();
    assert LeakyFrame.columns[0] == "password";
  }

  // ---------------------------------------------------------------------
  // JSON clean-up

  /** A response object: `NaN` stands for every value `pd.isna` accepts
      (NaN, NaT, None) and `DateTime` for an object with `isoformat`. */
  datatype Json =
    | Null
    | Bool(b: bool)
    | Number(n: int)
    | Str(s: string)
    | NaN
    | DateTime(iso: string)
    | List(items: seq<Json>)
    | Object(fields: seq<(string, Json)>)

  /** No missing value and no date object anywhere inside. */
  predicate Clean(j: Json)
    decreases j
  {
    match j
    case NaN => false
    case DateTime(_) => false
    case List(items) => forall i :: 0 <= i < |items| ==> Clean(items[i])
    case Object(fs) => forall i :: 0 <= i < |fs| ==> Clean(fs[i].1)
    case _ => true
  }

  /** Same nesting: lists of the same length, objects with the same keys in
      the same order, scalars against scalars. */
  predicate SameShape(a: Json, b: Json)
    decreases a
  {
    match a
    case List(xs) => b.List? && |b.items| == |xs| && forall i :: 0 <= i < |xs| ==> SameShape(xs[i], b.items[i])
    case Object(fs) =>
      b.Object? && |b.fields| == |fs|
      && forall i :: 0 <= i < |fs| ==> fs[i].0 == b.fields[i].0 && SameShape(fs[i].1, b.fields[i].1)
    case _ => !b.List? && !b.Object?
  }

  /** `clean_for_json`: a missing value becomes null, a date its ISO text,
      and every other scalar is kept. */
  function CleanForJson(j: Json): (r: Json)
    ensures Clean(r)
    ensures SameShape(j, r)
    ensures j.NaN? ==> r == Null
    ensures j.DateTime? ==> r == Str(j.iso)
    ensures !j.NaN? && !j.DateTime? && !j.List? && !j.Object? ==> r == j
    decreases j
  {
    match j
    case Object(fs) => Object(seq(|fs|, i requires 0 <= i < |fs| => (fs[i].0, CleanForJson(fs[i].1))))
    case List(items) => List(seq(|items|, i requires 0 <= i < |items| => CleanForJson(items[i])))
    case NaN => Null
    case DateTime(iso) => Str(iso)
    case _ => j
  }

  /** The cleaning of a single scalar. */
  function CleanLeaf(j: Json): Json {
    match j
    case NaN => Null
    case DateTime(iso) => Str(iso)
    case _ => j
  }

  /** `b` is `a` with every leaf cleaned on its own: the same nesting and
      keys, and at each scalar position the cleaned scalar. */
  predicate CleansTo(a: Json, b: Json)
    decreases a
  {
    match a
    case List(xs) => b.List? && |b.items| == |xs| && forall i :: 0 <= i < |xs| ==> CleansTo(xs[i], b.items[i])
    case Object(fs) =>
      b.Object? && |b.fields| == |fs|
      && forall i :: 0 <= i < |fs| ==> fs[i].0 == b.fields[i].0 && CleansTo(fs[i].1, b.fields[i].1)
    case _ => b == CleanLeaf(a)
  }

  /** The cleaned object is exactly the leaf-by-leaf cleaning of the input:
      it stands in that relation, and nothing else does. */
  lemma {:induction false} CleanForJsonIsLeafwise(j: Json, r: Json)
    ensures CleansTo(j, CleanForJson(j))
    ensures CleansTo(j, r) ==> r == CleanForJson(j)
    decreases j
  {
    match j
    case Object(fs) =>
      var c := CleanForJson(j);
      forall i | 0 <= i < |fs|
        ensures CleansTo(fs[i].1, c.fields[i].1)
      {
        CleanForJsonIsLeafwise(fs[i].1, fs[i].1);
      }
      if CleansTo(j, r) {
        forall i | 0 <= i < |fs|
          ensures r.fields[i] == c.fields[i]
        {
          CleanForJsonIsLeafwise(fs[i].1, r.fields[i].1);
        }
        assert r.fields == c.fields;
      }
    case List(items) =>
      var c := CleanForJson(j);
      forall i | 0 <= i < |items|
        ensures CleansTo(items[i], c.items[i])
      {
        CleanForJsonIsLeafwise(items[i], items[i]);
      }
      if CleansTo(j, r) {
        forall i | 0 <= i < |items|
          ensures r.items[i] == c.items[i]
        {
          CleanForJsonIsLeafwise(items[i], r.items[i]);
        }
        assert r.items == c.items;
      }
    case _ =>
  }

  /** A clean object passes through unchanged. */
  lemma {:induction false} CleanIsFixed(j: Json)
    requires Clean(j)
    ensures CleanForJson(j) == j
    decreases j
  {
    match j
    case Object(fs) =>
      forall i | 0 <= i < |fs|
        ensures CleanForJson(fs[i].1) == fs[i].1
      {
        CleanIsFixed(fs[i].1);
      }
      assert CleanForJson(j).fields == fs;
    case List(items) =>
      forall i | 0 <= i < |items|
        ensures CleanForJson(items[i]) == items[i]
      {
        CleanIsFixed(items[i]);
      }
      assert CleanForJson(j).items == items;
    case _ =>
  }

  /** Cleaning twice is cleaning once. */
  lemma CleanForJsonIdempotent(j: Json)
    ensures CleanForJson(CleanForJson(j)) == CleanForJson(j)
  {
    CleanIsFixed(CleanForJson(j));
  }
}
