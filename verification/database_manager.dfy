/** The database manager: the compact schema rendering sent to the language
    model, schema filtering, prompt assembly, post-processing and caching of
    the generated SQL, the two-tier schema cache and the recovery loop. The
    completion service, the query executor, live introspection and the Redis
    server are parameters. */
module DatabaseManager {
  import opened Common
  import opened Text
  import opened Schemas
  import opened Frames
  import opened DomainAnalyzer

  // ---------------------------------------------------------------------
  // Compact schema rendering

  /** `name(type[:10])`, then `*PK` for a primary-key column, then `!NULL`
      for a non-nullable one. */
  function ColumnToken(c: Column): string {
    c.name + "(" + PyTake(c.typ, 10) + ")" + (if c.primaryKey then "*PK" else "") + (if !c.nullable then "!NULL" else "")
  }

  /** `constrained→referred_table`. */
  function ForeignKeyToken(fk: ForeignKey): string {
    fk.column + "\U{2192}" + fk.referredTable
  }

  function ColumnTokens(cs: seq<Column>): (r: seq<string>)
    ensures |r| == |cs| && forall i :: 0 <= i < |cs| ==> r[i] == ColumnToken(cs[i])
  {
    seq(|cs|, i requires 0 <= i < |cs| => ColumnToken(cs[i]))
  }

  function ForeignKeyTokens(fks: seq<ForeignKey>): (r: seq<string>)
    ensures |r| == |fks| && forall i :: 0 <= i < |fks| ==> r[i] == ForeignKeyToken(fks[i])
  {
    seq(|fks|, i requires 0 <= i < |fks| => ForeignKeyToken(fks[i]))
  }

  /** One table: `name[col,col,...]`, followed by `FK:fk,fk,...` only when
      the table has foreign keys. */
  function TableLine(t: (string, TableInfo)): string {
    t.0 + "[" + Join(",", ColumnTokens(t.1.columns)) + "]"
      + (if |t.1.foreignKeys| > 0 then "FK:" + Join(",", ForeignKeyTokens(t.1.foreignKeys)) else "")
  }

  function TableLines(tables: seq<(string, TableInfo)>): (r: seq<string>)
    ensures |r| == |tables| && forall i :: 0 <= i < |tables| ==> r[i] == TableLine(tables[i])
  {
    seq(|tables|, i requires 0 <= i < |tables| => TableLine(tables[i]))
  }

  /** `format_compact_schema`: the table lines joined by newlines. */
  function FormatCompactSchema(tables: seq<(string, TableInfo)>): string {
    Join("\n", TableLines(tables))
  }

  /** Splitting the rendering at newlines gives back one line per table, in
      schema order, provided no name or type carries a newline itself. */
  lemma CompactSchemaLines(tables: seq<(string, TableInfo)>)
    requires |tables| >= 1
    requires forall i :: 0 <= i < |tables| ==> SeparatorFree(TableLine(tables[i]), Char('\n'))
    ensures var lines := Fields(FormatCompactSchema(tables), Char('\n'));
      |lines| == |tables| && forall i :: 0 <= i < |tables| ==> lines[i] == TableLine(tables[i])
  {
    assert [ '\n' ] == "\n";
    FieldsOfJoin(TableLines(tables), '\n');
  }

  /** The markers of a column token can be read back: it starts with the
      column name and an opening parenthesis, ends in `!NULL` exactly for a
      non-nullable column, and once that is removed ends in `*PK` exactly for
      a primary-key column, before which the type text is at most ten
      characters followed by `)`. */
  lemma ColumnTokenMarkers(c: Column)
    ensures var tok := ColumnToken(c);
      && StartsWith(tok, c.name + "(")
      && (EndsWith(tok, "!NULL") <==> !c.nullable)
      && var body := if c.nullable then tok else tok[..|tok| - 5];
         && (EndsWith(body, "*PK") <==> c.primaryKey)
         && var head := if c.primaryKey then body[..|body| - 3] else body;
            && EndsWith(head, ")")
            && |head| <= |c.name| + 12
  {
    var head := c.name + "(" + PyTake(c.typ, 10) + ")";
    var body := head + (if c.primaryKey then "*PK" else "");
    var tok := body + (if !c.nullable then "!NULL" else "");
    assert tok == ColumnToken(c);
    assert head[|head| - 1] == ')';
    assert body[|body| - 1] == (if c.primaryKey then 'K' else ')');
    assert tok[..|c.name| + 1] == c.name + "(";
    if c.nullable {
      assert tok == body;
      assert tok[|tok| - 1] != 'L';
    } else {
      assert tok[..|tok| - 5] == body;
      assert tok[|tok| - 5..] == "!NULL";
    }
    if c.primaryKey {
      assert body[..|body| - 3] == head;
      assert body[|body| - 3..] == "*PK";
    } else {
      assert body[|body| - 1] != 'K';
    }
  }

  // ---------------------------------------------------------------------
  // Schema filtering

  /** The schema entries of the tables named in `names`, in that order;
      names the schema does not have are skipped. */
  function SelectTables(tables: seq<(string, TableInfo)>, names: seq<string>): (r: seq<(string, TableInfo)>)
    ensures |r| <= |names|
    ensures forall i :: 0 <= i < |r| ==> r[i].0 in names && Lookup(tables, r[i].0) == Some(r[i].1)
    ensures forall t :: t in names && Lookup(tables, t).Some? ==> t in Names(r)
    decreases |names|
  {
    if |names| == 0 then []
    else
      var rest := SelectTables(tables, names[1..]);
      var info := Lookup(tables, names[0]);
      if info.Some? then
        var r := [(names[0], info.value)] + rest;
        assert Names(r) == [names[0]] + Names(rest);
        r
      else rest
  }

  lemma {:induction false} SelectTablesDistinct(tables: seq<(string, TableInfo)>, names: seq<string>)
    requires NoDup(names)
    ensures DistinctNames(Schema(SelectTables(tables, names), []))
    decreases |names|
  {
    if |names| > 0 {
      SelectTablesDistinct(tables, names[1..]);
      var rest := SelectTables(tables, names[1..]);
      assert names[0] !in names[1..];
      forall i | 0 <= i < |rest| ensures rest[i].0 != names[0] {
        assert rest[i].0 in names[1..];
      }
    }
  }

  /** Selecting the tables of an enumerated set keeps exactly the names the
      set and the schema share. */
  lemma SelectTablesNames(schema: Schema, rel: set<string>, order: set<string> -> seq<string>)
    requires Enumerates(order)
    ensures var tables := SelectTables(schema.tables, order(rel));
      forall t :: t in NameSet(Schema(tables, [])) <==> t in rel && t in NameSet(schema)
  {
    var names := order(rel);
    var tables := SelectTables(schema.tables, names);
    assert Elems(names) == rel;
    forall t ensures t in NameSet(Schema(tables, [])) <==> t in rel && t in NameSet(schema) {
      if t in NameSet(Schema(tables, [])) {
        var i :| 0 <= i < |tables| && tables[i].0 == t;
        assert t in Elems(names);
      }
      if t in rel && t in NameSet(schema) {
        var j :| 0 <= j < |schema.tables| && schema.tables[j].0 == t;
        assert Lookup(schema.tables, t).Some?;
        assert t in names;
        var k :| 0 <= k < |tables| && Names(tables)[k] == t;
      }
    }
  }

  const RelevantThreshold := DefaultThreshold

  /** The resolver's tables, or the common tables the schema has when the
      resolver finds nothing. */
  function RelevantOrCommon(found: set<string>, full: Schema): set<string> {
    if found == {} then set t | t in CommonTables && Lookup(full.tables, t).Some? else found
  }

  /** `get_relevant_schema`, given the outcome of the schema fetch. */
  function GetRelevantSchema(full: Option<Schema>, question: string, analyzer: Index, ratio: Ratio,
                             order: set<string> -> seq<string>): (r: Option<Schema>)
    requires Enumerates(order)
    ensures r.None? <==> full.None?
    ensures r.Some? ==>
      var rel := RelevantOrCommon(FindRelevantTables(analyzer, question, RelevantThreshold, ratio), full.value);
      && DistinctNames(r.value)
      && (forall t :: t in NameSet(r.value) <==> t in rel && t in NameSet(full.value))
      && (forall i :: 0 <= i < |r.value.tables| ==> Lookup(full.value.tables, r.value.tables[i].0) == Some(r.value.tables[i].1))
      && (forall x :: x in r.value.relationships <==>
            x in full.value.relationships && (x.sourceTable in rel || x.targetTable in rel))
  {
    if full.None? then None
    else
      var schema := full.value;
      var rel := RelevantOrCommon(FindRelevantTables(analyzer, question, RelevantThreshold, ratio), schema);
      var names := order(rel);
      var tables := SelectTables(schema.tables, names);
      SelectTablesDistinct(schema.tables, names);
      var r := Schema(tables, Filter(schema.relationships, (x: Relationship) => x.sourceTable in rel || x.targetTable in rel));
      SelectTablesNames(schema, rel, order);
      Some(r)
  }

  /** Tables and columns named in the question, by lower-cased substring. */
  datatype Extraction = Extraction(tables: set<string>, columns: map<string, set<string>>)

  /** The names of the columns whose lower-cased name occurs in `q`. */
  function NamedColumns(cs: seq<Column>, q: string): set<string> {
    set c | c in cs && Contains(q, Lower(c.name)) :: c.name
  }

  /** Columns of table entry `i` whose lower-cased name occurs in `q`. */
  function ColumnHits(tables: seq<(string, TableInfo)>, i: int, q: string): set<string>
    requires 0 <= i < |tables|
  {
    NamedColumns(tables[i].1.columns, q)
  }

  /** All column names of the entries called `t`. */
  function ColumnNamesOf(tables: seq<(string, TableInfo)>, t: string): set<string> {
    set i, c | 0 <= i < |tables| && tables[i].0 == t && c in tables[i].1.columns :: c.name
  }

  /** Tables whose own name, or one of whose column names, occurs in `q`. */
  function HitTables(ts: seq<(string, TableInfo)>, q: string): set<string> {
    set i | 0 <= i < |ts| && (Contains(q, Lower(ts[i].0)) || ColumnHits(ts, i, q) != {}) :: ts[i].0
  }

  /** The `relevant_columns` dictionary: per table, the column names found in `q`. */
  function ColumnTables(ts: seq<(string, TableInfo)>, q: string): set<string> {
    set i | 0 <= i < |ts| && ColumnHits(ts, i, q) != {} :: ts[i].0
  }

  /** The columns found in `q` over all entries called `t`. */
  function ColumnsOf(ts: seq<(string, TableInfo)>, t: string, q: string): set<string> {
    set i, c | 0 <= i < |ts| && ts[i].0 == t && c in ColumnHits(ts, i, q) :: c
  }

  function ColumnMap(ts: seq<(string, TableInfo)>, q: string): map<string, set<string>> {
    map t | t in ColumnTables(ts, q) :: ColumnsOf(ts, t, q)
  }

  function ExtractRelevantTablesColumns(question: string, schema: Schema): (r: Extraction)
    ensures |schema.tables| > 0 ==> r.tables != {}
    ensures r.tables <= NameSet(schema)
    ensures forall t :: t in r.columns ==> t in r.tables && r.columns[t] != {} && r.columns[t] <= ColumnNamesOf(schema.tables, t)
  {
    var q := Lower(question);
    var hit := HitTables(schema.tables, q);
    if hit == {} then
      FallbackIsEveryTable(schema);
      Extraction(NameSet(schema), map[])
    else
      ColumnMapWellFormed(schema.tables, q);
      Extraction(hit, ColumnMap(schema.tables, q))
  }

  lemma FallbackIsEveryTable(schema: Schema)
    ensures |schema.tables| > 0 ==> NameSet(schema) != {}
  {
    if |schema.tables| > 0 {
      assert schema.tables[0].0 in NameSet(schema);
    }
  }

  /** Every table of the column map was hit, and holds a non-empty set of its own columns. */
  lemma ColumnMapWellFormed(ts: seq<(string, TableInfo)>, q: string)
    ensures forall t :: t in ColumnMap(ts, q) ==>
      t in HitTables(ts, q) && ColumnMap(ts, q)[t] != {} && ColumnMap(ts, q)[t] <= ColumnNamesOf(ts, t)
  {
    forall t | t in ColumnMap(ts, q)
      ensures t in HitTables(ts, q) && ColumnMap(ts, q)[t] != {} && ColumnMap(ts, q)[t] <= ColumnNamesOf(ts, t)
    {
      var i :| 0 <= i < |ts| && ColumnHits(ts, i, q) != {} && ts[i].0 == t;
      var c :| c in ColumnHits(ts, i, q);
      assert c in ColumnMap(ts, q)[t];
    }
  }

  /** Completeness: a table named in the question, or with a column named in
      it, is among the relevant tables, and every column named in the
      question is filed under its table. */
  lemma {:induction false} ExtractionFindsNamedTablesAndColumns(question: string, schema: Schema, i: int, c: Column)
    requires 0 <= i < |schema.tables|
    ensures Contains(Lower(question), Lower(schema.tables[i].0)) ==>
      schema.tables[i].0 in ExtractRelevantTablesColumns(question, schema).tables
    ensures c in schema.tables[i].1.columns && Contains(Lower(question), Lower(c.name)) ==>
      var r := ExtractRelevantTablesColumns(question, schema);
      schema.tables[i].0 in r.tables && schema.tables[i].0 in r.columns && c.name in r.columns[schema.tables[i].0]
  {
    var q := Lower(question);
    var ts := schema.tables;
    var t := ts[i].0;
    if Contains(q, Lower(t)) {
      assert t in HitTables(ts, q);
    }
    if c in ts[i].1.columns && Contains(q, Lower(c.name)) {
      assert c.name in ColumnHits(ts, i, q);
      assert t in HitTables(ts, q);
      assert t in ColumnTables(ts, q);
      assert c.name in ColumnMap(ts, q)[t];
    }
  }

  /** Soundness: outside the fallback every relevant table was named, or has
      a column named, in the question. */
  lemma {:induction false} ExtractionTablesWereNamed(question: string, schema: Schema, t: string)
    requires HitTables(schema.tables, Lower(question)) != {}
    ensures t in ExtractRelevantTablesColumns(question, schema).tables <==>
      exists i :: 0 <= i < |schema.tables| && schema.tables[i].0 == t &&
        (Contains(Lower(question), Lower(t)) ||
         exists c :: c in schema.tables[i].1.columns && Contains(Lower(question), Lower(c.name)))
  {
    var q := Lower(question);
    var ts := schema.tables;
    if t in HitTables(ts, q) {
      var i :| 0 <= i < |ts| && ts[i].0 == t && (Contains(q, Lower(ts[i].0)) || ColumnHits(ts, i, q) != {});
      if !Contains(q, Lower(t)) {
        var n :| n in ColumnHits(ts, i, q);
        var c :| c in ts[i].1.columns && Contains(q, Lower(c.name)) && c.name == n;
      }
    }
    if exists i :: 0 <= i < |ts| && ts[i].0 == t &&
        (Contains(q, Lower(t)) || exists c :: c in ts[i].1.columns && Contains(q, Lower(c.name))) {
      var i :| 0 <= i < |ts| && ts[i].0 == t &&
        (Contains(q, Lower(t)) || exists c :: c in ts[i].1.columns && Contains(q, Lower(c.name)));
      if !Contains(q, Lower(t)) {
        var c :| c in ts[i].1.columns && Contains(q, Lower(c.name));
        assert c.name in ColumnHits(ts, i, q);
      }
      assert t in HitTables(ts, q);
    }
  }

  /** When nothing is named the whole schema is relevant and no column is. */
  lemma ExtractionFallback(question: string, schema: Schema)
    requires HitTables(schema.tables, Lower(question)) == {}
    ensures ExtractRelevantTablesColumns(question, schema) == Extraction(NameSet(schema), map[])
  {
  }

  // ---------------------------------------------------------------------
  // Prompt assembly

  const PromptOpening := "\n    You are an expert SQL analyst for a "
  const PromptAfterDomain := " system.\n    "
  const PromptRules := "\n    \n    IMPORTANT: Use ONLY the actual table names and column names from the schema below. Do NOT use placeholder names like 'your_table_name' or 'table_name'.\n    \n    Schema (compact format):\n    "
  const PromptPatterns := "\n    \n    Common patterns for this domain:\n    "
  const PromptQuestion := "\n    \n    Question: \""
  const PromptClosing := "\"\n    \n    Use only the schema above. Output only the SQL query with actual table and column names.\n    "

  /** The schema block of the prompt: the relevant tables the schema has, in
      the iteration order of the relevant set. */
  function PromptTables(schema: Schema, relevant: set<string>, order: set<string> -> seq<string>): seq<(string, TableInfo)> {
    SelectTables(schema.tables, order(relevant))
  }

  /** The domain the prompt is written for: the one given, or the one the
      schema's table names suggest. */
  function PromptDomain(schema: Schema, domain: Option<Domain>): Domain {
    if domain.Some? then domain.value else IdentifyBusinessDomainFromSchema(Some(NameSet(schema)))
  }

  /** The prompt text before the schema block. */
  function PromptHead(d: Domain): string {
    PromptOpening + Tag(d) + PromptAfterDomain + DomainPromptContext(d).context + PromptRules
  }

  /** The prompt text after the schema block. */
  function PromptTail(d: Domain, question: string): string {
    PromptPatterns + Join("\n", DomainPromptContext(d).patterns) + PromptQuestion + question + PromptClosing
  }

  /** `generate_domain_specific_prompt`. */
  function DomainSpecificPrompt(question: string, schema: Schema, relevant: set<string>, domain: Option<Domain>,
                                order: set<string> -> seq<string>): string
  {
    var d := PromptDomain(schema, domain);
    PromptHead(d) + FormatCompactSchema(PromptTables(schema, relevant, order)) + PromptTail(d, question)
  }

  /** The schema block covers exactly the relevant tables the schema has,
      each with its own entry. */
  lemma PromptTablesAreRelevant(schema: Schema, relevant: set<string>, order: set<string> -> seq<string>)
    requires Enumerates(order)
    ensures var block := PromptTables(schema, relevant, order);
      && (forall t :: t in Names(block) <==> t in relevant && t in NameSet(schema))
      && (forall i :: 0 <= i < |block| ==> Lookup(schema.tables, block[i].0) == Some(block[i].1))
  {
    var block := PromptTables(schema, relevant, order);
    assert Elems(order(relevant)) == relevant;
    forall t | t in relevant && t in NameSet(schema) ensures t in Names(block) {
      var j :| 0 <= j < |schema.tables| && schema.tables[j].0 == t;
      assert t in Elems(order(relevant));
      assert Lookup(schema.tables, t).Some?;
    }
    forall t | t in Names(block) ensures t in relevant && t in NameSet(schema) {
      var i :| 0 <= i < |block| && block[i].0 == t;
      assert t in order(relevant);
      assert t in Elems(order(relevant));
      var j :| 0 <= j < |schema.tables| && schema.tables[j] == (t, block[i].1);
    }
  }

  /** The prompt carries the compact schema block and the question verbatim. */
  lemma PromptCarriesSchemaAndQuestion(question: string, schema: Schema, relevant: set<string>, domain: Option<Domain>,
                                       order: set<string> -> seq<string>)
    ensures var p := DomainSpecificPrompt(question, schema, relevant, domain, order);
      Contains(p, FormatCompactSchema(PromptTables(schema, relevant, order))) && Contains(p, question)
  {
    var d := PromptDomain(schema, domain);
    var compact := FormatCompactSchema(PromptTables(schema, relevant, order));
    assert OccursAt(compact, compact, 0);
    ContainsInConcat(PromptHead(d), compact, PromptTail(d, question), compact);
    var pre := PromptPatterns + Join("\n", DomainPromptContext(d).patterns) + PromptQuestion;
    assert PromptTail(d, question) == pre + question + PromptClosing;
    assert OccursAt(question, question, 0);
    ContainsInConcat(pre, question, PromptClosing, question);
    ContainsInConcat(PromptHead(d) + compact, PromptTail(d, question), "", question);
    assert PromptHead(d) + compact + PromptTail(d, question) + "" == DomainSpecificPrompt(question, schema, relevant, domain, order);
  }

  /** The error-feedback line appended for a retry. */
  function ErrorFeedback(error: string): string {
    "\nThe previously generated query failed with the error: \"" + error + "\".\n"
  }

  /** The prompt sent to the model: the domain prompt, then the conversation
      context when there is one, then the error feedback when there is one. */
  function AssemblePrompt(base: string, conversation: string, error: Option<string>): (p: string)
    ensures StartsWith(p, base)
    ensures conversation != "" ==> StartsWith(p[|base|..], "\n" + conversation + "\n")
    ensures error.Some? && error.value != "" ==> EndsWith(p, ErrorFeedback(error.value))
    ensures conversation == "" && (error.None? || error.value == "") ==> p == base
  {
    var withContext := if conversation != "" then base + ("\n" + conversation + "\n") else base;
    var p := if error.Some? && error.value != "" then withContext + ErrorFeedback(error.value) else withContext;
    assert p == base + p[|base|..];
    p
  }

  /** The tables the generator puts in the prompt: the resolver's answer, or
      for a non-general question that resolves to nothing, the domain's
      fallback tables. A general question that resolves to nothing keeps an
      empty set, and the prompt then shows no table at all. */
  function GenerationTables(question: string, schema: Schema, analyzer: Index, ratio: Ratio): (r: set<string>)
    ensures var found := FindRelevantTables(analyzer, question, RelevantThreshold, ratio);
      var d := DetectDomainFromQuestion(question);
      && (found != {} ==> r == found)
      && (found == {} && d == General ==> r == {})
      && (found == {} && d != General ==> r == FallbackTablesForDomain(d, Names(schema.tables)))
      && (found == {} && FallbackPrefix(d).Some? ==> |r| <= 3 && r <= NameSet(schema))
  {
    var found := FindRelevantTables(analyzer, question, RelevantThreshold, ratio);
    var d := DetectDomainFromQuestion(question);
    if found == {} && d != General then
      var r := FallbackTablesForDomain(d, Names(schema.tables));
      assert forall t :: t in Names(schema.tables) ==> t in NameSet(schema);
      r
    else found
  }

  /** With no tables in the prompt the schema block is empty. */
  lemma EmptyRelevantSetEmptiesSchemaBlock(schema: Schema, order: set<string> -> seq<string>)
    requires Enumerates(order)
    ensures FormatCompactSchema(PromptTables(schema, {}, order)) == ""
  {
    var e := order({});
    NoDupCard(e);
    assert SelectTables(schema.tables, e) == [];
  }

  // ---------------------------------------------------------------------
  // Post-processing of the model's answer

  const Placeholders := ["your_table_name", "your_column_name", "table_name", "column_name"]

  /** Strip white space, then a leading ```` ```sql ```` or ```` ``` ```` fence
      together with the last three characters. */
  function StripFences(raw: string): string {
    var sql := Strip(raw);
    if StartsWith(sql, "```sql") then Strip(PySlice(sql, 6, -3))
    else if StartsWith(sql, "```") then Strip(PySlice(sql, 3, -3))
    else sql
  }

  predicate HasPlaceholder(sql: string) {
    ContainsAny(Lower(sql), Placeholders)
  }

  predicate IsSelect(sql: string) {
    StartsWith(Lower(Strip(sql)), "select")
  }

  predicate IsErrorSentinel(sql: string) {
    StartsWith(sql, "--ERROR")
  }

  /** What the guard lets through: a SELECT without placeholder names. */
  predicate Acceptable(sql: string) {
    !HasPlaceholder(sql) && IsSelect(sql) && !IsErrorSentinel(sql)
  }

  /** The verdict on a fresh answer: None for a placeholder, a non-SELECT or
      the error sentinel. */
  function PostProcess(raw: string): (r: Option<string>)
    ensures r.Some? ==> Acceptable(r.value) && r.value == StripFences(raw)
    ensures r.None? ==> !Acceptable(StripFences(raw))
  {
    var sql := StripFences(raw);
    if HasPlaceholder(sql) || !IsSelect(sql) || IsErrorSentinel(sql) then None else Some(sql)
  }

  // ---------------------------------------------------------------------
  // Caches

  /** A Redis store: values with absolute expiry times; `up` is false when
      the client could not connect, and then every read misses and every
      write is dropped. */
  datatype Redis<K(==), V> = Redis(up: bool, entries: map<K, (V, int)>)

  function RedisGet<K(==), V>(r: Redis<K, V>, key: K, now: int): (v: Option<V>)
    ensures v.Some? ==> r.up && key in r.entries && now < r.entries[key].1
  {
    if r.up && key in r.entries && now < r.entries[key].1 then Some(r.entries[key].0) else None
  }

  function RedisSet<K(==, !new), V>(r: Redis<K, V>, key: K, v: V, ttl: int, now: int): (r': Redis<K, V>)
    ensures r.up ==> RedisGet(r', key, now) == (if ttl > 0 then Some(v) else None)
    ensures r.up ==> forall t :: now <= t < now + ttl ==> RedisGet(r', key, t) == Some(v)
    ensures r.up ==> forall t :: t >= now + ttl ==> RedisGet(r', key, t).None?
    ensures forall k, t :: k != key ==> RedisGet(r', k, t) == RedisGet(r, k, t)
    ensures !r.up ==> r' == r
  {
    if r.up then r.(entries := r.entries[key := (v, now + ttl)]) else r
  }

  const LlmCacheSeconds := 3600
  const SchemaCacheSeconds := 60 * 60

  /** The cache key of a generated query. The program hashes the question
      with the JSON list of the relevant tables; the hash is kept opaque. */
  datatype LlmKey = LlmKey(question: string, tables: seq<string>, database: string)

  function DatabaseName(database: Option<string>): string {
    if database.Some? && database.value != "" then database.value else "default"
  }

  /** The outcome of one generation: the SQL handed back, the cache after
      the call, and whether the model was asked. */
  datatype Generation = Generation(sql: Option<string>, cache: Redis<LlmKey, string>, asked: bool)

  /** The completion service: None when the call raised. */
  type Completion = string -> Option<string>

  /** The cache step as the program writes it: a hit is returned without any
      check, and a fresh answer is cached before the SELECT check rejects it. */
  function CachedCompletionAsWritten(prompt: string, key: LlmKey, cache: Redis<LlmKey, string>, now: int,
                                     complete: Completion): (g: Generation)
    ensures var hit := RedisGet(cache, key, now);
      hit.Some? && hit.value != "" ==> g == Generation(hit, cache, false)
    ensures g.asked && g.sql.Some? ==> Acceptable(g.sql.value)
  {
    var hit := RedisGet(cache, key, now);
    if hit.Some? && hit.value != "" then Generation(hit, cache, false)
    else match complete(prompt)
      case None => Generation(None, cache, true)
      case Some(raw) =>
        // A placeholder answer returns at once; any other answer except
        // the error sentinel is stored before the SELECT check runs, and
        // what comes back is the guard's verdict.
        var sql := StripFences(raw);
        var cache' := if HasPlaceholder(sql) || IsErrorSentinel(sql) then cache
                      else RedisSet(cache, key, sql, LlmCacheSeconds, now);
        Generation(PostProcess(raw), cache', true)
  }

  /** Every cached query passes the guard. */
  ghost predicate CacheAcceptable(cache: Redis<LlmKey, string>) {
    forall k :: k in cache.entries ==> cache.entries[k].0 == "" || Acceptable(cache.entries[k].0)
  }

  /** The cache step with the write moved behind the guard: only a query the
      guard accepts is cached. */
  function CachedCompletion(prompt: string, key: LlmKey, cache: Redis<LlmKey, string>, now: int,
                            complete: Completion): (g: Generation)
    ensures var hit := RedisGet(cache, key, now);
      hit.Some? && hit.value != "" ==> g == Generation(hit, cache, false)
    ensures g.asked && g.sql.Some? ==> Acceptable(g.sql.value)
    ensures g.cache == cache || (g.sql.Some? && g.cache == RedisSet(cache, key, g.sql.value, LlmCacheSeconds, now))
    ensures !g.asked ==> g.cache == cache
  {
    var hit := RedisGet(cache, key, now);
    if hit.Some? && hit.value != "" then Generation(hit, cache, false)
    else match complete(prompt)
      case None => Generation(None, cache, true)
      case Some(raw) =>
        var r := PostProcess(raw);
        if r.Some? then Generation(r, RedisSet(cache, key, r.value, LlmCacheSeconds, now), true)
        else Generation(None, cache, true)
  }

  /** The guarded cache keeps holding only acceptable queries, so every
      query it hands out, fresh or cached, passes the guard. */
  lemma CachedCompletionKeepsCacheAcceptable(prompt: string, key: LlmKey, cache: Redis<LlmKey, string>, now: int,
                                             complete: Completion)
    requires CacheAcceptable(cache)
    ensures var g := CachedCompletion(prompt, key, cache, now, complete);
      CacheAcceptable(g.cache) && (g.sql.Some? ==> Acceptable(g.sql.value))
  {
    var g := CachedCompletion(prompt, key, cache, now, complete);
    if !g.asked {
      assert key in cache.entries;
    }
  }

  const DropUsers := "DROP TABLE users"

  /** "DROP TABLE users" is its own cleaned form, names no placeholder, is
      not the error sentinel and is not a SELECT. */
  lemma DropUsersIsRejected()
    ensures StripFences(DropUsers) == DropUsers
    ensures !HasPlaceholder(DropUsers) && !IsErrorSentinel(DropUsers) && !IsSelect(DropUsers)
  {
    assert DropUsers[0] == 'D' && DropUsers[|DropUsers| - 1] == 's';
    PlainNonSelect(DropUsers);
    DropUsersHasNoPlaceholder();
  }

  /** An answer with no surrounding space whose first character is neither a
      backquote, a dash nor an `s` passes through cleaning unchanged and is
      neither the error sentinel nor a SELECT. */
  lemma PlainNonSelect(s: string)
    requires |s| > 0 && !IsSpace(s[0]) && !IsSpace(s[|s| - 1])
    requires s[0] != '`' && s[0] != '-' && LowerChar(s[0]) != 's'
    ensures StripFences(s) == s && !IsErrorSentinel(s) && !IsSelect(s)
  {
    StripTrimmed(s);
    assert !StartsWith(s, "```sql") by {
      assert "```sql"[0] == '`';
    }
    assert !StartsWith(s, "```") by {
      assert "```"[0] == '`';
    }
    assert !StartsWith(s, "--ERROR") by {
      assert "--ERROR"[0] == '-';
    }
    assert !StartsWith(Lower(s), "select") by {
      assert Lower(s)[0] == LowerChar(s[0]);
      assert "select"[0] == 's';
    }
  }

  lemma DropUsersLower()
    ensures Lower(DropUsers) == "drop table users"
  {
  }

  lemma DropUsersHasNoPlaceholder()
    ensures !HasPlaceholder(DropUsers)
  {
    var l := "drop table users";
    DropUsersLower();
    NotContainsByChar(l, "your_table_name", 4);
    NotContainsByChar(l, "your_column_name", 4);
    NotContainsByChar(l, "table_name", 5);
    NotContainsByChar(l, "column_name", 0);
    NoneContained(l, Placeholders);
  }

  /** As written, a fresh answer that names no placeholder but is not a
      SELECT is refused and yet cached. */
  lemma AsWrittenCachesRejectedSql(prompt: string, key: LlmKey, cache: Redis<LlmKey, string>, now: int,
                                   complete: Completion, sql: string)
    requires RedisGet(cache, key, now).None?
    requires complete(prompt) == Some(sql) && StripFences(sql) == sql
    requires !HasPlaceholder(sql) && !IsErrorSentinel(sql) && !IsSelect(sql)
    ensures CachedCompletionAsWritten(prompt, key, cache, now, complete)
            == Generation(None, RedisSet(cache, key, sql, LlmCacheSeconds, now), true)
  {
  }

  /** The as-written cache step hands a rejected statement back: the first
      call refuses it but caches it, and a second call with the same key
      inside the hour returns it without asking the model. */
  lemma RejectedSqlReplayedFromCache(prompt: string, key: LlmKey, now: int, later: int,
                                     complete: Completion, complete2: Completion, sql: string)
    requires now <= later < now + LlmCacheSeconds
    requires complete(prompt) == Some(sql) && StripFences(sql) == sql && sql != ""
    requires !HasPlaceholder(sql) && !IsErrorSentinel(sql) && !IsSelect(sql)
    ensures var first := CachedCompletionAsWritten(prompt, key, Redis(true, map[]), now, complete);
      var second := CachedCompletionAsWritten(prompt, key, first.cache, later, complete2);
      && first.sql == None
      && second.sql == Some(sql)
      && !second.asked
  {
    var empty: Redis<LlmKey, string> := Redis(true, map[]);
    AsWrittenCachesRejectedSql(prompt, key, empty, now, complete, sql);
    var stored := RedisSet(empty, key, sql, LlmCacheSeconds, now);
    assert RedisGet(stored, key, later) == Some(sql);
  }

  /** The concrete case: a model answering "DROP TABLE users" gets it
      refused once and then served from the cache. */
  lemma DropUsersReplayedFromCache(prompt: string, key: LlmKey, now: int, later: int, complete: Completion, complete2: Completion)
    requires now <= later < now + LlmCacheSeconds
    requires complete(prompt) == Some(DropUsers)
    ensures var first := CachedCompletionAsWritten(prompt, key, Redis(true, map[]), now, complete);
      var second := CachedCompletionAsWritten(prompt, key, first.cache, later, complete2);
      && first.sql == None
      && second.sql == Some(DropUsers)
      && !second.asked
      && !IsSelect(DropUsers)
  {
    DropUsersIsRejected();
    RejectedSqlReplayedFromCache(prompt, key, now, later, complete, complete2, DropUsers);
  }

  // ---------------------------------------------------------------------
  // The SQL generator

  /** The prompt the generator sends: the domain-specific prompt over the
      generation tables, then the conversation context and error feedback. */
  function GenerationPrompt(question: string, s: Schema, conversation: string, error: Option<string>,
                            analyzer: Index, ratio: Ratio, order: set<string> -> seq<string>): string {
    var relevant := GenerationTables(question, s, analyzer, ratio);
    AssemblePrompt(DomainSpecificPrompt(question, s, relevant, Some(DetectDomainFromQuestion(question)), order),
                   conversation, error)
  }

  /** The cache key: the question, the generation tables in set iteration
      order and the database name. */
  function GenerationKey(question: string, s: Schema, database: Option<string>,
                         analyzer: Index, ratio: Ratio, order: set<string> -> seq<string>): LlmKey {
    LlmKey(question, order(GenerationTables(question, s, analyzer, ratio)), DatabaseName(database))
  }

  /** `generate_sql_token_optimized`, with the cache write placed behind the
      guard. `conversation` is the session's one-exchange context. */
  function GenerateSql(question: string, schema: Option<Schema>, conversation: string, error: Option<string>,
                       database: Option<string>, analyzer: Index, ratio: Ratio, order: set<string> -> seq<string>,
                       cache: Redis<LlmKey, string>, now: int, complete: Completion): (g: Generation)
    ensures schema.None? ==> g == Generation(None, cache, false)
    ensures g.asked && g.sql.Some? ==> Acceptable(g.sql.value)
    ensures g.cache == cache || (g.sql.Some? && Acceptable(g.sql.value))
  {
    match schema
    case None => Generation(None, cache, false)
    case Some(s) =>
      CachedCompletion(GenerationPrompt(question, s, conversation, error, analyzer, ratio, order),
                       GenerationKey(question, s, database, analyzer, ratio, order), cache, now, complete)
  }

  /** `generate_sql_token_optimized` as the program writes it: the cache
      step of `CachedCompletionAsWritten`, which stores a fresh answer before
      the SELECT check and returns a hit unchecked. */
  function GenerateSqlAsWritten(question: string, schema: Option<Schema>, conversation: string, error: Option<string>,
                                database: Option<string>, analyzer: Index, ratio: Ratio, order: set<string> -> seq<string>,
                                cache: Redis<LlmKey, string>, now: int, complete: Completion): (g: Generation)
    ensures schema.None? ==> g == Generation(None, cache, false)
    ensures g.asked && g.sql.Some? ==> Acceptable(g.sql.value)
  {
    match schema
    case None => Generation(None, cache, false)
    case Some(s) =>
      CachedCompletionAsWritten(GenerationPrompt(question, s, conversation, error, analyzer, ratio, order),
                                GenerationKey(question, s, database, analyzer, ratio, order), cache, now, complete)
  }

  /** On one call the two cache steps hand back the same SQL and ask the
      model alike. */
  lemma CacheStepsAgreeOnAnswers(prompt: string, key: LlmKey, cache: Redis<LlmKey, string>, now: int,
                                 complete: Completion)
    ensures var w := CachedCompletionAsWritten(prompt, key, cache, now, complete);
      var c := CachedCompletion(prompt, key, cache, now, complete);
      && w.sql == c.sql && w.asked == c.asked
  {
    var hit := RedisGet(cache, key, now);
    if !(hit.Some? && hit.value != "") && complete(prompt).Some? {
      var verdict := PostProcess(complete(prompt).value);
      assert CachedCompletionAsWritten(prompt, key, cache, now, complete).sql == verdict;
      assert CachedCompletion(prompt, key, cache, now, complete).sql == verdict;
    }
  }

  /** Where the two cache steps leave different caches, the model gave an
      answer the guard refused and the program's step stored it. */
  lemma CacheStepsDifferOnlyByRefusedAnswer(prompt: string, key: LlmKey, cache: Redis<LlmKey, string>, now: int,
                                            complete: Completion)
    ensures var w := CachedCompletionAsWritten(prompt, key, cache, now, complete);
      var c := CachedCompletion(prompt, key, cache, now, complete);
      w.cache != c.cache ==>
        && complete(prompt).Some? && PostProcess(complete(prompt).value).None?
        && w.cache == RedisSet(cache, key, StripFences(complete(prompt).value), LlmCacheSeconds, now)
  {
  }

  /** The program's generator and the corrected one return the same SQL on
      the same call; only the cache they leave behind can differ. */
  lemma GenerateSqlVersionsAgree(question: string, schema: Option<Schema>, conversation: string, error: Option<string>,
                                 database: Option<string>, analyzer: Index, ratio: Ratio, order: set<string> -> seq<string>,
                                 cache: Redis<LlmKey, string>, now: int, complete: Completion)
    ensures var w := GenerateSqlAsWritten(question, schema, conversation, error, database, analyzer, ratio, order, cache, now, complete);
      var c := GenerateSql(question, schema, conversation, error, database, analyzer, ratio, order, cache, now, complete);
      w.sql == c.sql && w.asked == c.asked
  {
    if schema.Some? {
      var s := schema.value;
      CacheStepsAgreeOnAnswers(GenerationPrompt(question, s, conversation, error, analyzer, ratio, order),
                               GenerationKey(question, s, database, analyzer, ratio, order), cache, now, complete);
    }
  }

  /** The program's generator replays a refused statement: with the model
      answering a non-SELECT, the first call returns nothing but caches it,
      and the same call within the hour returns it without asking. */
  lemma GenerateSqlAsWrittenReplaysRefusedSql(question: string, s: Schema, conversation: string, error: Option<string>,
                                              database: Option<string>, analyzer: Index, ratio: Ratio,
                                              order: set<string> -> seq<string>, now: int, later: int,
                                              complete: Completion, complete2: Completion, sql: string)
    requires now <= later < now + LlmCacheSeconds
    requires complete(GenerationPrompt(question, s, conversation, error, analyzer, ratio, order)) == Some(sql)
    requires StripFences(sql) == sql && sql != ""
    requires !HasPlaceholder(sql) && !IsErrorSentinel(sql) && !IsSelect(sql)
    ensures var first := GenerateSqlAsWritten(question, Some(s), conversation, error, database, analyzer, ratio, order,
                                              Redis(true, map[]), now, complete);
      var second := GenerateSqlAsWritten(question, Some(s), conversation, error, database, analyzer, ratio, order,
                                         first.cache, later, complete2);
      first.sql == None && second.sql == Some(sql) && !second.asked
  {
    RejectedSqlReplayedFromCache(GenerationPrompt(question, s, conversation, error, analyzer, ratio, order),
                                 GenerationKey(question, s, database, analyzer, ratio, order), now, later, complete, complete2, sql);
  }

  /** Started from a cache of acceptable queries, the generator only ever
      returns acceptable SQL and leaves the cache acceptable. */
  lemma GenerateSqlOnlyReturnsSelects(question: string, schema: Option<Schema>, conversation: string, error: Option<string>,
                                      database: Option<string>, analyzer: Index, ratio: Ratio, order: set<string> -> seq<string>,
                                      cache: Redis<LlmKey, string>, now: int, complete: Completion)
    requires CacheAcceptable(cache)
    ensures var g := GenerateSql(question, schema, conversation, error, database, analyzer, ratio, order, cache, now, complete);
      CacheAcceptable(g.cache) && (g.sql.Some? ==> Acceptable(g.sql.value))
  {
    if schema.Some? {
      var s := schema.value;
      CachedCompletionKeepsCacheAcceptable(GenerationPrompt(question, s, conversation, error, analyzer, ratio, order),
                                           GenerationKey(question, s, database, analyzer, ratio, order), cache, now, complete);
    }
  }

  // ---------------------------------------------------------------------
  // The two-tier schema cache

  /** The relationship list: one entry per foreign key, table by table. */
  function RelationshipsOf(tables: seq<(string, TableInfo)>): (r: seq<Relationship>)
    decreases |tables|
  {
    if |tables| == 0 then []
    else
      var fks := tables[0].1.foreignKeys;
      seq(|fks|, k requires 0 <= k < |fks| => Relationship(tables[0].0, fks[k].column, fks[k].referredTable, fks[k].referredColumn))
      + RelationshipsOf(tables[1..])
  }

  /** The relationship a foreign key of a table stands for. */
  function RelationshipOf(table: string, fk: ForeignKey): Relationship {
    Relationship(table, fk.column, fk.referredTable, fk.referredColumn)
  }

  /** Every relationship is some table's foreign key, and every foreign key
      of every table is listed. */
  lemma {:induction false} RelationshipsAreForeignKeys(tables: seq<(string, TableInfo)>, rel: Relationship)
    ensures rel in RelationshipsOf(tables) <==>
      exists i, k :: 0 <= i < |tables| && 0 <= k < |tables[i].1.foreignKeys|
                     && rel == RelationshipOf(tables[i].0, tables[i].1.foreignKeys[k])
    decreases |tables|
  {
    if |tables| > 0 {
      var fks := tables[0].1.foreignKeys;
      var head := seq(|fks|, k requires 0 <= k < |fks| => Relationship(tables[0].0, fks[k].column, fks[k].referredTable, fks[k].referredColumn));
      var rest := tables[1..];
      RelationshipsAreForeignKeys(rest, rel);
      assert RelationshipsOf(tables) == head + RelationshipsOf(rest);
      if rel in RelationshipsOf(tables) {
        if rel in head {
          var k :| 0 <= k < |fks| && head[k] == rel;
          assert rel == RelationshipOf(tables[0].0, tables[0].1.foreignKeys[k]);
        } else {
          var i, k :| 0 <= i < |rest| && 0 <= k < |rest[i].1.foreignKeys|
                      && rel == RelationshipOf(rest[i].0, rest[i].1.foreignKeys[k]);
          assert rest[i] == tables[i + 1];
        }
      }
      if exists i, k :: 0 <= i < |tables| && 0 <= k < |tables[i].1.foreignKeys|
                        && rel == RelationshipOf(tables[i].0, tables[i].1.foreignKeys[k]) {
        var i, k :| 0 <= i < |tables| && 0 <= k < |tables[i].1.foreignKeys|
                    && rel == RelationshipOf(tables[i].0, tables[i].1.foreignKeys[k]);
        if i == 0 {
          assert head[k] == rel;
        } else {
          assert rest[i - 1] == tables[i];
        }
      }
    }
  }

  /** The schema built from a live introspection. */
  function SchemaFromTables(tables: seq<(string, TableInfo)>): Schema {
    Schema(tables, RelationshipsOf(tables))
  }

  /** Redis holds the JSON of the schema; `None` stands for a value that does
      not parse. The in-memory tier keeps the schema with the time it was
      stored. */
  datatype SchemaCache = SchemaCache(redis: Redis<string, Option<Schema>>, memory: map<string, (Schema, int)>)

  datatype SchemaSource = FromRedis | FromMemory | Introspected | IntrospectionFailed

  datatype SchemaFetch = SchemaFetch(schema: Option<Schema>, cache: SchemaCache, source: SchemaSource)

  function SchemaKey(database: Option<string>): string {
    "schema_" + DatabaseName(database)
  }

  /** Whether the in-memory entry for `key` is younger than the expiry. */
  predicate MemoryFresh(cache: SchemaCache, key: string, now: int) {
    key in cache.memory && now - cache.memory[key].1 < SchemaCacheSeconds
  }

  /** `get_database_schema`: Redis first (a value that does not parse falls
      through), then a fresh in-memory entry, then live introspection, whose
      result is written to both tiers. `introspect` is None when
      introspection raised. */
  function GetDatabaseSchema(database: Option<string>, cache: SchemaCache, now: int,
                             introspect: Option<seq<(string, TableInfo)>>): (f: SchemaFetch)
    ensures var key := SchemaKey(database);
      var hit := RedisGet(cache.redis, key, now);
      && (f.source == FromRedis <==> hit.Some? && hit.value.Some?)
      && (f.source == FromMemory <==> !(hit.Some? && hit.value.Some?) && MemoryFresh(cache, key, now))
      && (f.source in {FromRedis, FromMemory} ==> f.cache == cache && f.schema.Some?)
      && (f.source == FromRedis ==> f.schema == hit.value)
      && (f.source == FromMemory ==> f.schema == Some(cache.memory[key].0))
      && (f.source == Introspected ==> introspect.Some? && f.schema == Some(SchemaFromTables(introspect.value))
                                       && f.cache.memory == cache.memory[key := (f.schema.value, now)]
                                       && f.cache.redis == RedisSet(cache.redis, key, f.schema, SchemaCacheSeconds, now))
      && (f.source == IntrospectionFailed <==> f.schema.None?)
      && (f.source == IntrospectionFailed ==> introspect.None? && f.cache == cache)
  {
    var key := SchemaKey(database);
    var hit := RedisGet(cache.redis, key, now);
    if hit.Some? && hit.value.Some? then SchemaFetch(hit.value, cache, FromRedis)
    else if MemoryFresh(cache, key, now) then SchemaFetch(Some(cache.memory[key].0), cache, FromMemory)
    else match introspect
      case None => SchemaFetch(None, cache, IntrospectionFailed)
      case Some(tables) =>
        var s := SchemaFromTables(tables);
        SchemaFetch(Some(s), SchemaCache(RedisSet(cache.redis, key, Some(s), SchemaCacheSeconds, now),
                                         cache.memory[key := (s, now)]), Introspected)
  }

  /** Within the hour after a live fetch the same schema comes back from a
      cache, whether or not Redis is reachable and whatever introspection
      would now say. */
  lemma SchemaServedFromCacheWithinTheHour(database: Option<string>, cache: SchemaCache, t0: int, t1: int,
                                           introspect0: Option<seq<(string, TableInfo)>>,
                                           introspect1: Option<seq<(string, TableInfo)>>)
    requires t0 <= t1 < t0 + SchemaCacheSeconds
    requires GetDatabaseSchema(database, cache, t0, introspect0).source == Introspected
    ensures var first := GetDatabaseSchema(database, cache, t0, introspect0);
      var second := GetDatabaseSchema(database, first.cache, t1, introspect1);
      && second.source in {FromRedis, FromMemory} && second.schema == first.schema && second.cache == first.cache
      && (second.source == FromRedis <==> cache.redis.up)
  {
    var key := SchemaKey(database);
    var first := GetDatabaseSchema(database, cache, t0, introspect0);
    var s := first.schema.value;
    assert MemoryFresh(first.cache, key, t1);
    if cache.redis.up {
      assert RedisGet(first.cache.redis, key, t1) == Some(Some(s));
    } else {
      assert RedisGet(first.cache.redis, key, t1) == None;
    }
  }

  /** A live fetch writes through to both tiers: for the hour that follows,
      the in-memory entry is fresh and holds the schema, Redis (when
      reachable) serves the schema, and no other Redis key changes. */
  lemma LiveFetchWritesThrough(database: Option<string>, cache: SchemaCache, now: int,
                               introspect: Option<seq<(string, TableInfo)>>, t: int)
    requires GetDatabaseSchema(database, cache, now, introspect).source == Introspected
    requires now <= t < now + SchemaCacheSeconds
    ensures var f := GetDatabaseSchema(database, cache, now, introspect);
      var key := SchemaKey(database);
      && MemoryFresh(f.cache, key, t) && f.cache.memory[key].0 == f.schema.value
      && (cache.redis.up ==> RedisGet(f.cache.redis, key, t) == Some(f.schema))
      && (!cache.redis.up ==> f.cache.redis == cache.redis)
      && (forall k, u :: k != key ==> RedisGet(f.cache.redis, k, u) == RedisGet(cache.redis, k, u))
  {
    var f := GetDatabaseSchema(database, cache, now, introspect);
    assert f.cache.memory[SchemaKey(database)] == (f.schema.value, now);
  }

  // ---------------------------------------------------------------------
  // The recovery loop

  /** One pass of the loop: the SQL generated (None or empty means skipped)
      and, when there was SQL, what executing it gave. */
  datatype Attempt = Attempt(sql: Option<string>, result: Option<ExecResult>)

  datatype Recovery =
    | Recovered(frame: Frame, query: string)
    | GaveUp(sql: Option<string>, error: Option<string>)
      /** `max_retries <= 0`: the program's final `return` reads `sql` before
          any assignment and raises. */
    | NoAttempt

  /** Python's truthiness of an optional string. */
  predicate Usable(sql: Option<string>) {
    sql.Some? && sql.value != ""
  }

  /** An unknown-column error: MySQL error 1054 or SQLite's "no such column". */
  predicate IsSchemaError(message: string) {
    Contains(message, "1054") || Contains(Lower(message), "no such column")
  }

  /** Errors the loop retries: a schema error or a syntax error. */
  predicate Retryable(message: string) {
    IsSchemaError(message) || Contains(Lower(message), "syntax error")
  }

  /** Whether the loop moves on after an attempt. */
  predicate Continues(a: Attempt) {
    a.result.None? || (a.result.value.Failed? && Retryable(a.result.value.message))
  }

  /** The last execution error in a trace, if any. */
  function LastError(trace: seq<Attempt>): (e: Option<string>)
    ensures e.Some? ==> exists i :: 0 <= i < |trace| && trace[i].result == Some(ExecResult.Failed(e.value))
    ensures e.None? ==> forall i :: 0 <= i < |trace| ==> !(trace[i].result.Some? && trace[i].result.value.Failed?)
    decreases |trace|
  {
    if |trace| == 0 then None
    else
      var a := trace[|trace| - 1];
      if a.result.Some? && a.result.value.Failed? then Some(a.result.value.message)
      else LastError(trace[..|trace| - 1])
  }

  /** The error handed to the generator: only the second attempt sees one. */
  function ErrorFor(i: nat, trace: seq<Attempt>): Option<string> {
    if i == 1 then LastError(trace) else None
  }

  /** What the loop does at attempt `i`, after the attempts before it. */
  function Step(i: nat, before: seq<Attempt>, generate: (nat, Option<string>) -> Option<string>,
                execute: string -> ExecResult): Attempt
  {
    var sql := generate(i, ErrorFor(i, before));
    Attempt(sql, if Usable(sql) then Some(execute(sql.value)) else None)
  }

  /** The run the program makes: each attempt follows from the ones before
      it, every attempt but the last moved on, the loop ends early only on
      success or a non-retryable error, and the outcome is read off the last
      attempt. */
  ghost predicate RecoveryRun(maxRetries: int, generate: (nat, Option<string>) -> Option<string>,
                              execute: string -> ExecResult, out: Recovery, trace: seq<Attempt>)
  {
    if maxRetries <= 0 then out == NoAttempt && trace == []
    else
      && 1 <= |trace| <= maxRetries
      && (forall i :: 0 <= i < |trace| ==> trace[i] == Step(i, trace[..i], generate, execute))
      && (forall i :: 0 <= i < |trace| - 1 ==> Continues(trace[i]))
      && (|trace| < maxRetries ==> !Continues(trace[|trace| - 1]))
      && var last := trace[|trace| - 1];
         if last.result.Some? && last.result.value.Rows? then out == Recovered(last.result.value.frame, last.sql.value)
         else out == GaveUp(last.sql, LastError(trace))
  }

  /** `execute_query_with_recovery`, with the generators and the executor as
      parameters. */
  method ExecuteQueryWithRecovery(maxRetries: int, generate: (nat, Option<string>) -> Option<string>,
                                  execute: string -> ExecResult) returns (out: Recovery, trace: seq<Attempt>)
    ensures RecoveryRun(maxRetries, generate, execute, out, trace)
    ensures out.Recovered? ==> |trace| > 0 && execute(out.query) == Rows(out.frame)
  {
    trace := [];
    if maxRetries <= 0 {
      return NoAttempt, trace;
    }
    var i := 0;
    while i < maxRetries
      invariant 0 <= i <= maxRetries && |trace| == i
      invariant forall j :: 0 <= j < i ==> trace[j] == Step(j, trace[..j], generate, execute)
      invariant forall j :: 0 <= j < i ==> Continues(trace[j])
    {
      var a := Step(i, trace, generate, execute);
      assert trace + [a] == (trace + [a])[..i] + [a];
      trace := trace + [a];
      assert forall j :: 0 <= j < i ==> trace[..j] == trace[..i][..j];
      if !Continues(a) {
        if a.result.value.Rows? {
          return Recovered(a.result.value.frame, a.sql.value), trace;
        }
        return GaveUp(a.sql, LastError(trace)), trace;
      }
      i := i + 1;
    }
    var last := trace[|trace| - 1];
    return GaveUp(last.sql, LastError(trace)), trace;
  }

  /** The run is determined by the generators and the executor. */
  lemma {:induction false} RecoveryRunUnique(maxRetries: int, generate: (nat, Option<string>) -> Option<string>,
                                             execute: string -> ExecResult,
                                             out1: Recovery, trace1: seq<Attempt>, out2: Recovery, trace2: seq<Attempt>)
    requires RecoveryRun(maxRetries, generate, execute, out1, trace1)
    requires RecoveryRun(maxRetries, generate, execute, out2, trace2)
    ensures out1 == out2 && trace1 == trace2
  {
    if maxRetries > 0 {
      var n := if |trace1| < |trace2| then |trace1| else |trace2|;
      RecoveryTracesAgree(generate, execute, trace1, trace2, n);
      if |trace1| < |trace2| {
        assert false;
      }
      if |trace2| < |trace1| {
        assert false;
      }
      assert trace1 == trace1[..n] && trace2 == trace2[..n];
    }
  }

  /** Two traces that follow the same steps agree on their common prefix. */
  lemma RecoveryTracesAgree(generate: (nat, Option<string>) -> Option<string>, execute: string -> ExecResult,
                            trace1: seq<Attempt>, trace2: seq<Attempt>, n: nat)
    requires n <= |trace1| && n <= |trace2|
    requires forall i :: 0 <= i < |trace1| ==> trace1[i] == Step(i, trace1[..i], generate, execute)
    requires forall i :: 0 <= i < |trace2| ==> trace2[i] == Step(i, trace2[..i], generate, execute)
    ensures trace1[..n] == trace2[..n]
  {
    var j := 0;
    while j < n
      invariant 0 <= j <= n && trace1[..j] == trace2[..j]
    {
      assert trace1[j] == Step(j, trace1[..j], generate, execute);
      assert trace2[j] == Step(j, trace2[..j], generate, execute);
      assert trace1[..j + 1] == trace1[..j] + [trace1[j]];
      assert trace2[..j + 1] == trace2[..j] + [trace2[j]];
      j := j + 1;
    }
  }

  /** With the program's placeholder generators, which always answer None,
      every attempt is skipped and the loop gives up with neither SQL nor
      error. */
  lemma PlaceholderGeneratorsGiveUp(maxRetries: int, execute: string -> ExecResult, out: Recovery, trace: seq<Attempt>)
    requires maxRetries > 0
    requires RecoveryRun(maxRetries, (i: nat, e: Option<string>) => None, execute, out, trace)
    ensures out == GaveUp(None, None) && |trace| == maxRetries
  {
    var generate := (i: nat, e: Option<string>) => None;
    assert forall i :: 0 <= i < |trace| ==> trace[i].result.None? by {
      forall i | 0 <= i < |trace| ensures trace[i].result.None? {
        assert trace[i] == Step(i, trace[..i], generate, execute);
      }
    }
    assert Continues(trace[|trace| - 1]);
  }
}
