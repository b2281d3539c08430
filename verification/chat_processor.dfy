/** The chat processor's rule-based routers: the sensitive-content check,
    the chart-type ladder, documentation and diagram detection, the single
    retry after a schema error and the response payload. The SQL generator
    and the query executor are parameters. */
module ChatProcessor {
  import opened Common
  import opened Text
  import opened Frames
  import opened DatabaseManager

  const SensitiveKeywords := ["password", "passwd", "secret", "credential", "token"]

  /** `check_sensitive_content`. */
  function CheckSensitiveContent(question: string): (r: bool)
    ensures r <==> exists i :: 0 <= i < |SensitiveKeywords| && Contains(Lower(question), SensitiveKeywords[i])
  {
    ContainsAny(Lower(question), SensitiveKeywords)
  }

  /** The check ignores case. */
  lemma SensitiveIgnoresCase(question: string)
    ensures CheckSensitiveContent(Lower(question)) == CheckSensitiveContent(question)
  {
    LowerIdempotent(question);
  }

  const CredentialsQuestion := "What are the credentials?"
  const ProductListQuestion := "List all products"

  lemma CredentialsLower()
    ensures Lower(CredentialsQuestion) == "what are the credentials?"
  {
  }

  lemma ProductListLower()
    ensures Lower(ProductListQuestion) == "list all products"
  {
  }

  /** "What are the credentials?" is sensitive: "credential" is inside
      "credentials". */
  lemma CredentialsAreSensitive()
    ensures CheckSensitiveContent(CredentialsQuestion)
  {
    var s := "what are the credentials?";
    CredentialsLower();
    OccursAtByIndex(s, "credential", 13);
    assert SensitiveKeywords[3] == "credential";
  }

  /** "List all products" is not sensitive. */
  lemma ProductListIsNotSensitive()
    ensures !CheckSensitiveContent(ProductListQuestion)
  {
    var t := "list all products";
    ProductListLower();
    NotContainsByChar(t, "password", 3);
    NotContainsByChar(t, "passwd", 3);
    NotContainsByChar(t, "secret", 1);
    NotContainsByChar(t, "credential", 0);
    NotContainsByChar(t, "token", 3);
    NoneContained(t, SensitiveKeywords);
  }

  // ---------------------------------------------------------------------
  // Chart type

  datatype ResponseType = Pie | Bar | Line | Scatter | Card | Table

  const PieWords := ["pie chart", "pie diagram"]
  const BarWords := ["bar chart", "bar diagram"]
  const LineWords := ["line chart", "line diagram"]
  const ScatterWords := ["scatter plot", "scatter chart", "scatter diagram"]
  const CardWords := ["card", "metric"]

  /** `determine_response_type_from_keywords`: first match down the ladder,
      a table by default. */
  function DetermineResponseType(question: string): ResponseType {
    var q := Lower(question);
    if ContainsAny(q, PieWords) then Pie
    else if ContainsAny(q, BarWords) then Bar
    else if ContainsAny(q, LineWords) then Line
    else if ContainsAny(q, ScatterWords) then Scatter
    else if ContainsAny(q, CardWords) then Card
    else Table
  }

  /** Each answer holds exactly when its phrases occur and none of the
      phrases of the rungs above it do. */
  lemma ResponseTypeFirstMatch(question: string)
    ensures var q := Lower(question); var r := DetermineResponseType(question);
      && (r == Pie <==> ContainsAny(q, PieWords))
      && (r == Bar <==> !ContainsAny(q, PieWords) && ContainsAny(q, BarWords))
      && (r == Line <==> !ContainsAny(q, PieWords) && !ContainsAny(q, BarWords) && ContainsAny(q, LineWords))
      && (r == Scatter <==> !ContainsAny(q, PieWords) && !ContainsAny(q, BarWords) && !ContainsAny(q, LineWords)
                            && ContainsAny(q, ScatterWords))
      && (r == Card <==> !ContainsAny(q, PieWords) && !ContainsAny(q, BarWords) && !ContainsAny(q, LineWords)
                         && !ContainsAny(q, ScatterWords) && ContainsAny(q, CardWords))
      && (r == Table <==> !ContainsAny(q, PieWords) && !ContainsAny(q, BarWords) && !ContainsAny(q, LineWords)
                          && !ContainsAny(q, ScatterWords) && !ContainsAny(q, CardWords))
  {
  }

  /** "show me the metrics" names no chart. */
  lemma MetricsNamesNoChart()
    ensures var s := "show me the metrics";
      !ContainsAny(s, PieWords) && !ContainsAny(s, BarWords) && !ContainsAny(s, LineWords) && !ContainsAny(s, ScatterWords)
  {
    var s := "show me the metrics";
    NotContainsByChar(s, "pie chart", 0);
    NotContainsByChar(s, "pie diagram", 0);
    NotContainsByChar(s, "bar chart", 0);
    NotContainsByChar(s, "bar diagram", 0);
    NotContainsByChar(s, "line chart", 0);
    NotContainsByChar(s, "line diagram", 0);
    NotContainsByChar(s, "scatter plot", 1);
    NotContainsByChar(s, "scatter chart", 1);
    NotContainsByChar(s, "scatter diagram", 1);
    NoneContained(s, PieWords);
    NoneContained(s, BarWords);
    NoneContained(s, LineWords);
    NoneContained(s, ScatterWords);
  }

  const MetricsQuestion := "Show me the metrics"

  lemma MetricsLower()
    ensures Lower(MetricsQuestion) == "show me the metrics"
  {
  }

  /** "Show me the metrics" asks for a card. */
  lemma MetricsIsCard()
    ensures DetermineResponseType(MetricsQuestion) == Card
  {
    var s := "show me the metrics";
    MetricsLower();
    MetricsNamesNoChart();
    OccursAtByIndex(s, "metric", 12);
    assert CardWords[1] == "metric";
  }

  // ---------------------------------------------------------------------
  // Documentation and diagram requests

  const DocKeywords := ["table", "column", "schema", "structure", "database", "list", "describe", "documentation", "metadata"]

  /** `is_documentation_query`. */
  function IsDocumentationQuery(question: string): (r: bool)
    ensures r <==> exists i :: 0 <= i < |DocKeywords| && Contains(Lower(question), DocKeywords[i])
  {
    ContainsAny(Lower(question), DocKeywords)
  }

  /** Documentation detection ignores case. */
  lemma DocumentationIgnoresCase(question: string)
    ensures IsDocumentationQuery(Lower(question)) == IsDocumentationQuery(question)
  {
    LowerIdempotent(question);
  }

  const DescribeSchemaQuestion := "Describe the database schema"
  const ReportQuestion := "Generate a report"

  lemma DescribeSchemaLower()
    ensures Lower(DescribeSchemaQuestion) == "describe the database schema"
  {
  }

  lemma ReportLower()
    ensures Lower(ReportQuestion) == "generate a report"
  {
  }

  /** "Describe the database schema" is a documentation question. */
  lemma DescribeSchemaIsDocumentation()
    ensures IsDocumentationQuery(DescribeSchemaQuestion)
  {
    var s := "describe the database schema";
    DescribeSchemaLower();
    OccursAtByIndex(s, "describe", 0);
    assert DocKeywords[6] == "describe";
  }

  const AllTablesQuestion := "Show me all tables"

  lemma AllTablesLower()
    ensures Lower(AllTablesQuestion) == "show me all tables"
  {
  }

  /** "Show me all tables" is a documentation question: "table" is inside
      "tables". */
  lemma AllTablesIsDocumentation()
    ensures IsDocumentationQuery(AllTablesQuestion)
  {
    var s := "show me all tables";
    AllTablesLower();
    OccursAtByIndex(s, "table", 12);
    assert DocKeywords[0] == "table";
  }

  /** "Generate a report" is not: none of its letters spells a keyword. */
  lemma ReportIsNotDocumentation()
    ensures !IsDocumentationQuery(ReportQuestion)
  {
    var t := "generate a report";
    ReportLower();
    NotContainsByChar(t, "table", 2);
    NotContainsByChar(t, "column", 0);
    NotContainsByChar(t, "schema", 0);
    NotContainsByChar(t, "structure", 0);
    NotContainsByChar(t, "database", 0);
    NotContainsByChar(t, "list", 0);
    NotContainsByChar(t, "describe", 0);
    NotContainsByChar(t, "documentation", 0);
    NotContainsByChar(t, "metadata", 0);
    NoneContained(t, DocKeywords);
  }

  /** The answer of `is_diagram_request`: whether a diagram is wanted, its
      kind ("relationship", "table_schema" or "") and the table named. */
  datatype DiagramRequest = DiagramRequest(requested: bool, kind: string, table: Option<string>)

  const DrawWords := ["diagram", "draw", "picture"]
  const NameMarkers := ["for", "of", "table"]
  const NotTableNames := ["diagram", "draw", "picture", "schema", "show"]

  predicate WantsRelationshipDiagram(q: string) {
    Contains(q, "relationship") && ContainsAny(q, DrawWords)
  }

  predicate WantsTableDiagram(q: string) {
    Contains(q, "table") && (ContainsAny(q, DrawWords) || Contains(q, "schema"))
  }

  /** Word `i` is a marker followed by a word that can be a table name. */
  predicate NamesTable(words: seq<string>, i: int) {
    0 <= i && i + 1 < |words| && words[i] in NameMarkers && words[i + 1] !in NotTableNames
  }

  /** The word after the first marker, from position `i` on, that is
      followed by a possible table name. */
  function TableNameFrom(words: seq<string>, i: nat): (r: Option<string>)
    ensures r.None? ==> forall k :: i <= k < |words| ==> !NamesTable(words, k)
    ensures r.Some? ==> exists j :: i <= j && NamesTable(words, j) && words[j + 1] == r.value
                                    && forall k :: i <= k < j ==> !NamesTable(words, k)
    decreases |words| - i
  {
    if i >= |words| then None
    else if NamesTable(words, i) then Some(words[i + 1])
    else TableNameFrom(words, i + 1)
  }

  /** `is_diagram_request`. */
  function IsDiagramRequest(question: string): (r: DiagramRequest)
    ensures var q := Lower(question);
      && (WantsRelationshipDiagram(q) ==> r == DiagramRequest(true, "relationship", None))
      && (!WantsRelationshipDiagram(q) && WantsTableDiagram(q) ==>
            r == DiagramRequest(true, "table_schema", TableNameFrom(Words(q), 0)))
      && (!WantsRelationshipDiagram(q) && !WantsTableDiagram(q) ==> r == DiagramRequest(false, "", None))
    ensures r.requested <==> r.kind != ""
    ensures r.table.Some? ==> r.kind == "table_schema"
  {
    var q := Lower(question);
    if WantsRelationshipDiagram(q) then DiagramRequest(true, "relationship", None)
    else if WantsTableDiagram(q) then DiagramRequest(true, "table_schema", TableNameFrom(Words(q), 0))
    else DiagramRequest(false, "", None)
  }

  /** A lower-case question without "relationship" or "table" is no
      diagram request. */
  lemma NoDiagramWithoutKeywords(question: string)
    requires !Contains(Lower(question), "relationship") && !Contains(Lower(question), "table")
    ensures IsDiagramRequest(question) == DiagramRequest(false, "", None)
  {
  }

  const DatabaseDiagramQuestion := "Draw a diagram of the database"
  const ProductsSchemaQuestion := "Draw the schema for products"
  const UsersDiagramQuestion := "Show me the table diagram for users"

  lemma DatabaseDiagramLower()
    ensures Lower(DatabaseDiagramQuestion) == "draw a diagram of the database"
  {
  }

  lemma DatabaseDiagramLacksKeywords()
    ensures !Contains(Lower(DatabaseDiagramQuestion), "relationship")
    ensures !Contains(Lower(DatabaseDiagramQuestion), "table")
  {
    var s := "draw a diagram of the database";
    DatabaseDiagramLower();
    NotContainsByChar(s, "relationship", 1);
    NotContainsByChar(s, "table", 3);
  }

  /** "Draw a diagram of the database" names neither "relationship" nor
      "table", so it is no diagram request at all. */
  lemma DrawDiagramOfDatabaseIsNoDiagram()
    ensures IsDiagramRequest(DatabaseDiagramQuestion) == DiagramRequest(false, "", None)
  {
    DatabaseDiagramLacksKeywords();
    NoDiagramWithoutKeywords(DatabaseDiagramQuestion);
  }

  lemma ProductsSchemaLower()
    ensures Lower(ProductsSchemaQuestion) == "draw the schema for products"
  {
  }

  lemma ProductsSchemaLacksKeywords()
    ensures !Contains(Lower(ProductsSchemaQuestion), "relationship")
    ensures !Contains(Lower(ProductsSchemaQuestion), "table")
  {
    var s := "draw the schema for products";
    ProductsSchemaLower();
    NotContainsByChar(s, "relationship", 2);
    NotContainsByChar(s, "table", 2);
  }

  /** "Draw the schema for products" lacks "table", so it too is no diagram
      request, and no table name is extracted. */
  lemma DrawSchemaForProductsIsNoDiagram()
    ensures IsDiagramRequest(ProductsSchemaQuestion) == DiagramRequest(false, "", None)
  {
    ProductsSchemaLacksKeywords();
    NoDiagramWithoutKeywords(ProductsSchemaQuestion);
  }

  lemma UsersDiagramLower()
    ensures Lower(UsersDiagramQuestion) == "show me the table diagram for users"
  {
  }

  lemma UsersDiagramLacksRelationship()
    ensures !Contains(Lower(UsersDiagramQuestion), "relationship")
  {
    var s := "show me the table diagram for users";
    UsersDiagramLower();
    NotContainsByChar(s, "relationship", 7);
  }

  lemma UsersDiagramWantsTable()
    ensures !WantsRelationshipDiagram(Lower(UsersDiagramQuestion))
    ensures WantsTableDiagram(Lower(UsersDiagramQuestion))
  {
    UsersDiagramLacksRelationship();
    var s := "show me the table diagram for users";
    UsersDiagramLower();
    OccursAtByIndex(s, "table", 12);
    OccursAtByIndex(s, "diagram", 18);
    assert DrawWords[0] == "diagram";
  }

  /** "Show me the table diagram for users" is a table-schema request. */
  lemma TableDiagramForUsers()
    ensures IsDiagramRequest(UsersDiagramQuestion).kind == "table_schema"
  {
    UsersDiagramWantsTable();
  }

  /** On the words of that question the extraction skips "diagram", the
      excluded word after "table", and takes "users", the word after "for". */
  lemma UsersDiagramNamesUsers()
    ensures TableNameFrom(["show", "me", "the", "table", "diagram", "for", "users"], 0) == Some("users")
  {
    var ws := ["show", "me", "the", "table", "diagram", "for", "users"];
    assert !NamesTable(ws, 0) && !NamesTable(ws, 1) && !NamesTable(ws, 2) && !NamesTable(ws, 3) && !NamesTable(ws, 4);
    assert NamesTable(ws, 5);
  }

  // ---------------------------------------------------------------------
  // Retry after a schema error

  /** The triple `process_sql_error` returns, and whether it asked the
      generator again. */
  datatype SqlRetry = SqlRetry(sql: Option<string>, frame: Option<Frame>, error: Option<string>, regenerated: bool)

  /** `process_sql_error`: one regeneration with the error as context, and
      one execution, only for a schema error. */
  function ProcessSqlError(errorMessage: string, question: string, database: string,
                           generate: (string, string, string) -> Option<string>,
                           execute: string -> ExecResult): (r: SqlRetry)
    ensures r.regenerated <==> IsSchemaError(errorMessage)
    ensures r.sql.None? ==> r == SqlRetry(None, None, Some(errorMessage), r.regenerated)
    ensures r.sql.Some? ==> r.regenerated && r.sql == generate(question, database, errorMessage) && r.sql.value != ""
    ensures r.sql.Some? ==> match execute(r.sql.value)
                            case Rows(f) => r.frame == Some(f) && r.error == None
                            case Failed(m) => r.frame == None && r.error == Some(m)
  {
    if IsSchemaError(errorMessage) then
      var sql := generate(question, database, errorMessage);
      if sql.Some? && sql.value != "" then
        match execute(sql.value)
        case Rows(f) => SqlRetry(sql, Some(f), None, true)
        case Failed(m) => SqlRetry(sql, None, Some(m), true)
      else SqlRetry(None, None, Some(errorMessage), true)
    else SqlRetry(None, None, Some(errorMessage), false)
  }

  /** For any other error the generator's answer does not matter: the
      result is the same whatever generator is passed. */
  lemma OtherErrorsIgnoreGenerator(errorMessage: string, question: string, database: string,
                                   g1: (string, string, string) -> Option<string>,
                                   g2: (string, string, string) -> Option<string>,
                                   execute: string -> ExecResult)
    requires !IsSchemaError(errorMessage)
    ensures ProcessSqlError(errorMessage, question, database, g1, execute)
            == ProcessSqlError(errorMessage, question, database, g2, execute)
            == SqlRetry(None, None, Some(errorMessage), false)
  {
  }

  // ---------------------------------------------------------------------
  // Response payload

  /** The response dictionary; an absent optional key is None. The content
      and the preview rows are values of the caller's choosing. */
  datatype Payload<C, P> = Payload(typ: string, content: C, sql: string, conversationCount: int,
                                   chartType: Option<string>, dataPreview: Option<P>, title: Option<string>)

  /** The keys the dictionary carries. */
  function PayloadKeys<C, P>(p: Payload<C, P>): set<string> {
    {"type", "content", "sql", "conversation_count"}
      + (if p.chartType.Some? then {"chart_type"} else {})
      + (if p.dataPreview.Some? then {"data_preview"} else {})
      + (if p.title.Some? then {"title"} else {})
  }

  /** `create_response_payload`; `dataPreview` None is Python's None. */
  function CreateResponsePayload<C, P>(responseType: string, content: C, sql: string, chartType: string,
                                       dataPreview: Option<P>, title: string): (p: Payload<C, P>)
    ensures {"type", "content", "sql", "conversation_count"} <= PayloadKeys(p)
    ensures p.typ == responseType && p.content == content && p.sql == sql && p.conversationCount == 0
    ensures ("chart_type" in PayloadKeys(p)) <==> chartType != ""
    ensures ("data_preview" in PayloadKeys(p)) <==> dataPreview.Some?
    ensures ("title" in PayloadKeys(p)) <==> title != ""
    ensures p.chartType.Some? ==> p.chartType.value == chartType
    ensures p.title.Some? ==> p.title.value == title
    ensures p.dataPreview == dataPreview
  {
    Payload(responseType, content, sql, 0,
            if chartType != "" then Some(chartType) else None,
            dataPreview,
            if title != "" then Some(title) else None)
  }
}
