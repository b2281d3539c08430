# DB-Report chat app: the deterministic core in Dafny

The DB-Report chat app answers questions about a MySQL database in plain
language. A language model turns each question into SQL, the program runs
the query, and the rows come back as a table, a chart, a set of cards or a
sentence. Around that model call sits a good deal of ordinary string, set
and map logic. This project models that logic and proves what it promises:

- **Domain analysis** (`DomainAnalyzer`):
  - the business-terms index;
  - the table classifier and the question classifier;
  - the three-pass relevant-table resolver;
  - the per-domain fallback tables.
- **Database manager** (`DatabaseManager`):
  - the compact schema rendering;
  - the relevant-schema filter and question-to-table extraction;
  - prompt assembly and post-processing of the model's SQL;
  - the SQL cache and the two-tier schema cache with their time limits;
  - the bounded recovery loop.
- **Chat processor** (`ChatProcessor`): the keyword routers (sensitive
  content, response type, documentation, diagrams), the single retry after a
  schema error, and the response payload.
- **Session manager** (`SessionManager`):
  - the session record;
  - the history capped at ten turns;
  - the image list;
  - the two conversation-context renderings. A turn's answer is either a
    text message or a response payload dictionary, since the chat routes
    store both.
- **Data processor and response formatter** (`DataProcessor`,
  `ResponseFormatter`):
  - cards, sentences, documentation lists and table records over a result
    frame;
  - the row cap and redaction of results;
  - JSON clean-up;
  - the answers to documentation questions.
- **Prompt optimizer** (`PromptOptimizer`): prompt analysis, phrase
  replacement, whitespace normalisation, truncation to a word budget, and
  the compact schema and domain prompt of the optimizer tool.

Shared modules:

- `Text` models Python's string operations on `seq<char>`:
  - `lower()` as ASCII lower-casing;
  - `in` as substring search;
  - `split()` and `join`, `strip()`, slicing with negative and out-of-range
    bounds, `replace` and `count`;
  - decimal rendering of counts.
- `Common` holds `Option`, filtering and duplicate-freedom.
- `Schemas` holds the schema records.
- `Frames` holds a result frame: column names, one numeric flag per column,
  and rows of cell texts.

Collaborators are parameters:

- the completion service (`Completion`);
- the query executor;
- the fuzzy ratio of the similarity library (an arbitrary function into
  0..100);
- the order in which Python iterates a set (`order`, any enumeration of the
  set);
- the clock (`now`);
- the Redis store (a map with expiry times and an up/down flag).

## Model

| member | source | states |
|---|---|---|
| DomainAnalyzer.ClassifyTable | utils/domain_analyzer.py:76-101 | a table is never classified as general; the ladder hr, inventory, financial, reporting falls back to core |
| DomainAnalyzer.ClassifyTableIgnoresCase | utils/domain_analyzer.py:78 | the classification depends only on the lower-cased table name |
| DomainAnalyzer.NameParts | utils/domain_analyzer.py:51-58 | every keyword taken from a name part is longer than two characters |
| DomainAnalyzer.KeywordTablesAreKnown | utils/domain_analyzer.py:49-74 | every table stored in the keyword index is a lower-cased business-terms key or `core_parties` |
| DomainAnalyzer.ShortKeywordsAreWholeNames | utils/domain_analyzer.py:49-74 | a keyword of at most two characters comes from a whole table name, a whole business name or its singular/plural variant, never from a split part |
| DomainAnalyzer.DomainTablesInvariant | utils/domain_analyzer.py:43-46 | every business-terms table sits in the bucket of its own classification, every bucketed table is a known key, and no table sits in two buckets |
| DomainAnalyzer.DomainTablesDisjoint | utils/domain_analyzer.py:43-46 | a table found in two domain buckets was found in the same bucket twice |
| DomainAnalyzer.DetectDomainFromQuestion | utils/domain_analyzer.py:103-147 | the question classifier never answers core |
| DomainAnalyzer.DetectDomainFirstMatch | utils/domain_analyzer.py:103-147 | each answer holds exactly when its keyword list matches the lower-cased question and no earlier list does; general exactly when none of the four lists matches |
| DomainAnalyzer.InventoryContextIsInventory | utils/domain_analyzer.py:114-145 | every inventory-context word is an inventory keyword, so the customer/supplier branch can only answer general |
| DomainAnalyzer.SalesReportIsInventory | tests/test_domain_analyzer.py:25 | "Generate a sales report" is classified as inventory, not the reporting the test expects |
| DomainAnalyzer.IdentifyBusinessDomainFromSchema | utils/domain_analyzer.py:149-171 | general exactly when no table name matches the hr, inventory or financial prefix or list (or there is no schema); the answer is one of four domains |
| DomainAnalyzer.FindRelevantTables | utils/domain_analyzer.py:173-213 | with an empty business-terms map the resolver can only find `core_parties` |
| DomainAnalyzer.FindRelevantTablesMonotone | utils/domain_analyzer.py:185-189 | raising the fuzzy threshold never adds a table |
| DomainAnalyzer.UnloadableTermsFindOnlyParties | utils/domain_analyzer.py:28-30 | when the terms file cannot be loaded, every question resolves to a subset of {`core_parties`} |
| DomainAnalyzer.ResolveRelevantTables | utils/domain_analyzer.py:173-213 | the program's nested loops compute the union of the exact, fuzzy and domain passes after the reverse mapping |
| DomainAnalyzer.ExactPassLoop | utils/domain_analyzer.py:180-182 | the loop over keywords collects the tables of every keyword contained in the question |
| DomainAnalyzer.FuzzyPassLoop | utils/domain_analyzer.py:184-189 | the loop over the question's words of three or more word characters collects the tables of every keyword within the threshold |
| DomainAnalyzer.FuzzyWordLoop | utils/domain_analyzer.py:187-189 | for one word, the tables of every keyword whose ratio reaches the threshold |
| DomainAnalyzer.DomainPassLoop | utils/domain_analyzer.py:191-199 | the tables of every domain one of whose `_`-separated words occurs in the question |
| DomainAnalyzer.DomainPromptContext | utils/domain_analyzer.py:302-350 | a domain without canned context (core) gets the default context and no patterns; the others carry patterns |
| DomainAnalyzer.FallbackTablesForDomain | utils/domain_analyzer.py:352-366 | for inventory, hr and financial at most three schema tables with the domain's prefix; otherwise exactly the common tables present in the schema |
| DomainAnalyzer.FallbackIsFirstThree | utils/domain_analyzer.py:354-362 | a table is chosen exactly when it carries the prefix and fewer than three earlier tables do |
| DatabaseManager.CompactSchemaLines | utils/database_manager.py:422-448 | the rendering splits on newlines into one line per table, in schema order |
| DatabaseManager.ColumnTokenMarkers | utils/database_manager.py:429-435 | a column renders as `name(` and a type cut to ten characters, then `*PK` exactly for primary keys, then `!NULL` exactly for non-nullable columns |
| DatabaseManager.SelectTablesNames | utils/database_manager.py:207 | the kept tables are exactly the relevant tables that the schema has |
| DatabaseManager.GetRelevantSchema | utils/database_manager.py:191-216 | none exactly without a full schema; kept tables are relevant-or-fallback tables of the schema with unchanged info; a relationship is kept exactly when either end is relevant |
| DatabaseManager.ExtractRelevantTablesColumns | utils/database_manager.py:218-233 | a schema with tables never yields an empty table set; every column entry names columns of its own table |
| DatabaseManager.ExtractionTablesWereNamed | utils/database_manager.py:222-229 | when something matched, a table is returned exactly when its name or one of its column names occurs in the question |
| DatabaseManager.ExtractionFindsNamedTablesAndColumns | utils/database_manager.py:222-229 | a table or column named in the question is reported, the column under its table |
| DatabaseManager.ExtractionFallback | utils/database_manager.py:230-232 | with no match every table is returned with no columns |
| DatabaseManager.PromptTablesAreRelevant | utils/database_manager.py:462-465 | the prompt's schema block covers exactly the relevant tables the schema has, with their info |
| DatabaseManager.PromptCarriesSchemaAndQuestion | utils/database_manager.py:450-478 | the prompt contains the compact rendering of those tables and the question |
| DatabaseManager.AssemblePrompt | utils/database_manager.py:526-531 | the base prompt comes first, the conversation context next when non-empty, the error feedback last when given |
| DatabaseManager.GenerationTables | utils/database_manager.py:515-524 | resolved tables are used as found; with none found, a general question keeps the empty set and any other domain gets exactly `FallbackTablesForDomain` over the schema's tables: at most three prefixed schema tables, or for reporting the common tables the schema has |
| DatabaseManager.EmptyRelevantSetEmptiesSchemaBlock | utils/database_manager.py:519 | an empty relevant set renders an empty schema block |
| DatabaseManager.PostProcess | utils/database_manager.py:566-583 | a fresh completion is returned only if, after fence stripping, it has no placeholder, starts with `select` and is no `--ERROR` sentinel |
| DatabaseManager.DropUsersIsRejected | utils/database_manager.py:572-582 | `DROP TABLE users` passes the placeholder and sentinel checks but fails the SELECT guard |
| DatabaseManager.RedisGet | utils/database_manager.py:102-112 | a value is returned only from a live store, for a stored key, before its expiry |
| DatabaseManager.RedisSet | utils/database_manager.py:114-119 | a live store returns the written value at every time before its expiry and nothing from the expiry on; every other key reads as before; a down store is unchanged |
| DatabaseManager.CachedCompletionAsWritten | utils/database_manager.py:552-583 | a cache hit is returned without any check; a fresh answer is checked before it is returned |
| DatabaseManager.AsWrittenCachesRejectedSql | utils/database_manager.py:577-582 | a rejected non-SELECT answer is still written to the cache |
| DatabaseManager.RejectedSqlReplayedFromCache | utils/database_manager.py:553-555 | the rejected answer is served from the cache on the next identical request, without the guard |
| DatabaseManager.DropUsersReplayedFromCache | utils/database_manager.py:553-582 | concretely, `DROP TABLE users` is rejected once and then served |
| DatabaseManager.CachedCompletion | utils/database_manager.py:552-583 | corrected cache step: only answers that pass the guard are written |
| DatabaseManager.CachedCompletionKeepsCacheAcceptable | utils/database_manager.py:577-582 | if every cached answer passes the guard, this stays so and every returned answer passes it |
| DatabaseManager.GenerateSqlAsWritten | utils/database_manager.py:490-586 | the program's pipeline, with its cache step: no schema gives no SQL and no model call; a freshly asked answer that is returned passes the guard |
| DatabaseManager.CacheStepsAgreeOnAnswers | utils/database_manager.py:552-583 | the program's cache step and the corrected one return the same SQL and ask the model alike on every call |
| DatabaseManager.CacheStepsDifferOnlyByRefusedAnswer | utils/database_manager.py:577-582 | where the two cache steps leave different caches, the model's answer was refused by the guard and the program's step stored it |
| DatabaseManager.GenerateSqlVersionsAgree | utils/database_manager.py:490-586 | the program's pipeline and the corrected one return the same SQL on every call; only the cache left behind can differ |
| DatabaseManager.GenerateSqlAsWrittenReplaysRefusedSql | utils/database_manager.py:552-583 | the program's pipeline refuses a non-SELECT answer, caches it, and returns it from the cache on the same call within the hour |
| DatabaseManager.GenerateSql | utils/database_manager.py:490-586 | corrected pipeline (cache write behind the guard): no schema gives no SQL and no model call; a freshly asked answer passes the guard; the cache changes only by a guarded answer |
| DatabaseManager.GenerateSqlOnlyReturnsSelects | utils/database_manager.py:490-586 | corrected pipeline: starting from a cache holding only guarded answers, every returned SQL starts with `select` and has no placeholder, and the cache stays so |
| DatabaseManager.RelationshipsAreForeignKeys | utils/database_manager.py:167-173 | the relationships are exactly one per foreign key of each table |
| DatabaseManager.GetDatabaseSchema | utils/database_manager.py:121-189 | a parsable Redis value is returned as is; otherwise the memory entry while under an hour old; otherwise introspection, whose schema is written to the memory tier and to Redis for an hour; a failed introspection gives none and changes nothing |
| DatabaseManager.LiveFetchWritesThrough | utils/database_manager.py:177-184 | for the hour after an introspection the memory entry is fresh and holds the schema, a live Redis serves it, and no other Redis key changes |
| DatabaseManager.SchemaServedFromCacheWithinTheHour | utils/database_manager.py:121-137 | within an hour of an introspection the same schema is served from a cache, from Redis exactly when Redis is up, and the caches are unchanged |
| DatabaseManager.LastError | utils/database_manager.py:614 | the recorded error is the message of a failed attempt, and there is none when nothing failed |
| DatabaseManager.ExecuteQueryWithRecovery | utils/database_manager.py:588-627 | the loop's result is the run the attempt rules define; a recovered result is the executor's rows for the returned query |
| DatabaseManager.RecoveryRunUnique | utils/database_manager.py:588-627 | the attempt rules determine the run: two runs from the same inputs agree in result and trace |
| DatabaseManager.PlaceholderGeneratorsGiveUp | utils/database_manager.py:480-488 | with the placeholder generators, which return nothing, every attempt is spent and the loop gives up with no SQL and no error |
| ChatProcessor.CheckSensitiveContent | utils/chat_processor.py:25-27 | true exactly when one of the five sensitive words occurs in the lower-cased question |
| ChatProcessor.SensitiveIgnoresCase | utils/chat_processor.py:27 | the check does not depend on letter case |
| ChatProcessor.CredentialsAreSensitive | tests/test_chat_processor.py:28 | "What are the credentials?" is sensitive |
| ChatProcessor.ProductListIsNotSensitive | tests/test_chat_processor.py:25 | "List all products" is not sensitive |
| ChatProcessor.ResponseTypeFirstMatch | utils/chat_processor.py:29-44 | each response type holds exactly when its phrases match and no earlier type's do; table exactly when nothing matches |
| ChatProcessor.MetricsIsCard | tests/test_chat_processor.py:45 | "Show me the metrics" gives a card |
| ChatProcessor.IsDocumentationQuery | utils/chat_processor.py:46-53 | true exactly when one of the nine documentation words occurs in the lower-cased question |
| ChatProcessor.DocumentationIgnoresCase | utils/chat_processor.py:48 | the answer depends only on the lower-cased question |
| ChatProcessor.AllTablesIsDocumentation | tests/test_chat_processor.py:58 | "Show me all tables" is a documentation question |
| ChatProcessor.DescribeSchemaIsDocumentation | tests/test_chat_processor.py:60 | "Describe the database schema" is a documentation question |
| ChatProcessor.ReportIsNotDocumentation | tests/test_chat_processor.py:64 | "Generate a report" is not a documentation question |
| ChatProcessor.TableNameFrom | utils/chat_processor.py:66-71 | the table name is the word after the first marker (`for`, `of`, `table`) whose next word is not excluded; none when there is no such marker |
| ChatProcessor.IsDiagramRequest | utils/chat_processor.py:55-75 | a relationship request wins and names no table; a table request names the extracted word; otherwise no diagram |
| ChatProcessor.NoDiagramWithoutKeywords | utils/chat_processor.py:59-75 | without `relationship` and `table` there is never a diagram |
| ChatProcessor.DrawDiagramOfDatabaseIsNoDiagram | tests/test_chat_processor.py:76 | "Draw a diagram of the database" is no diagram request, not the relationship diagram the test expects |
| ChatProcessor.DrawSchemaForProductsIsNoDiagram | tests/test_chat_processor.py:78 | "Draw the schema for products" is no diagram request, not the products table diagram the test expects |
| ChatProcessor.TableDiagramForUsers | tests/test_chat_processor.py:77 | "Show me the table diagram for users" is a table-schema request |
| ChatProcessor.UsersDiagramNamesUsers | tests/test_chat_processor.py:77 | its extracted table name is `users` |
| ChatProcessor.ProcessSqlError | utils/chat_processor.py:129-140 | the generator is consulted exactly for a schema error; a regenerated query is run and its rows or error returned; otherwise the error comes back unchanged |
| ChatProcessor.OtherErrorsIgnoreGenerator | utils/chat_processor.py:132-140 | for any other error the result does not depend on the generator at all |
| ChatProcessor.CreateResponsePayload | utils/chat_processor.py:142-160 | type, content, sql and a zero count are always present; chart type and title exactly when non-empty; the preview exactly when given |
| SessionManager.InitSession | utils/session_manager.py:25-32 | missing fields are filled, present ones are kept |
| SessionManager.InitSessionIdempotent | utils/session_manager.py:25-32 | initialising twice is initialising once |
| SessionManager.AddTurn | utils/session_manager.py:34-54 | the history grows by one up to ten, ends with the new turn and keeps the latest old turns in order |
| SessionManager.AddTurnIsLastTen | utils/session_manager.py:50-52 | the new history is the last ten of the old history followed by the turn |
| SessionManager.AddTurnsKeepsLastTen | utils/session_manager.py:50-52 | after any sequence of adds the history is the last ten turns ever added and never longer than ten |
| SessionManager.ClearConversationHistory | utils/session_manager.py:60-64 | history and image list are empty afterwards; the id is kept |
| SessionManager.AddGeneratedImage | utils/session_manager.py:99-104 | the file name is appended to the image list; nothing else changes |
| SessionManager.Cut | utils/session_manager.py:165 | a text within the limit is kept; a longer one is cut to the limit and gets `...` |
| SessionManager.ConversationContextAsWritten | utils/session_manager.py:157-168 | empty exactly without history; otherwise the header and the blocks of the slice `[-limit:]` |
| SessionManager.ContextLimitZeroTakesEverything | utils/session_manager.py:162 | with limit 0 the slice takes the whole history, not zero turns |
| SessionManager.ConversationContext | utils/session_manager.py:157-168 | corrected: empty exactly without history; otherwise the header and the last `limit` turns |
| SessionManager.ContextAgreesForPositiveLimits | utils/session_manager.py:162 | for every positive limit the corrected and the as-written context are equal |
| SessionManager.OptimizedConversationContext | utils/session_manager.py:170-197 | empty unless the question has a context word and there is history; otherwise it raises exactly when one of the last two turns has SQL and a payload answer, and else starts with the `Recent context:` header |
| SessionManager.OptimizedBlocks | utils/session_manager.py:188-195 | the blocks fail exactly when some turn has SQL and a payload answer, on which `startswith` raises |
| SessionManager.OptimizedBlockShape | utils/session_manager.py:189-195 | the question is cut to at most 53 characters; a turn raises exactly when it has SQL and a payload; otherwise a `Found:` line is present exactly for a turn with SQL whose text answer does not start with `Error` |
| SessionManager.PayloadWithSqlRaises | utils/session_manager.py:192 | a payload answer with SQL as the latest turn makes the optimized context raise for any question that refers back |
| SessionManager.TextTurnsNeverRaise | utils/session_manager.py:192 | over a history of text answers the optimized context always renders |
| DataProcessor.FormatCompactSchema | utils/data_processor.py:69-95 | the second copy renders exactly what the database manager's copy renders |
| DataProcessor.ExtractRelevantTablesColumns | utils/data_processor.py:204-224 | the second copy extracts exactly what the database manager's copy extracts |
| DataProcessor.ScanTable | utils/data_processor.py:210-217 | one table's scan adds the table when its name or a column name occurs, and records the occurring column names |
| DataProcessor.FormatCardResponse | utils/data_processor.py:97-126 | none exactly for an empty frame; one `Result` card for a single cell; otherwise one card per leading column, at most four |
| DataProcessor.CardTitlesAreLeadingColumns | utils/data_processor.py:111-126 | the card titles are the first min(4, columns) column names in order |
| DataProcessor.GenerateNlFromData | utils/data_processor.py:172-189 | the four cases: apology, `I found: v`, the pieces sentence, the records sentence |
| DataProcessor.NlReportsCounts | utils/data_processor.py:188-189 | the numbers in the records sentence read back as the row and column counts |
| DataProcessor.Redact | utils/data_processor.py:54-57 | every cell of a column whose lower-cased name contains a sensitive word becomes `[REDACTED]`; other cells are kept |
| DataProcessor.RedactIdempotent | utils/data_processor.py:54-57 | redacting twice is redacting once |
| DataProcessor.ValidateAndSanitizeResults | utils/data_processor.py:44-67 | as written: no frame or an empty one gives `No results found`; over 10000 rows the first 1000 are returned unredacted; otherwise the redacted frame |
| DataProcessor.LargeResultsLeakSensitiveColumns | utils/data_processor.py:50-51 | a `password` column of 10001 rows comes back with its cleartext cell |
| DataProcessor.ValidateAndSanitizeResultsRedacted | utils/data_processor.py:44-67 | corrected: identical up to 10000 rows, and the truncated frame is redacted too |
| DataProcessor.RedactedValidationHidesSensitiveColumns | utils/data_processor.py:53-57 | in every non-empty result of the corrected validation, every sensitive column holds only `[REDACTED]` |
| DataProcessor.CleanForJson | utils/data_processor.py:191-202 | the result is clean and has the input's shape: same keys, same list lengths, at every depth; a missing value becomes null, a date its ISO text, any other scalar is kept |
| DataProcessor.CleanForJsonIsLeafwise | utils/data_processor.py:191-202 | the result is the leaf-by-leaf cleaning of the input (null for a missing value, ISO text for a date, other scalars kept) and the only object in that relation |
| DataProcessor.CleanIsFixed | utils/data_processor.py:191-202 | a clean value is left unchanged |
| DataProcessor.CleanForJsonIdempotent | utils/data_processor.py:191-202 | cleaning twice is cleaning once |
| ResponseFormatter.FormatCardResponse | utils/response_formatter.py:200-229 | the formatter's card loop yields exactly the data processor's cards |
| ResponseFormatter.FormatDatabaseDocumentationResponse | utils/response_formatter.py:231-265 | the fixed message exactly for an empty frame; several rows always give one of the three listing headers |
| ResponseFormatter.DocumentationTableListing | utils/response_formatter.py:237-240 | the header's number reads back as the row count, followed by one bullet line per row with its first cell |
| ResponseFormatter.DocumentationColumnListing | utils/response_formatter.py:243-249 | one line per row: the bold name, with the type in parentheses exactly when the row has a non-empty type |
| ResponseFormatter.DocumentationNarratesOnlyOneWideRow | utils/response_formatter.py:252-265 | the text formatter is consulted exactly for one row of several columns |
| ResponseFormatter.FormatTableResponse | utils/response_formatter.py:267-279 | `No data found.` exactly for an empty frame; otherwise one record per row with one field per column |
| ResponseFormatter.TableRecordsReadBack | utils/response_formatter.py:275 | each record's keys are the column names and its values the row's cells |
| ResponseFormatter.Intent | utils/response_formatter.py:326-366 | the question's intent follows the branch order tables, columns, structure, describe, help |
| ResponseFormatter.FirstNamedFrom | utils/response_formatter.py:335-336 | the first table, in schema order, whose lower-cased name occurs in the question |
| ResponseFormatter.HandleDocumentationQuery | utils/response_formatter.py:314-399 | the apology without a schema; otherwise the answer of the question's intent, naming the first mentioned table where one is needed |
| ResponseFormatter.TableListingCountsTables | utils/response_formatter.py:326-331 | the listing's number reads back as the number of tables, followed by one bullet line per table in schema order |
| ResponseFormatter.ColumnListingPicksFirstNamedTable | utils/response_formatter.py:333-344 | the column listing is for the first schema table named in the question, at or before any named table |
| ResponseFormatter.DescriptionPicksFirstNamedTable | utils/response_formatter.py:366-389 | the description is likewise of the first named table |
| PromptOptimizer.AnalyzePrompt | tools/simple_prompt_optimizer.py:46-100 | word and character counts; the high-word-count suggestion exactly over 200 words; one suggestion per present redundant phrase; verbose schema exactly for a case-sensitive CREATE; repetitive instructions exactly over three; no suggestion twice |
| PromptOptimizer.PhraseSuggestions | tools/simple_prompt_optimizer.py:77-83 | a phrase suggestion is present exactly for a listed phrase found case-insensitively |
| PromptOptimizer.ApplyRemovals | tools/simple_prompt_optimizer.py:127-130 | at most one note per pair, each note naming a pair; with no phrase present the text is unchanged and nothing is noted |
| PromptOptimizer.ApplyRemovalsShortens | tools/simple_prompt_optimizer.py:116-130 | since no replacement is longer than its phrase, the replacement pass never lengthens the text |
| PromptOptimizer.NormaliseKeepsWords | tools/simple_prompt_optimizer.py:133 | normalising keeps the words and is idempotent |
| PromptOptimizer.PopWords | tools/simple_prompt_optimizer.py:139-143 | the truncation loop leaves the first max(target, 0) words, single-spaced |
| PromptOptimizer.OptimizePrompt | tools/simple_prompt_optimizer.py:104-151 | none exactly for a prompt without words (division by zero); normalised output; over budget the first max(target, 0) words and a truncation note, otherwise the normalised text; reduction is original minus final |
| PromptOptimizer.ColumnPartReadsBack | tools/simple_prompt_optimizer.py:158-160 | a column renders as `name:` and its type, `unknown` when missing, and ends in ` NOT NULL` exactly when nullable is false |
| PromptOptimizer.DomainPromptLines | tools/simple_prompt_optimizer.py:183-186 | the prompt is four lines: analyst and context, schema, question, `SQL:` |
| PromptOptimizer.DomainContextIgnoresCase | tools/simple_prompt_optimizer.py:174-181 | a known domain's context is chosen whatever its case; any other domain gets `<domain> system` |
| PromptOptimizer.GenerateOptimizationReport | tools/simple_prompt_optimizer.py:255-258 | an empty history gives the fixed message |
| Text.WordsOfJoin | tools/simple_prompt_optimizer.py:133 | splitting a single-spaced join of words gives the words back |
| Text.FieldsOfJoin | utils/response_formatter.py:329 | splitting a newline join of newline-free lines gives the lines back |
| Text.NatToStringRoundTrip | utils/response_formatter.py:329 | a rendered count reads back as the count |

## Left out

- The language-model calls are left out: the completion in `generate_sql_token_optimized`, `determine_response_type`, the response formatter's `generate_nl_from_data` and `handle_full_documentation_request`, and `generate_fallback_response`. The completion text is an input (`Completion`) and the narration is a parameter (`narrate`).
- `format_text_response` in both formatters delegates to the language model; it appears only as the `narrate` parameter.
- The data processor's own `format_database_documentation_response` duplicates the response formatter's; only the latter is modelled.
- MySQL, SQLAlchemy and pandas are left out. Introspection is an input (`introspect`, none when it raises) and the executor is a parameter. `get_smart_sample_data`, sample rows and the schema timestamp are left out.
- The Redis client is a map with expiry times and an up/down flag; a connection error reads as a miss. The JSON round trip of the cached schema is an `Option`, none when the stored text does not parse.
- Cache keys are opaque. The SQL cache key records the question, the table order chosen by `order` and the database; Python's per-process `hash()` is left out.
- The exception fallback prompt (utils/database_manager.py:532-550) is left out: building the domain prompt cannot fail in the model.
- Python's `lower()` is modelled as ASCII lower-casing: upper-case letters beyond ASCII are not lowered. `split()` follows Python's whitespace set, and the `\w` of the fuzzy pass is ASCII letters, digits and `_`.
- The fuzzy ratio is an arbitrary function; only the threshold rule over it is modelled.
- Loading `business_terms.json` is an input: a load failure is the empty map.
- Floating point is left out: `estimated_tokens`, `reduction_percentage`, the `,.2f` sums of numeric cards (a card records which column it totals) and benchmark rates.
- PromptOptimizer.AnalyzePrompt: the severity and advice text of each suggestion are left out; the suggestion kinds and their phrases are kept.
- PromptOptimizer.GenerateOptimizationReport: the full report (dates, averages) is a parameter; only the empty case is modelled.
- Cell values are texts. pandas dtypes, NaT handling, `sanitize_dataframe_for_json`, `astype(str)`, the `to_string` fallback and duplicate column names in `to_dict` are left out. Truthiness tests on a cell (for example the column type at utils/response_formatter.py:248) are tests for the empty text.
- DataProcessor.CleanForJson: a date is represented by its ISO text, and NaN/NaT by one marker value; objects of other Python types are not modelled.
- Image files, image clean-up, matplotlib/networkx diagrams, Flask request handling and the legacy monolith `opendai.py` are left out. Only the image-name list of the session is kept.
- The timestamp, database name and session id of a turn or session are inputs, since they come from the clock, the environment and `md5`.
- A payload answer is kept as its `str()` rendering, supplied with the turn; the dictionary rendering itself is not modelled.
- SessionManager.Cut: a negative `truncate` is not a case the program uses. The function follows Python slicing for it, but its contract speaks only of non-negative limits.
- `_build_indexes` iterates Python dictionaries, and the model keeps their order as a sequence of pairs. Duplicate business-term keys after lower-casing are not excluded.

## Findings

| source | as written | input that shows it | evidently intended | confidence | as-written member | corrected member |
|---|---|---|---|---|---|---|
| utils/database_manager.py:553-582 | the model's answer is written to the SQL cache before the SELECT guard, and a cache hit is returned without the guard | a completion `DROP TABLE users`: rejected on the first request, then served from the cache on the next identical request | only guarded SQL is cached and returned | high, not executed | DatabaseManager.CachedCompletionAsWritten, DatabaseManager.DropUsersReplayedFromCache, DatabaseManager.GenerateSqlAsWrittenReplaysRefusedSql | DatabaseManager.CachedCompletion, DatabaseManager.CachedCompletionKeepsCacheAcceptable, DatabaseManager.GenerateSqlOnlyReturnsSelects |
| utils/session_manager.py:162 | `history[-limit:]` with `limit = 0` is `history[0:]` | a non-empty history and `get_conversation_context(limit=0)` gives every turn | zero turns, only the header | medium, not executed | SessionManager.ConversationContextAsWritten, SessionManager.ContextLimitZeroTakesEverything | SessionManager.ConversationContext, SessionManager.ContextAgreesForPositiveLimits |
| utils/data_processor.py:50-51 | a result over 10000 rows is truncated and returned before the redaction loop | a `password` column with 10001 rows comes back with its cleartext cells | the truncated frame is redacted as well | high, not executed | DataProcessor.ValidateAndSanitizeResults, DataProcessor.LargeResultsLeakSensitiveColumns | DataProcessor.ValidateAndSanitizeResultsRedacted, DataProcessor.RedactedValidationHidesSensitiveColumns |
