/** The domain analyzer: classifies questions and tables into business
    domains and resolves which tables a question is about, from an index
    built over the business-terms map (physical table name -> business name). */
module DomainAnalyzer {
  import opened Common
  import opened Text

  datatype Domain = Hr | Inventory | Financial | Reporting | Core | General

  /** The domain's name as the program spells it. */
  function Tag(d: Domain): string {
    match d
    case Hr => "hr"
    case Inventory => "inventory"
    case Financial => "financial"
    case Reporting => "reporting"
    case Core => "core"
    case General => "general"
  }

  /** The business-terms map in file order: (table name, business name). */
  type BusinessTerms = seq<(string, string)>

  /** A terms file that cannot be read or parsed loads as the empty map. */
  function LoadBusinessTerms(file: Option<BusinessTerms>): BusinessTerms {
    if file.Some? then file.value else []
  }

  // ---------------------------------------------------------------------
  // Table classification

  /** First match by prefix or substring on the lower-cased table name. */
  function ClassifyTable(table: string): (d: Domain)
    ensures d != General
  {
    var t := Lower(table);
    if StartsWith(t, "hr_") || ContainsAny(t, ["employee", "attendance", "leave", "payroll", "shift"]) then Hr
    else if StartsWith(t, "inv_") || ContainsAny(t, ["product", "stock", "sales", "purchase", "inventory", "item"]) then Inventory
    else if StartsWith(t, "core_fin_") || ContainsAny(t, ["account", "transaction", "payment", "invoice", "bank"]) then Financial
    else if StartsWith(t, "report") || t in ["reports", "charts", "dashboards", "analytics"] then Reporting
    else Core
  }

  /** Classification ignores the case of the table name. */
  lemma ClassifyTableIgnoresCase(table: string)
    ensures ClassifyTable(Lower(table)) == ClassifyTable(table)
  {
    LowerIdempotent(table);
  }

  // ---------------------------------------------------------------------
  // Index construction

  const PartiesTable := "core_parties"
  const SupplierKeywords: set<string> := {"suppliers", "supplier"}

  /** The lookup structures built once from the business terms. */
  datatype Index = Index(
    reverse: map<string, string>,             // lower business name -> lower table name
    domainTables: map<Domain, set<string>>,   // domain -> lower table names
    keywords: map<string, set<string>>)       // keyword -> lower table names

  /** Parts of a name, split on `_` and white space, longer than two characters. */
  function NameParts(name: string): (r: set<string>)
    ensures forall p :: p in r ==> |p| > 2
  {
    set p | p in Fields(Lower(name), UnderscoreOrSpace) && |p| > 2
  }

  /** The naive singular or plural of a business name. */
  function Variant(w: string): string {
    if EndsWith(w, "s") then w[..|w| - 1] else w + "s"
  }

  /** The keywords one business term files its table under. */
  function TermKeywords(table: string, business: string): set<string> {
    NameParts(table) + NameParts(business) + {Lower(table), Lower(business), Variant(Lower(business))}
  }

  /** Adds `t` to the set under every key in `ks`, creating missing keys
      (a `defaultdict(set)` update). */
  function AddUnder<K>(m: map<K, set<string>>, ks: set<K>, t: string): map<K, set<string>> {
    map k | k in m.Keys + ks :: (if k in m then m[k] else {}) + (if k in ks then {t} else {})
  }

  /** A key/table pair of an `AddUnder` update is an old pair or a new one. */
  lemma AddUnderSpec<K>(m: map<K, set<string>>, ks: set<K>, t: string, k: K, x: string)
    ensures (k in AddUnder(m, ks, t) && x in AddUnder(m, ks, t)[k]) <==> ((k in m && x in m[k]) || (k in ks && x == t))
    ensures k in AddUnder(m, ks, t) <==> k in m || k in ks
  {
  }

  /** Files each entry's table under each of its keys, in order. */
  function Accumulate<K>(entries: seq<(set<K>, string)>): map<K, set<string>>
    decreases |entries|
  {
    if |entries| == 0 then map[]
    else
      var last := entries[|entries| - 1];
      AddUnder(Accumulate(entries[..|entries| - 1]), last.0, last.1)
  }

  /** The accumulated map holds exactly the (key, table) pairs of the entries. */
  lemma {:induction false} AccumulateSpec<K>(entries: seq<(set<K>, string)>, k: K, t: string)
    ensures (k in Accumulate(entries) && t in Accumulate(entries)[k])
        <==> exists i :: 0 <= i < |entries| && k in entries[i].0 && t == entries[i].1
    ensures k in Accumulate(entries) <==> exists i :: 0 <= i < |entries| && k in entries[i].0
    decreases |entries|
  {
    AccumulatePairs(entries, k, t);
    AccumulateKeys(entries, k);
  }

  lemma {:induction false} AccumulatePairs<K>(entries: seq<(set<K>, string)>, k: K, t: string)
    ensures (k in Accumulate(entries) && t in Accumulate(entries)[k])
        <==> exists i :: 0 <= i < |entries| && k in entries[i].0 && t == entries[i].1
    decreases |entries|
  {
    if |entries| > 0 {
      var n := |entries| - 1;
      var p := entries[..n];
      AccumulatePairs(p, k, t);
      AddUnderSpec(Accumulate(p), entries[n].0, entries[n].1, k, t);
      if exists i :: 0 <= i < |entries| && k in entries[i].0 && t == entries[i].1 {
        var i :| 0 <= i < |entries| && k in entries[i].0 && t == entries[i].1;
        if i < n {
          assert p[i] == entries[i];
        }
      }
      if exists i :: 0 <= i < |p| && k in p[i].0 && t == p[i].1 {
        var i :| 0 <= i < |p| && k in p[i].0 && t == p[i].1;
        assert p[i] == entries[i];
      }
    }
  }

  lemma {:induction false} AccumulateKeys<K>(entries: seq<(set<K>, string)>, k: K)
    ensures k in Accumulate(entries) <==> exists i :: 0 <= i < |entries| && k in entries[i].0
    decreases |entries|
  {
    if |entries| > 0 {
      var n := |entries| - 1;
      var p := entries[..n];
      AccumulateKeys(p, k);
      AddUnderSpec(Accumulate(p), entries[n].0, entries[n].1, k, "");
      if exists i :: 0 <= i < |entries| && k in entries[i].0 {
        var i :| 0 <= i < |entries| && k in entries[i].0;
        if i < n {
          assert p[i] == entries[i];
        }
      }
      if exists i :: 0 <= i < |p| && k in p[i].0 {
        var i :| 0 <= i < |p| && k in p[i].0;
        assert p[i] == entries[i];
      }
    }
  }

  function KeywordEntries(terms: BusinessTerms): (e: seq<(set<string>, string)>)
    ensures |e| == |terms|
  {
    seq(|terms|, i requires 0 <= i < |terms| => (TermKeywords(terms[i].0, terms[i].1), Lower(terms[i].0)))
  }

  function DomainEntries(terms: BusinessTerms): (e: seq<(set<Domain>, string)>)
    ensures |e| == |terms|
  {
    seq(|terms|, i requires 0 <= i < |terms| => ({ClassifyTable(terms[i].0)}, Lower(terms[i].0)))
  }

  /** Business name -> table name; a later term wins a clash. */
  function ReverseMap(terms: BusinessTerms): map<string, string>
    decreases |terms|
  {
    if |terms| == 0 then map[]
    else
      var last := terms[|terms| - 1];
      ReverseMap(terms[..|terms| - 1])[Lower(last.1) := Lower(last.0)]
  }

  /** The reverse map with the two supplier names pointed at `core_parties`. */
  function ReverseIndex(terms: BusinessTerms): map<string, string> {
    ReverseMap(terms)["suppliers" := PartiesTable]["supplier" := PartiesTable]
  }

  /** Each table under its domain. */
  function DomainIndex(terms: BusinessTerms): map<Domain, set<string>> {
    Accumulate(DomainEntries(terms))
  }

  /** Each table under its keywords, and `core_parties` under the supplier
      keywords. */
  function KeywordIndex(terms: BusinessTerms): map<string, set<string>> {
    AddUnder(Accumulate(KeywordEntries(terms)), SupplierKeywords, PartiesTable)
  }

  /** `_build_indexes`. */
  function BuildIndex(terms: BusinessTerms): Index {
    Index(ReverseIndex(terms), DomainIndex(terms), KeywordIndex(terms))
  }


  /** The lower-cased table names of the business terms. */
  function TableKeys(terms: BusinessTerms): set<string> {
    set i | 0 <= i < |terms| :: Lower(terms[i].0)
  }

  /** Keyword-index invariant, tables: every table filed under a keyword is a
      lower-cased business-terms key or `core_parties`. */
  lemma KeywordTablesAreKnown(terms: BusinessTerms, k: string, t: string)
    requires var kw := BuildIndex(terms).keywords; k in kw && t in kw[k]
    ensures t == PartiesTable || t in TableKeys(terms)
  {
    var e := KeywordEntries(terms);
    var acc := Accumulate(e);
    AddUnderSpec(acc, SupplierKeywords, PartiesTable, k, t);
    if t != PartiesTable {
      AccumulateSpec(e, k, t);
      var i :| 0 <= i < |e| && k in e[i].0 && t == e[i].1;
      assert e[i].1 == Lower(terms[i].0);
    }
  }

  /** Keyword-index invariant, keywords: a keyword of two characters or fewer
      never comes from a name part; it is a whole table or business name,
      the variant of one, or a supplier keyword. */
  lemma ShortKeywordsAreWholeNames(terms: BusinessTerms, k: string)
    requires k in BuildIndex(terms).keywords && |k| <= 2
    ensures || k in SupplierKeywords
            || exists i :: 0 <= i < |terms| && k in {Lower(terms[i].0), Lower(terms[i].1), Variant(Lower(terms[i].1))}
  {
    var e := KeywordEntries(terms);
    var acc := Accumulate(e);
    AddUnderSpec(acc, SupplierKeywords, PartiesTable, k, "");
    if k !in SupplierKeywords {
      AccumulateSpec(e, k, "");
      var i :| 0 <= i < |e| && k in e[i].0;
      ShortKeywordOfTerm(terms[i].0, terms[i].1, k);
    }
  }

  /** A short keyword of one term is one of its whole names. */
  lemma ShortKeywordOfTerm(table: string, business: string, k: string)
    requires k in TermKeywords(table, business) && |k| <= 2
    ensures k in {Lower(table), Lower(business), Variant(Lower(business))}
  {
    assert k !in NameParts(table) && k !in NameParts(business);
  }

  /** Every business-terms table sits in the bucket of its classification. */
  lemma DomainTablesCoverTerms(terms: BusinessTerms, i: int)
    requires 0 <= i < |terms|
    ensures var dt := DomainIndex(terms);
      ClassifyTable(terms[i].0) in dt && Lower(terms[i].0) in dt[ClassifyTable(terms[i].0)]
  {
    var e := DomainEntries(terms);
    AccumulateSpec(e, ClassifyTable(terms[i].0), Lower(terms[i].0));
    assert e[i] == ({ClassifyTable(terms[i].0)}, Lower(terms[i].0));
  }

  /** The buckets hold business-terms tables only. */
  lemma DomainTablesAreKnown(terms: BusinessTerms, d: Domain, t: string)
    requires d in DomainIndex(terms) && t in DomainIndex(terms)[d]
    ensures t in TableKeys(terms)
  {
    var e := DomainEntries(terms);
    AccumulateSpec(e, d, t);
    var i :| 0 <= i < |e| && d in e[i].0 && t == e[i].1;
    assert e[i].1 == Lower(terms[i].0);
  }

  /** A table sits in one bucket only. */
  lemma DomainTablesDisjoint(terms: BusinessTerms, d1: Domain, d2: Domain, t: string)
    requires d1 in DomainIndex(terms) && t in DomainIndex(terms)[d1]
    requires d2 in DomainIndex(terms) && t in DomainIndex(terms)[d2]
    ensures d1 == d2
  {
    var e := DomainEntries(terms);
    AccumulateSpec(e, d1, t);
    AccumulateSpec(e, d2, t);
    var i :| 0 <= i < |e| && d1 in e[i].0 && t == e[i].1;
    var j :| 0 <= j < |e| && d2 in e[j].0 && t == e[j].1;
    assert e[i] == ({ClassifyTable(terms[i].0)}, Lower(terms[i].0));
    assert e[j] == ({ClassifyTable(terms[j].0)}, Lower(terms[j].0));
    ClassifyTableIgnoresCase(terms[i].0);
    ClassifyTableIgnoresCase(terms[j].0);
  }

  /** Domain-bucket invariant: every business-terms table sits in the bucket
      of its own classification and in no other, and the buckets hold
      nothing else. */
  lemma DomainTablesInvariant(terms: BusinessTerms)
    ensures var dt := BuildIndex(terms).domainTables;
      && (forall i :: 0 <= i < |terms| ==>
            ClassifyTable(terms[i].0) in dt && Lower(terms[i].0) in dt[ClassifyTable(terms[i].0)])
      && (forall d, t :: d in dt && t in dt[d] ==> t in TableKeys(terms))
      && (forall d1, d2, t :: d1 in dt && d2 in dt && t in dt[d1] && t in dt[d2] ==> d1 == d2)
  {
    forall i | 0 <= i < |terms|
      ensures ClassifyTable(terms[i].0) in DomainIndex(terms) && Lower(terms[i].0) in DomainIndex(terms)[ClassifyTable(terms[i].0)]
    {
      DomainTablesCoverTerms(terms, i);
    }
    forall d, t | d in DomainIndex(terms) && t in DomainIndex(terms)[d]
      ensures t in TableKeys(terms)
    {
      DomainTablesAreKnown(terms, d, t);
    }
    forall d1, d2, t | d1 in DomainIndex(terms) && d2 in DomainIndex(terms) && t in DomainIndex(terms)[d1] && t in DomainIndex(terms)[d2]
      ensures d1 == d2
    {
      DomainTablesDisjoint(terms, d1, d2, t);
    }
  }

  // ---------------------------------------------------------------------
  // Question classification

  const HrKeywords := ["employee", "hire", "attendance", "leave", "hr", "human", "resource",
                       "staff", "personnel", "workforce", "payroll", "shift", "schedule", "department"]
  const InventoryKeywords := ["product", "stock", "inventory", "sales", "purchase", "item",
                              "goods", "merchandise", "supply", "order", "category", "brand"]
  const FinancialKeywords := ["account", "payment", "transaction", "financial", "money",
                              "invoice", "bank", "balance", "revenue", "expense", "budget", "credit"]
  const ReportingKeywords := ["report", "chart", "dashboard", "analytics", "statistics",
                              "summary", "overview", "trend", "graph"]
  const CoreEntityKeywords := ["user", "person", "party", "entity"]
  const InventoryContextKeywords := ["product", "stock", "inventory", "sales", "purchase", "order", "supply"]

  /** The keyword ladder over the lower-cased question. */
  function DetectDomainFromQuestion(question: string): (d: Domain)
    ensures d != Core
  {
    var q := Lower(question);
    if ContainsAny(q, HrKeywords) then Hr
    else if ContainsAny(q, InventoryKeywords) then Inventory
    else if ContainsAny(q, FinancialKeywords) then Financial
    else if ContainsAny(q, ReportingKeywords) then Reporting
    else if ContainsAny(q, CoreEntityKeywords) then General
    else if ContainsAny(q, ["customer", "supplier"]) then
      (if ContainsAny(q, InventoryContextKeywords) then Inventory else General)
    else General
  }

  /** Every inventory-context word is itself an inventory keyword. */
  lemma InventoryContextIsInventory(s: string)
    ensures ContainsAny(s, InventoryContextKeywords) ==> ContainsAny(s, InventoryKeywords)
  {
    if ContainsAny(s, InventoryContextKeywords) {
      var i :| 0 <= i < |InventoryContextKeywords| && Contains(s, InventoryContextKeywords[i]);
      var j := [0, 1, 2, 3, 4, 9, 8][i];
      assert InventoryKeywords[j] == InventoryContextKeywords[i];
    }
  }

  /** The classifier is a first match over the four domain keyword lists;
      every other question is general. In particular the customer/supplier
      branch can never yield inventory: a question with inventory context
      already stopped at the inventory rung. */
  lemma DetectDomainFirstMatch(question: string)
    ensures var q := Lower(question); var d := DetectDomainFromQuestion(question);
      && (d == Hr <==> ContainsAny(q, HrKeywords))
      && (d == Inventory <==> !ContainsAny(q, HrKeywords) && ContainsAny(q, InventoryKeywords))
      && (d == Financial <==> !ContainsAny(q, HrKeywords) && !ContainsAny(q, InventoryKeywords)
                              && ContainsAny(q, FinancialKeywords))
      && (d == Reporting <==> !ContainsAny(q, HrKeywords) && !ContainsAny(q, InventoryKeywords)
                              && !ContainsAny(q, FinancialKeywords) && ContainsAny(q, ReportingKeywords))
      && (d == General <==> !ContainsAny(q, HrKeywords) && !ContainsAny(q, InventoryKeywords)
                            && !ContainsAny(q, FinancialKeywords) && !ContainsAny(q, ReportingKeywords))
  {
    InventoryContextIsInventory(Lower(question));
  }

  /** "Generate a sales report" is an inventory question ("sales" sits on
      the inventory rung, above "report"), not a reporting one. */
  lemma SalesReportHasNoHrKeyword()
    ensures !ContainsAny("generate a sales report", HrKeywords)
  {
    var s := "generate a sales report";
    NotContainsByChar(s, "employee", 1);
    NotContainsByChar(s, "hire", 0);
    NotContainsByChar(s, "attendance", 4);
    NotContainsByChar(s, "leave", 3);
    NotContainsByChar(s, "hr", 0);
    NotContainsByChar(s, "human", 0);
    NotContainsByChar(s, "resource", 3);
    NotContainsByChar(s, "staff", 3);
    NotContainsByChar(s, "personnel", 0);
    NotContainsByChar(s, "workforce", 0);
    NotContainsByChar(s, "payroll", 0);
    NotContainsByChar(s, "shift", 1);
    NotContainsByChar(s, "schedule", 1);
    NotContainsByChar(s, "department", 0);
    NoneContained(s, HrKeywords);
  }

  /** "Generate a sales report" is an inventory question ("sales" sits on
      the inventory rung, above "report"), not a reporting one. */
  lemma SalesReportIsInventory()
    ensures DetectDomainFromQuestion("Generate a sales report") == Inventory
  {
    var q := "Generate a sales report";
    var s := "generate a sales report";
    assert Lower(q) == s;
    SalesReportHasNoHrKeyword();
    assert OccursAt(s, "sales", 11);
    assert InventoryKeywords[3] == "sales";
    DetectDomainFirstMatch(q);
  }

  // ---------------------------------------------------------------------
  // Domain of a whole schema

  const HrSchemaTables := ["employees", "attendance_records", "leave_requests", "shifts", "payroll"]
  const InventorySchemaTables := ["products", "sales", "stock_levels", "purchases", "inventory", "customers", "suppliers"]
  const FinancialSchemaTables := ["accounts", "transactions", "payments", "invoices", "bank_accounts"]

  predicate AnyTable(names: set<string>, prefix: string, known: seq<string>) {
    exists t | t in names :: StartsWith(t, prefix) || t in known
  }

  /** First match over the schema's table names (case-sensitive); no schema
      means general. */
  function IdentifyBusinessDomainFromSchema(names: Option<set<string>>): (d: Domain)
    ensures d in {Hr, Inventory, Financial, General}
    ensures d == General <==> (names.None? ||
      (!AnyTable(names.value, "hr_", HrSchemaTables) && !AnyTable(names.value, "inv_", InventorySchemaTables)
       && !AnyTable(names.value, "core_fin_", FinancialSchemaTables)))
    ensures names == Some({}) ==> d == General
  {
    if names.None? then General
    else if AnyTable(names.value, "hr_", HrSchemaTables) then Hr
    else if AnyTable(names.value, "inv_", InventorySchemaTables) then Inventory
    else if AnyTable(names.value, "core_fin_", FinancialSchemaTables) then Financial
    else General
  }

  // ---------------------------------------------------------------------
  // Relevant-table resolution

  /** The fuzzy similarity score of two strings, supplied by the caller. */
  type Ratio = (string, string) -> int

  const DefaultThreshold := 75

  /** Exact pass: the tables of every keyword occurring in the question. */
  function ExactPass(idx: Index, q: string): set<string> {
    set k, t | k in idx.keywords && t in idx.keywords[k] && Contains(q, k) :: t
  }

  /** Tables of every keyword scoring at least `threshold` against `w`. */
  function FuzzyWordPass(idx: Index, w: string, threshold: int, ratio: Ratio): set<string> {
    set k, t | k in idx.keywords && t in idx.keywords[k] && ratio(w, k) >= threshold :: t
  }

  /** Fuzzy pass over every `\w{3,}` word of the question. */
  function FuzzyPass(idx: Index, q: string, threshold: int, ratio: Ratio): set<string> {
    set w, t | w in LongWords(q) && t in FuzzyWordPass(idx, w, threshold, ratio) :: t
  }

  /** Domain pass: the whole bucket of every domain whose name occurs. */
  function DomainPass(idx: Index, q: string): set<string> {
    set d, t | d in idx.domainTables && t in idx.domainTables[d] && ContainsAny(q, Fields(Tag(d), Char('_'))) :: t
  }

  /** A matched table goes out under its reverse-map entry when it has one. */
  function Emit(idx: Index, t: string): string {
    if t in idx.reverse then idx.reverse[t] else t
  }

  /** The union of the three passes, each table reverse-mapped. */
  function FindRelevantTables(idx: Index, question: string, threshold: int, ratio: Ratio): (r: set<string>)
    ensures idx == BuildIndex([]) ==> r <= {PartiesTable}
  {
    var q := Lower(question);
    var matched := ExactPass(idx, q) + FuzzyPass(idx, q, threshold, ratio) + DomainPass(idx, q);
    set t | t in matched :: Emit(idx, t)
  }

  /** A higher threshold never finds more tables. */
  lemma FindRelevantTablesMonotone(idx: Index, question: string, lo: int, hi: int, ratio: Ratio)
    requires lo <= hi
    ensures FindRelevantTables(idx, question, hi, ratio) <= FindRelevantTables(idx, question, lo, ratio)
  {
    var q := Lower(question);
    forall w | w in LongWords(q)
      ensures FuzzyWordPass(idx, w, hi, ratio) <= FuzzyWordPass(idx, w, lo, ratio)
    {
    }
    assert FuzzyPass(idx, q, hi, ratio) <= FuzzyPass(idx, q, lo, ratio);
  }

  /** With an unreadable terms file the only table ever found is `core_parties`. */
  lemma UnloadableTermsFindOnlyParties(question: string, threshold: int, ratio: Ratio)
    ensures FindRelevantTables(BuildIndex(LoadBusinessTerms(None)), question, threshold, ratio) <= {PartiesTable}
  {
  }

  method ExactPassLoop(idx: Index, q: string) returns (m: set<string>)
    ensures m == ExactPass(idx, q)
  {
    m := {};
    var todo := idx.keywords.Keys;
    while todo != {}
      invariant todo <= idx.keywords.Keys
      invariant m == set k, t | k in idx.keywords && k !in todo && t in idx.keywords[k] && Contains(q, k) :: t
      decreases todo
    {
      var k :| k in todo;
      if Contains(q, k) {
        m := m + idx.keywords[k];
      }
      todo := todo - {k};
    }
  }

  method FuzzyWordLoop(idx: Index, w: string, threshold: int, ratio: Ratio) returns (m: set<string>)
    ensures m == FuzzyWordPass(idx, w, threshold, ratio)
  {
    m := {};
    var todo := idx.keywords.Keys;
    while todo != {}
      invariant todo <= idx.keywords.Keys
      invariant m == set k, t | k in idx.keywords && k !in todo && t in idx.keywords[k] && ratio(w, k) >= threshold :: t
      decreases todo
    {
      var k :| k in todo;
      if ratio(w, k) >= threshold {
        m := m + idx.keywords[k];
      }
      todo := todo - {k};
    }
  }

  method FuzzyPassLoop(idx: Index, q: string, threshold: int, ratio: Ratio) returns (m: set<string>)
    ensures m == FuzzyPass(idx, q, threshold, ratio)
  {
    m := {};
    var todo := LongWords(q);
    while todo != {}
      invariant todo <= LongWords(q)
      invariant m == set w, t | w in LongWords(q) && w !in todo && t in FuzzyWordPass(idx, w, threshold, ratio) :: t
      decreases todo
    {
      var w :| w in todo;
      var found := FuzzyWordLoop(idx, w, threshold, ratio);
      m := m + found;
      todo := todo - {w};
    }
  }

  method DomainPassLoop(idx: Index, q: string) returns (m: set<string>)
    ensures m == DomainPass(idx, q)
  {
    m := {};
    var todo := idx.domainTables.Keys;
    while todo != {}
      invariant todo <= idx.domainTables.Keys
      invariant m == set d, t | d in idx.domainTables && d !in todo && t in idx.domainTables[d]
                                && ContainsAny(q, Fields(Tag(d), Char('_'))) :: t
      decreases todo
    {
      var d :| d in todo;
      if ContainsAny(q, Fields(Tag(d), Char('_'))) {
        m := m + idx.domainTables[d];
      }
      todo := todo - {d};
    }
  }

  /** The resolver as the program runs it: the three passes in turn, then
      the reverse mapping, table by table. */
  method ResolveRelevantTables(idx: Index, question: string, threshold: int, ratio: Ratio) returns (r: set<string>)
    ensures r == FindRelevantTables(idx, question, threshold, ratio)
  {
    var q := Lower(question);
    var exact := ExactPassLoop(idx, q);
    var fuzzy := FuzzyPassLoop(idx, q, threshold, ratio);
    var domain := DomainPassLoop(idx, q);
    var matched := exact + fuzzy + domain;
    r := {};
    var todo := matched;
    while todo != {}
      invariant todo <= matched
      invariant r == set t | t in matched && t !in todo :: Emit(idx, t)
      decreases todo
    {
      var t :| t in todo;
      if t in idx.reverse {
        r := r + {idx.reverse[t]};
      } else {
        r := r + {t};
      }
      todo := todo - {t};
    }
  }

  // ---------------------------------------------------------------------
  // Prompt context and fallback tables

  datatype PromptContext = PromptContext(context: string, patterns: seq<string>)

  const HrPromptContext := PromptContext(
    "This is an HR management system. Focus on employee, attendance, leave, and payroll data.",
    ["For attendance queries, join employees with attendance_records",
     "For leave queries, use leave_requests and leave_types",
     "Employee data is in employees table, personal info in persons"])
  const InventoryPromptContext := PromptContext(
    "This is an inventory management system. Focus on products, sales, purchases, and stock.",
    ["For stock queries, use product_stock_levels",
     "For sales analysis, join sales with sales_items",
     "Product info is in products table with categories and brands"])
  const FinancialPromptContext := PromptContext(
    "This is a financial management system. Focus on accounts, transactions, and payments.",
    ["For payment queries, use payments and transactions tables",
     "Account balances are in accounts table",
     "Transaction categories help classify financial data"])
  const ReportingPromptContext := PromptContext(
    "This is a reporting system. Focus on dashboards, charts, and analytics.",
    ["For report queries, use reports and report_types",
     "For dashboard data, join dashboard_tiles with charts"])
  const GeneralPromptContext := PromptContext(
    "This is a general business system with core entities like customers, users, and parties.",
    ["For customer queries, use core_parties table with type='CUSTOMER'",
     "For user queries, use core_users table",
     "For person queries, use core_persons table",
     "Core entities are linked through foreign key relationships"])
  const DefaultPromptContext := PromptContext("This is a general business system.", [])

  /** Every domain the classifiers produce has its own context and a
      non-empty pattern list; only an unknown domain gets the bare default. */
  function DomainPromptContext(d: Domain): (c: PromptContext)
    ensures |c.patterns| == 0 <==> d == Core
    ensures d == Core ==> c == DefaultPromptContext
  {
    match d
    case Hr => HrPromptContext
    case Inventory => InventoryPromptContext
    case Financial => FinancialPromptContext
    case Reporting => ReportingPromptContext
    case General => GeneralPromptContext
    case Core => DefaultPromptContext
  }

  /** The table-name prefix of the domains that have one. */
  function FallbackPrefix(d: Domain): Option<string> {
    match d
    case Inventory => Some("inv_")
    case Hr => Some("hr_")
    case Financial => Some("core_fin_")
    case _ => None
  }

  const CommonTables := ["employees", "products", "sales", "payments", "users", "accounts"]

  /** The tables of `s` starting with `p`, in order. */
  function WithPrefix(s: seq<string>, p: string): (r: seq<string>)
    ensures forall x :: x in r <==> x in s && StartsWith(x, p)
    decreases |s|
  {
    if |s| == 0 then []
    else (if StartsWith(s[0], p) then [s[0]] else []) + WithPrefix(s[1..], p)
  }

  function FallbackTablesForDomain(d: Domain, allTables: seq<string>): (r: set<string>)
    ensures FallbackPrefix(d).Some? ==> |r| <= 3 && forall t :: t in r ==> t in allTables && StartsWith(t, FallbackPrefix(d).value)
    ensures FallbackPrefix(d).None? ==> forall t :: t in r <==> t in CommonTables && t in allTables
  {
    match FallbackPrefix(d)
    case Some(p) =>
      var first := PyTake(WithPrefix(allTables, p), 3);
      ElemsCard(first);
      Elems(first)
    case None => set t | t in CommonTables && t in allTables
  }

  lemma {:induction false} WithPrefixConcat(a: seq<string>, b: seq<string>, p: string)
    ensures WithPrefix(a + b, p) == WithPrefix(a, p) + WithPrefix(b, p)
    decreases |a|
  {
    if |a| > 0 {
      assert (a + b)[1..] == a[1..] + b;
      WithPrefixConcat(a[1..], b, p);
    } else {
      assert a + b == b;
    }
  }

  /** Extending the scanned prefix by one table adds it when it qualifies. */
  lemma WithPrefixStep(s: seq<string>, i: int, p: string)
    requires 0 <= i < |s|
    ensures WithPrefix(s[..i + 1], p) == WithPrefix(s[..i], p) + (if StartsWith(s[i], p) then [s[i]] else [])
  {
    assert s[..i + 1] == s[..i] + [s[i]];
    WithPrefixConcat(s[..i], [s[i]], p);
  }

  /** The qualifying table at position `i` of `s` is entry number
      `|WithPrefix(s[..i], p)|` of the filtered list. */
  lemma WithPrefixAt(s: seq<string>, i: int, p: string)
    requires 0 <= i < |s| && StartsWith(s[i], p)
    ensures var c := |WithPrefix(s[..i], p)|; c < |WithPrefix(s, p)| && WithPrefix(s, p)[c] == s[i]
  {
    assert s == s[..i + 1] + s[i + 1..];
    WithPrefixConcat(s[..i + 1], s[i + 1..], p);
    WithPrefixStep(s, i, p);
  }

  /** Every entry of the filtered list comes from a position with exactly
      that many qualifying tables before it. */
  lemma {:induction false} WithPrefixSource(s: seq<string>, c: int, p: string)
    requires 0 <= c < |WithPrefix(s, p)|
    ensures exists i :: 0 <= i < |s| && s[i] == WithPrefix(s, p)[c] && |WithPrefix(s[..i], p)| == c
    decreases |s|
  {
    var n := |s| - 1;
    var s' := s[..n];
    assert s[..n + 1] == s;
    WithPrefixStep(s, n, p);
    if c < |WithPrefix(s', p)| {
      WithPrefixSource(s', c, p);
      var i :| 0 <= i < |s'| && s'[i] == WithPrefix(s', p)[c] && |WithPrefix(s'[..i], p)| == c;
      assert s'[..i] == s[..i];
      assert s[i] == WithPrefix(s, p)[c];
    } else {
      assert s[n] == WithPrefix(s, p)[c];
    }
  }

  /** A table is among the first `n` qualifying ones exactly when fewer than
      `n` qualifying tables precede one of its positions. */
  lemma FirstWithPrefix(s: seq<string>, p: string, n: nat, x: string)
    ensures x in PyTake(WithPrefix(s, p), n)
        <==> exists i :: 0 <= i < |s| && s[i] == x && StartsWith(x, p) && |WithPrefix(s[..i], p)| < n
  {
    var w := WithPrefix(s, p);
    if x in PyTake(w, n) {
      var c :| 0 <= c < |PyTake(w, n)| && PyTake(w, n)[c] == x;
      WithPrefixSource(s, c, p);
      assert x in w;
    }
    if exists i :: 0 <= i < |s| && s[i] == x && StartsWith(x, p) && |WithPrefix(s[..i], p)| < n {
      var i :| 0 <= i < |s| && s[i] == x && StartsWith(x, p) && |WithPrefix(s[..i], p)| < n;
      WithPrefixAt(s, i, p);
      var c := |WithPrefix(s[..i], p)|;
      assert PyTake(w, n)[c] == x;
    }
  }

  /** For inventory, hr and financial the fallback is the first three tables,
      in the given order, that carry the domain's prefix. */
  lemma FallbackIsFirstThree(d: Domain, allTables: seq<string>, x: string)
    requires FallbackPrefix(d).Some?
    ensures var p := FallbackPrefix(d).value;
      x in FallbackTablesForDomain(d, allTables) <==>
        exists i :: 0 <= i < |allTables| && allTables[i] == x && StartsWith(x, p) && |WithPrefix(allTables[..i], p)| < 3
  {
    FirstWithPrefix(allTables, FallbackPrefix(d).value, 3, x);
  }
}
