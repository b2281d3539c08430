/** The stand-alone prompt optimizer: prompt analysis, phrase removal,
    white-space normalisation and truncation to a word budget, and its own
    compact schema format and domain prompt. */
module PromptOptimizer {
  import opened Common
  import opened Text

  /** `str(i)` for any integer. */
  function IntToString(i: int): (r: string)
    ensures |r| > 0
  {
    if i < 0 then "-" + NatToString(-i) else NatToString(i)
  }

  /** Text that is its own normal form contains no newline once the parts
      around it have none. */
  lemma FreeConcat(a: string, b: string, c: char)
    requires SeparatorFree(a, Char(c)) && SeparatorFree(b, Char(c))
    ensures SeparatorFree(a + b, Char(c))
  {
    var s := a + b;
    forall j | 0 <= j < |s| ensures !IsSeparator(Char(c), s[j]) {
      if j >= |a| {
        assert s[j] == b[j - |a|];
      } else {
        assert s[j] == a[j];
      }
    }
  }

  // ---------------------------------------------------------------------
  // Analysis

  const HighWordCount := 200
  const InstructionLimit := 3
  const RedundantPhrases := ["You are an expert", "Please generate", "Based on the", "Using the schema",
                             "Please ensure", "Make sure to"]

  /** A suggestion's kind; each kind carries a fixed severity and advice,
      the redundant-phrase advice naming its phrase. */
  datatype Suggestion = HighWordCountSuggestion | RedundantPhrase(phrase: string) | VerboseSchema | RepetitiveInstructions

  datatype Analysis = Analysis(promptType: string, wordCount: nat, characterCount: nat, suggestions: seq<Suggestion>)

  lemma RedundantPhrasesDistinct()
    ensures NoDup(RedundantPhrases)
  {
  }

  /** One suggestion per phrase whose lower-cased text occurs in `lp`, in
      list order. */
  function PhraseSuggestions(lp: string, ps: seq<string>): (r: seq<Suggestion>)
    ensures forall x :: x in r <==> x.RedundantPhrase? && x.phrase in ps && Contains(lp, Lower(x.phrase))
    ensures NoDup(ps) ==> NoDup(r)
    decreases |ps|
  {
    if |ps| == 0 then []
    else
      var rest := PhraseSuggestions(lp, ps[1..]);
      assert NoDup(ps) ==> NoDup(ps[1..]) && ps[0] !in ps[1..] by {
        if NoDup(ps) {
          forall i, j | 0 <= i < j < |ps[1..]| ensures ps[1..][i] != ps[1..][j] {
            assert ps[1..][i] == ps[i + 1] && ps[1..][j] == ps[j + 1];
          }
          forall i | 0 <= i < |ps[1..]| ensures ps[1..][i] != ps[0] {
            assert ps[1..][i] == ps[i + 1];
          }
        }
      }
      if Contains(lp, Lower(ps[0])) then [RedundantPhrase(ps[0])] + rest else rest
  }

  /** The instruction words counted in the lower-cased prompt. */
  function InstructionCount(lp: string): nat {
    Count(lp, "please") + Count(lp, "ensure") + Count(lp, "make sure")
  }

  predicate HasCreateStatement(prompt: string) {
    Contains(prompt, "CREATE TABLE") || Contains(prompt, "CREATE DATABASE")
  }

  /** `analyze_prompt` (the token estimate is not modelled). */
  function AnalyzePrompt(prompt: string, promptType: string): (r: Analysis)
    ensures r.promptType == promptType
    ensures r.wordCount == |Words(prompt)| && r.characterCount == |prompt|
    ensures HighWordCountSuggestion in r.suggestions <==> r.wordCount > HighWordCount
    ensures forall p :: RedundantPhrase(p) in r.suggestions <==> p in RedundantPhrases && Contains(Lower(prompt), Lower(p))
    ensures VerboseSchema in r.suggestions <==> HasCreateStatement(prompt)
    ensures RepetitiveInstructions in r.suggestions <==> InstructionCount(Lower(prompt)) > InstructionLimit
    ensures NoDup(r.suggestions)
  {
    RedundantPhrasesDistinct();
    AnalyzeWith(prompt, promptType, RedundantPhrases)
  }

  /** The analysis for a given list of redundant phrases. */
  function AnalyzeWith(prompt: string, promptType: string, redundant: seq<string>): (r: Analysis)
    requires NoDup(redundant)
    ensures r.promptType == promptType
    ensures r.wordCount == |Words(prompt)| && r.characterCount == |prompt|
    ensures HighWordCountSuggestion in r.suggestions <==> r.wordCount > HighWordCount
    ensures forall p :: RedundantPhrase(p) in r.suggestions <==> p in redundant && Contains(Lower(prompt), Lower(p))
    ensures VerboseSchema in r.suggestions <==> HasCreateStatement(prompt)
    ensures RepetitiveInstructions in r.suggestions <==> InstructionCount(Lower(prompt)) > InstructionLimit
    ensures NoDup(r.suggestions)
  {
    var words := |Words(prompt)|;
    var lp := Lower(prompt);
    var size := if words > HighWordCount then [HighWordCountSuggestion] else [];
    var phrases := PhraseSuggestions(lp, redundant);
    var schema := if HasCreateStatement(prompt) then [VerboseSchema] else [];
    var repeats := if InstructionCount(lp) > InstructionLimit then [RepetitiveInstructions] else [];
    SuggestionsDistinct(size, phrases, schema, repeats);
    Analysis(promptType, words, |prompt|, size + phrases + schema + repeats)
  }

  /** The four groups of suggestions never share an entry. */
  lemma SuggestionsDistinct(size: seq<Suggestion>, phrases: seq<Suggestion>, schema: seq<Suggestion>,
                            repeats: seq<Suggestion>)
    requires size == [] || size == [HighWordCountSuggestion]
    requires NoDup(phrases) && forall i :: 0 <= i < |phrases| ==> phrases[i].RedundantPhrase?
    requires schema == [] || schema == [VerboseSchema]
    requires repeats == [] || repeats == [RepetitiveInstructions]
    ensures NoDup(size + phrases + schema + repeats)
  {
    var all := size + phrases + schema + repeats;
    forall i, j | 0 <= i < j < |all| ensures all[i] != all[j] {
      if i < |size| {
        assert all[i] == HighWordCountSuggestion;
      } else if i < |size| + |phrases| {
        assert all[i] == phrases[i - |size|];
        if j < |size| + |phrases| {
          assert all[j] == phrases[j - |size|];
        }
      } else if i < |size| + |phrases| + |schema| {
        assert all[i] == VerboseSchema;
      }
    }
  }

  // ---------------------------------------------------------------------
  // Optimisation

  /** A phrase to search for: never empty. */
  type Phrase = s: string | |s| > 0 witness "?"

  /** The phrase replacements, applied in this order. */
  const Removals: seq<(Phrase, string)> := [
    (ExpertSentence, "SQL analyst:"),
    (GenerateSentence, "Generate SQL:"),
    (SchemaAboveClause, ""),
    (ProvidedSchemaClause, ""),
    (OptimizedSentence, ""),
    (PracticesSentence, ""),
    (MakeSureClause, ""),
    (EnsureThatClause, "")]

  const ExpertSentence: Phrase := "You are an expert SQL analyst."
  const GenerateSentence: Phrase := "Please generate a SQL query."
  const SchemaAboveClause: Phrase := "Based on the schema above,"
  const ProvidedSchemaClause: Phrase := "Using the provided schema,"
  const OptimizedSentence: Phrase := "Please ensure the query is optimized."
  const PracticesSentence: Phrase := "Make sure to follow best practices."
  const MakeSureClause: Phrase := "Please make sure to"
  const EnsureThatClause: Phrase := "Please ensure that"

  function ReplacedNote(pair: (string, string)): string {
    "Replaced \"" + pair.0 + "\" with \"" + pair.1 + "\""
  }

  /** The replacement pass: each pair whose phrase occurs at that point
      replaces every occurrence and is noted. */
  function ApplyRemovals(s: string, pairs: seq<(Phrase, string)>): (r: (string, seq<string>))
    ensures |r.1| <= |pairs|
    ensures forall k :: 0 <= k < |r.1| ==> exists i :: 0 <= i < |pairs| && r.1[k] == ReplacedNote(pairs[i])
    ensures (forall i :: 0 <= i < |pairs| ==> !Contains(s, pairs[i].0)) ==> r == (s, [])
    decreases |pairs|
  {
    if |pairs| == 0 then (s, [])
    else
      var rest := pairs[1..];
      if Contains(s, pairs[0].0) then
        var after := ApplyRemovals(Replace(s, pairs[0].0, pairs[0].1), rest);
        (after.0, [ReplacedNote(pairs[0])] + after.1)
      else ApplyRemovals(s, rest)
  }

  /** No replacement is longer than its phrase, so the pass never lengthens
      the text. */
  lemma {:induction false} ApplyRemovalsShortens(s: string, pairs: seq<(Phrase, string)>)
    requires forall i :: 0 <= i < |pairs| ==> |pairs[i].1| <= |pairs[i].0|
    ensures |ApplyRemovals(s, pairs).0| <= |s|
    decreases |pairs|
  {
    if |pairs| > 0 {
      var (pat, rep) := pairs[0];
      var s' := Replace(s, pat, rep);
      ReplaceLength(s, pat, rep);
      assert Count(s, pat) * (|rep| - |pat|) <= 0 by {
        NonPositiveProduct(Count(s, pat), |rep| - |pat|);
      }
      ApplyRemovalsShortens(s', pairs[1..]);
      ApplyRemovalsShortens(s, pairs[1..]);
    }
  }

  lemma NonPositiveProduct(c: nat, d: int)
    requires d <= 0
    ensures c * d <= 0
  {
  }

  lemma RemovalsShorten()
    ensures forall i :: 0 <= i < |Removals| ==> |Removals[i].1| <= |Removals[i].0|
  {
  }

  /** `' '.join(s.split())`. */
  function Normalise(s: string): string {
    Join(" ", Words(s))
  }

  /** Normalising keeps the words and is idempotent: the result has single
      spaces between words and none at either end. */
  lemma NormaliseKeepsWords(s: string)
    ensures Words(Normalise(s)) == Words(s)
    ensures Normalise(Normalise(s)) == Normalise(s)
  {
    WordsOfJoin(Words(s));
  }

  function TruncatedNote(target: int): string {
    "Truncated to " + IntToString(target) + " words"
  }

  function Floor0(i: int): nat {
    if i < 0 then 0 else i
  }

  datatype Report = Report(originalWords: nat, targetWords: int, applied: seq<string>, finalWords: nat, wordReduction: int)

  datatype Optimized = Optimized(prompt: string, report: Report)

  /** The truncation loop of `optimize_prompt`: drop the last word and
      re-join until at most `target` words remain. */
  method PopWords(words: seq<string>, target: int) returns (text: string)
    requires forall i :: 0 <= i < |words| ==> IsToken(words[i])
    requires |words| > target
    ensures Words(text) == words[..Floor0(target)]
    ensures text == Normalise(text)
  {
    var kept := words;
    text := Join(" ", kept);
    WordsOfJoin(kept);
    var current := |Words(text)|;
    while current > target && |kept| > 0
      invariant |kept| <= |words| && kept == words[..|kept|]
      invariant Words(text) == kept && current == |kept|
      invariant |kept| >= target
      invariant text == Join(" ", kept)
    {
      kept := kept[..|kept| - 1];
      assert kept == words[..|kept|];
      text := Join(" ", kept);
      WordsOfJoin(kept);
      current := |Words(text)|;
    }
  }

  /** `optimize_prompt`. The percentage is not modelled; a prompt without
      words divides by zero, which is `None` here. */
  method OptimizePrompt(prompt: string, target: int) returns (r: Option<Optimized>)
    ensures r.None? <==> |Words(prompt)| == 0
    ensures r.Some? ==>
      var removed := ApplyRemovals(prompt, Removals);
      var base := Normalise(removed.0);
      var o := r.value;
      && o.report.originalWords == |Words(prompt)| && o.report.targetWords == target
      && Normalise(o.prompt) == o.prompt
      && o.report.finalWords == |Words(o.prompt)|
      && o.report.wordReduction == o.report.originalWords - o.report.finalWords
      && (|Words(base)| > target ==>
            && Words(o.prompt) == Words(base)[..Floor0(target)]
            && o.report.applied == removed.1 + [TruncatedNote(target)])
      && (|Words(base)| <= target ==> o.prompt == base && o.report.applied == removed.1)
  {
    var original := |Words(prompt)|;
    var removed := ApplyRemovals(prompt, Removals);
    var text := Normalise(removed.0);
    NormaliseKeepsWords(removed.0);
    var applied := removed.1;
    var current := |Words(text)|;
    if current > target {
      text := PopWords(Words(text), target);
      applied := applied + [TruncatedNote(target)];
    }
    NormaliseKeepsWords(text);
    var final := |Words(text)|;
    if original == 0 {
      return None;
    }
    return Some(Optimized(text, Report(original, target, applied, final, original - final)));
  }

  // ---------------------------------------------------------------------
  // Compact schema format

  /** A column entry of the schema dictionary: `type` and `nullable` may be
      missing. */
  datatype ColumnSpec = ColumnSpec(name: string, typ: Option<string>, nullable: Option<bool>)

  datatype TableSpec = TableSpec(name: string, columns: seq<ColumnSpec>)

  /** The type text, `unknown` when missing. */
  function TypeText(c: ColumnSpec): string {
    if c.typ.Some? then c.typ.value else "unknown"
  }

  const NotNull := " NOT NULL"

  /** `name:type`, then ` NOT NULL` when the column says it is not
      nullable (a missing flag counts as nullable). */
  function ColumnPart(c: ColumnSpec): string {
    c.name + ":" + TypeText(c) + (if c.nullable == Some(false) then NotNull else "")
  }

  function TablePart(t: TableSpec): string {
    t.name + "(" + Join(", ", seq(|t.columns|, i requires 0 <= i < |t.columns| => ColumnPart(t.columns[i]))) + ")"
  }

  /** `create_compact_schema_format`: the tables joined by ` | `. */
  function CreateCompactSchemaFormat(tables: seq<TableSpec>): string {
    Join(" | ", seq(|tables|, i requires 0 <= i < |tables| => TablePart(tables[i])))
  }

  /** A column entry reads back: it starts with the name and a colon, the
      type is `unknown` when missing, and it ends in ` NOT NULL` exactly for
      a column flagged not nullable (unless the type text itself ends so). */
  lemma ColumnPartReadsBack(c: ColumnSpec)
    requires !EndsWith(TypeText(c), NotNull)
    ensures var part := ColumnPart(c);
      && StartsWith(part, c.name + ":")
      && (EndsWith(part, NotNull) <==> c.nullable == Some(false))
      && (c.typ.None? ==> StartsWith(part, c.name + ":unknown"))
  {
    var t := TypeText(c);
    var head := c.name + ":" + t;
    var part := ColumnPart(c);
    assert part[..|c.name| + 1] == c.name + ":";
    if c.nullable == Some(false) {
      assert part[|part| - |NotNull|..] == NotNull;
    } else {
      assert part == head;
      if |t| >= |NotNull| {
        assert head[|head| - |NotNull|..] == t[|t| - |NotNull|..];
      } else if |head| >= |NotNull| {
        var k := |NotNull| - 1 - |t|;
        assert head[|head| - |NotNull|..][k] == ':';
        assert ':' !in NotNull;
      }
    }
    if c.typ.None? {
      assert part[..|c.name| + 8] == c.name + ":unknown";
    }
  }

  // ---------------------------------------------------------------------
  // Domain prompt

  const HrContext := "HR system with employees, departments, attendance"
  const InventoryContext := "Inventory system with products, stock, suppliers"
  const FinancialContext := "Financial system with accounts, transactions, payments"
  const EcommerceContext := "E-commerce system with orders, customers, products"

  /** The canned context of a known domain, matched lower-cased; otherwise
      `<domain> system` with the domain as given. */
  function DomainContext(domain: string): string {
    var d := Lower(domain);
    if d == "hr" then HrContext
    else if d == "inventory" then InventoryContext
    else if d == "financial" then FinancialContext
    else if d == "ecommerce" then EcommerceContext
    else domain + " system"
  }

  /** `generate_domain_specific_prompt` of the optimizer. */
  function GenerateDomainSpecificPrompt(domain: string, question: string, tables: seq<TableSpec>): string {
    (AnalystPrefix + DomainContext(domain)) + "\n" + (SchemaPrefix + CreateCompactSchemaFormat(tables))
      + "\n" + (QuestionPrefix + question) + "\n" + SqlCue
  }

  const AnalystPrefix := "SQL analyst for "
  const SchemaPrefix := "Schema: "
  const QuestionPrefix := "Q: "
  const SqlCue := "SQL:"

  lemma PrefixesHaveNoNewline()
    ensures SeparatorFree(AnalystPrefix, Char('\n')) && SeparatorFree(SchemaPrefix, Char('\n'))
    ensures SeparatorFree(QuestionPrefix, Char('\n')) && SeparatorFree(SqlCue, Char('\n'))
  {
  }

  /** Four lines joined by newlines split back into the same four. */
  lemma FourLines(a: string, b: string, c: string, d: string)
    requires SeparatorFree(a, Char('\n')) && SeparatorFree(b, Char('\n'))
    requires SeparatorFree(c, Char('\n')) && SeparatorFree(d, Char('\n'))
    ensures Fields(a + "\n" + b + "\n" + c + "\n" + d, Char('\n')) == [a, b, c, d]
  {
    assert "\n" == ['\n'];
    FieldsOfFree(a, '\n');
    FieldsSnoc(a, '\n', b);
    FieldsSnoc(a + "\n" + b, '\n', c);
    FieldsSnoc(a + "\n" + b + "\n" + c, '\n', d);
  }

  /** The prompt is four lines: the analyst line with the domain context,
      the schema line, the question line and the `SQL:` cue. */
  lemma DomainPromptLines(domain: string, question: string, tables: seq<TableSpec>)
    requires SeparatorFree(DomainContext(domain), Char('\n'))
    requires SeparatorFree(CreateCompactSchemaFormat(tables), Char('\n'))
    requires SeparatorFree(question, Char('\n'))
    ensures Fields(GenerateDomainSpecificPrompt(domain, question, tables), Char('\n'))
      == [AnalystPrefix + DomainContext(domain), SchemaPrefix + CreateCompactSchemaFormat(tables),
          QuestionPrefix + question, SqlCue]
  {
    var ctx := DomainContext(domain);
    var compact := CreateCompactSchemaFormat(tables);
    PrefixesHaveNoNewline();
    FreeConcat(AnalystPrefix, ctx, '\n');
    FreeConcat(SchemaPrefix, compact, '\n');
    FreeConcat(QuestionPrefix, question, '\n');
    FourLines(AnalystPrefix + ctx, SchemaPrefix + compact, QuestionPrefix + question, SqlCue);
  }

  const KnownDomains := {"hr", "inventory", "financial", "ecommerce"}

  /** A known domain is matched whatever its letter case; any other domain
      is described as `<domain> system`, spelled as given. */
  lemma DomainContextIgnoresCase(domain: string)
    ensures Lower(domain) in KnownDomains ==> DomainContext(domain) == DomainContext(Lower(domain))
    ensures Lower(domain) !in KnownDomains ==> DomainContext(domain) == domain + " system"
  {
    LowerIdempotent(domain);
  }

  // ---------------------------------------------------------------------
  // Report

  /** A benchmark record, without its floating-point rates and its date. */
  datatype PromptMetrics = PromptMetrics(version: string, wordCount: nat, characterCount: nat)

  const NoMetrics := "No metrics available for report generation."

  /** `generate_optimization_report`; `render` is the full report, which
      carries the clock and floating-point averages. */
  function GenerateOptimizationReport(history: seq<PromptMetrics>, render: seq<PromptMetrics> -> string): (r: string)
    ensures |history| == 0 ==> r == NoMetrics
    ensures |history| > 0 ==> r == render(history)
  {
    if |history| == 0 then NoMetrics else render(history)
  }
}
