/** Python string semantics used throughout the model: ASCII `lower()`,
    substring containment (`k in s`), `startswith`, `strip()`, `split()`,
    `join`, slicing with negative and out-of-range bounds, `replace` and
    `count`. Strings are `seq<char>`. */
module Text {

  /** The characters Python's `str.isspace()` accepts (ASCII and Unicode
      white space); `str.split()` and `str.strip()` break on exactly these. */
  predicate IsSpace(c: char) {
    || c == ' ' || c == '\t' || c == '\n' || c == '\r'
    || c == '\U{000B}' || c == '\U{000C}'
    || ('\U{001C}' <= c <= '\U{001F}')
    || c == '\U{0085}' || c == '\U{00A0}' || c == '\U{1680}'
    || ('\U{2000}' <= c <= '\U{200A}')
    || c == '\U{2028}' || c == '\U{2029}' || c == '\U{202F}'
    || c == '\U{205F}' || c == '\U{3000}'
  }

  /** A word character of the regular expression `\w`, restricted to ASCII. */
  predicate IsWordChar(c: char) {
    ('a' <= c <= 'z') || ('A' <= c <= 'Z') || ('0' <= c <= '9') || c == '_'
  }

  function LowerChar(c: char): char {
    if 'A' <= c <= 'Z' then (c as int + 32) as char else c
  }

  /** `s.lower()`, ASCII letters only. */
  function Lower(s: string): (r: string)
    ensures |r| == |s|
    ensures forall i :: 0 <= i < |s| ==> r[i] == LowerChar(s[i])
  {
    seq(|s|, i requires 0 <= i < |s| => LowerChar(s[i]))
  }

  lemma LowerIdempotent(s: string)
    ensures Lower(Lower(s)) == Lower(s)
  {
  }

  /** `k` occurs in `s` starting at index `i`. */
  predicate OccursAt(s: string, k: string, i: int) {
    0 <= i && i + |k| <= |s| && s[i..i + |k|] == k
  }

  /** Python's `k in s` on strings. */
  predicate Contains(s: string, k: string) {
    exists i | 0 <= i <= |s| - |k| :: OccursAt(s, k, i)
  }

  /** `any(k in s for k in ks)`. */
  predicate ContainsAny(s: string, ks: seq<string>) {
    exists i | 0 <= i < |ks| :: Contains(s, ks[i])
  }

  /** Per-keyword absence gives absence of the whole list. */
  lemma NoneContained(s: string, ks: seq<string>)
    requires forall k | k in ks :: !Contains(s, k)
    ensures !ContainsAny(s, ks)
  {
  }

  /** A non-empty keyword cannot occur if one of its characters is missing
      from the only window of `s` where that character could sit. */
  lemma NotContainsByChar(s: string, k: string, j: int)
    requires 0 <= j < |k|
    requires |k| > |s| || k[j] !in s[j..|s| - |k| + j + 1]
    ensures !Contains(s, k)
  {
  }

  /** An occurrence checked character by character. */
  lemma OccursAtByIndex(s: string, k: string, i: int)
    requires 0 <= i && i + |k| <= |s|
    requires forall j :: 0 <= j < |k| ==> s[i + j] == k[j]
    ensures OccursAt(s, k, i)
  {
    assert s[i..i + |k|] == k;
  }

  lemma ContainsWitness(s: string, k: string, i: int)
    requires OccursAt(s, k, i)
    ensures Contains(s, k)
  {
  }

  /** Containment is preserved when the text grows on either side. */
  lemma ContainsInConcat(a: string, s: string, b: string, k: string)
    requires Contains(s, k)
    ensures Contains(a + s + b, k)
  {
    var i :| 0 <= i <= |s| - |k| && OccursAt(s, k, i);
    assert (a + s + b)[|a| + i..|a| + i + |k|] == s[i..i + |k|];
    assert OccursAt(a + s + b, k, |a| + i);
  }

  predicate StartsWith(s: string, p: string) {
    |p| <= |s| && s[..|p|] == p
  }

  predicate EndsWith(s: string, p: string) {
    |p| <= |s| && s[|s| - |p|..] == p
  }

  /** `s.lstrip()`. */
  function LStrip(s: string): (r: string)
    ensures |r| <= |s| && r == s[|s| - |r|..]
    ensures |r| > 0 ==> !IsSpace(r[0])
    ensures forall i :: 0 <= i < |s| - |r| ==> IsSpace(s[i])
    decreases |s|
  {
    if |s| > 0 && IsSpace(s[0]) then LStrip(s[1..]) else s
  }

  /** `s.rstrip()`. */
  function RStrip(s: string): (r: string)
    ensures |r| <= |s| && r == s[..|r|]
    ensures |r| > 0 ==> !IsSpace(r[|r| - 1])
    ensures forall i :: |r| <= i < |s| ==> IsSpace(s[i])
    decreases |s|
  {
    if |s| > 0 && IsSpace(s[|s| - 1]) then RStrip(s[..|s| - 1]) else s
  }

  /** `s.strip()`. */
  function Strip(s: string): (r: string)
    ensures |r| <= |s|
    ensures |r| > 0 ==> !IsSpace(r[0]) && !IsSpace(r[|r| - 1])
  {
    RStrip(LStrip(s))
  }

  /** A string with no white space at either end is its own strip. */
  lemma StripTrimmed(s: string)
    requires |s| > 0 && !IsSpace(s[0]) && !IsSpace(s[|s| - 1])
    ensures Strip(s) == s
  {
    assert LStrip(s) == s;
  }

  /** Number of leading non-space characters. */
  function TokenLen(s: string): (n: nat)
    ensures n <= |s|
    ensures forall j :: 0 <= j < n ==> !IsSpace(s[j])
    ensures n < |s| ==> IsSpace(s[n])
    decreases |s|
  {
    if |s| == 0 || IsSpace(s[0]) then 0 else 1 + TokenLen(s[1..])
  }

  /** A token as `str.split()` produces it: non-empty, no white space. */
  predicate IsToken(w: string) {
    |w| > 0 && forall j :: 0 <= j < |w| ==> !IsSpace(w[j])
  }

  /** `s.split()` with no argument: maximal runs of non-space characters. */
  function Words(s: string): (r: seq<string>)
    ensures forall i :: 0 <= i < |r| ==> IsToken(r[i])
    decreases |s|
  {
    if |s| == 0 then []
    else if IsSpace(s[0]) then Words(s[1..])
    else
      var n := TokenLen(s);
      [s[..n]] + Words(s[n..])
  }

  /** `sep.join(xs)`. */
  function Join(sep: string, xs: seq<string>): string
    decreases |xs|
  {
    if |xs| == 0 then ""
    else if |xs| == 1 then xs[0]
    else xs[0] + sep + Join(sep, xs[1..])
  }

  lemma TokenLenOfToken(w: string, t: string)
    requires IsToken(w)
    requires t == [] || IsSpace(t[0])
    ensures TokenLen(w + t) == |w|
    decreases |w|
  {
    if |w| > 1 {
      assert (w + t)[1..] == w[1..] + t;
      TokenLenOfToken(w[1..], t);
    } else {
      assert (w + t)[1..] == t;
    }
  }

  lemma {:induction false} WordsOfTokenThen(w: string, t: string)
    requires IsToken(w)
    requires t == [] || IsSpace(t[0])
    ensures Words(w + t) == [w] + Words(t)
  {
    TokenLenOfToken(w, t);
    assert (w + t)[..|w|] == w;
    assert (w + t)[|w|..] == t;
  }

  /** Splitting a single-space join of tokens gives the tokens back. */
  lemma {:induction false} WordsOfJoin(ws: seq<string>)
    requires forall i :: 0 <= i < |ws| ==> IsToken(ws[i])
    ensures Words(Join(" ", ws)) == ws
    decreases |ws|
  {
    if |ws| == 0 {
    } else if |ws| == 1 {
      WordsOfTokenThen(ws[0], "");
      assert ws[0] + "" == ws[0];
    } else {
      var rest := Join(" ", ws[1..]);
      assert Join(" ", ws) == ws[0] + (" " + rest);
      WordsOfTokenThen(ws[0], " " + rest);
      assert (" " + rest)[1..] == rest;
      assert Words(" " + rest) == Words(rest);
      WordsOfJoin(ws[1..]);
      assert ws == [ws[0]] + ws[1..];
    }
  }

  /** The separators the program splits on: one character (`s.split(c)`)
      or the class `[_\s]` of `re.split(r'[_\s]', s)`. */
  datatype Separator = Char(c: char) | UnderscoreOrSpace

  predicate IsSeparator(sep: Separator, c: char) {
    match sep
    case Char(d) => c == d
    case UnderscoreOrSpace => c == '_' || IsSpace(c)
  }

  predicate SeparatorFree(s: string, sep: Separator) {
    forall j :: 0 <= j < |s| ==> !IsSeparator(sep, s[j])
  }

  /** Length of the leading run of non-separator characters. */
  function FieldLen(s: string, sep: Separator): (n: nat)
    ensures n <= |s|
    ensures SeparatorFree(s[..n], sep)
    ensures n < |s| ==> IsSeparator(sep, s[n])
    decreases |s|
  {
    if |s| == 0 || IsSeparator(sep, s[0]) then 0 else 1 + FieldLen(s[1..], sep)
  }

  /** The text between consecutive separators, empty fields included. */
  function Fields(s: string, sep: Separator): (r: seq<string>)
    ensures |r| >= 1
    ensures forall i :: 0 <= i < |r| ==> SeparatorFree(r[i], sep)
    decreases |s|
  {
    var n := FieldLen(s, sep);
    if n == |s| then [s] else [s[..n]] + Fields(s[n + 1..], sep)
  }

  lemma {:induction false} FieldLenOfFree(x: string, t: string, sep: Separator)
    requires SeparatorFree(x, sep)
    requires t == [] || IsSeparator(sep, t[0])
    ensures FieldLen(x + t, sep) == |x|
    decreases |x|
  {
    if |x| > 0 {
      assert (x + t)[0] == x[0] && !IsSeparator(sep, x[0]);
      assert (x + t)[1..] == x[1..] + t;
      assert SeparatorFree(x[1..], sep) by {
        forall j | 0 <= j < |x| - 1 ensures !IsSeparator(sep, x[1..][j]) {
          assert x[1..][j] == x[j + 1];
        }
      }
      FieldLenOfFree(x[1..], t, sep);
    } else {
      assert x + t == t;
    }
  }

  /** Splitting a join on its separator character gives the parts back. */
  lemma {:induction false} FieldsOfJoin(xs: seq<string>, c: char)
    requires |xs| >= 1
    requires forall i :: 0 <= i < |xs| ==> SeparatorFree(xs[i], Char(c))
    ensures Fields(Join([c], xs), Char(c)) == xs
    decreases |xs|
  {
    if |xs| == 1 {
      FieldLenOfFree(xs[0], [], Char(c));
      assert xs[0] + [] == xs[0];
    } else {
      var rest := Join([c], xs[1..]);
      assert Join([c], xs) == xs[0] + ([c] + rest);
      FieldLenOfFree(xs[0], [c] + rest, Char(c));
      assert (xs[0] + ([c] + rest))[..|xs[0]|] == xs[0];
      assert (xs[0] + ([c] + rest))[|xs[0]| + 1..] == rest;
      FieldsOfJoin(xs[1..], c);
    }
  }

  /** A separator-free head followed by the separator splits off as the first field. */
  lemma FieldsCons(x: string, c: char, rest: string)
    requires SeparatorFree(x, Char(c))
    ensures Fields(x + [c] + rest, Char(c)) == [x] + Fields(rest, Char(c))
  {
    var s := x + [c] + rest;
    FieldLenOfFree(x, [c] + rest, Char(c));
    assert s == x + ([c] + rest);
    assert s[..|x|] == x;
    assert s[|x| + 1..] == rest;
  }

  /** A separator-free text is a single field. */
  lemma FieldsOfFree(x: string, c: char)
    requires SeparatorFree(x, Char(c))
    ensures Fields(x, Char(c)) == [x]
  {
    FieldLenOfFree(x, [], Char(c));
    assert x + [] == x;
  }

  /** A separator-free tail after the last separator becomes the last field. */
  lemma {:induction false} FieldsSnoc(p: string, c: char, y: string)
    requires SeparatorFree(y, Char(c))
    ensures Fields(p + [c] + y, Char(c)) == Fields(p, Char(c)) + [y]
    decreases |p|
  {
    var n := FieldLen(p, Char(c));
    if n == |p| {
      FieldsCons(p, c, y);
      FieldsOfFree(y, c);
      FieldsOfFree(p, c);
    } else {
      var h, t := p[..n], p[n + 1..];
      assert p == h + [c] + t;
      assert p + [c] + y == h + [c] + (t + [c] + y);
      FieldsCons(h, c, t + [c] + y);
      FieldsCons(h, c, t);
      FieldsSnoc(t, c, y);
    }
  }

  /** Joining the fields with the separator character rebuilds the text. */
  lemma {:induction false} JoinOfFields(s: string, c: char)
    ensures Join([c], Fields(s, Char(c))) == s
    decreases |s|
  {
    var n := FieldLen(s, Char(c));
    if n < |s| {
      var rest := Fields(s[n + 1..], Char(c));
      JoinOfFields(s[n + 1..], c);
      assert Fields(s, Char(c)) == [s[..n]] + rest;
      assert ([s[..n]] + rest)[1..] == rest;
      assert s == s[..n] + [c] + s[n + 1..];
    }
  }

  /** Length of the leading run of `\w` characters. */
  function RunLen(s: string): (n: nat)
    ensures n <= |s|
    ensures forall j :: 0 <= j < n ==> IsWordChar(s[j])
    ensures n < |s| ==> !IsWordChar(s[n])
    decreases |s|
  {
    if |s| == 0 || !IsWordChar(s[0]) then 0 else 1 + RunLen(s[1..])
  }

  /** The maximal runs of word characters, left to right. */
  function WordRuns(s: string): (r: seq<string>)
    ensures forall i :: 0 <= i < |r| ==> |r[i]| > 0
    decreases |s|
  {
    if |s| == 0 then []
    else if !IsWordChar(s[0]) then WordRuns(s[1..])
    else
      var n := RunLen(s);
      [s[..n]] + WordRuns(s[n..])
  }

  /** The matches of `re.findall(r'\w{3,}', s)`, as a set: a greedy `\w{3,}`
      match is a whole maximal run, so these are the runs of length three or more. */
  function LongWords(s: string): set<string> {
    set w | w in WordRuns(s) && |w| >= 3
  }

  /** Python slice index normalisation for a sequence of length `n`. */
  function Clamp(i: int, n: nat): (r: nat)
    ensures r <= n
  {
    if i < 0 then (if i + n < 0 then 0 else i + n)
    else if i > n then n
    else i
  }

  /** `s[a:b]` with Python's handling of negative and out-of-range bounds. */
  function PySlice<T>(s: seq<T>, a: int, b: int): (r: seq<T>)
    ensures |r| <= |s|
  {
    var lo := Clamp(a, |s|);
    var hi := Clamp(b, |s|);
    if lo < hi then s[lo..hi] else []
  }

  /** `s[:b]`. */
  function PyTake<T>(s: seq<T>, b: int): (r: seq<T>)
    ensures b >= 0 ==> r == (if b <= |s| then s[..b] else s)
  {
    PySlice(s, 0, b)
  }

  /** `s[a:]`. */
  function PyDrop<T>(s: seq<T>, a: int): (r: seq<T>)
    ensures a < 0 && -a <= |s| ==> r == s[|s| + a..]
  {
    PySlice(s, a, |s|)
  }

  /** `s.replace(pat, rep)`: every non-overlapping occurrence, leftmost first. */
  function Replace(s: string, pat: string, rep: string): string
    requires |pat| > 0
    decreases |s|
  {
    if |s| < |pat| then s
    else if s[..|pat|] == pat then rep + Replace(s[|pat|..], pat, rep)
    else [s[0]] + Replace(s[1..], pat, rep)
  }

  /** `s.count(sub)`: the number of non-overlapping occurrences. */
  function Count(s: string, sub: string): nat
    requires |sub| > 0
    decreases |s|
  {
    if |s| < |sub| then 0
    else if s[..|sub|] == sub then 1 + Count(s[|sub|..], sub)
    else Count(s[1..], sub)
  }

  /** `n` copies of `d` added up: multiplication kept out of the solver's way. */
  function Scale(n: nat, d: int): int
    decreases n
  {
    if n == 0 then 0 else d + Scale(n - 1, d)
  }

  lemma {:induction false} ScaleIsProduct(n: nat, d: int)
    ensures Scale(n, d) == n * d
    decreases n
  {
    if n > 0 {
      ScaleIsProduct(n - 1, d);
    }
  }

  lemma {:induction false} ReplaceGrowth(s: string, pat: string, rep: string)
    requires |pat| > 0
    ensures |Replace(s, pat, rep)| == |s| + Scale(Count(s, pat), |rep| - |pat|)
    decreases |s|
  {
    if |s| < |pat| {
    } else if s[..|pat|] == pat {
      ReplaceGrowth(s[|pat|..], pat, rep);
    } else {
      ReplaceGrowth(s[1..], pat, rep);
    }
  }

  /** Each replaced occurrence changes the length by `|rep| - |pat|`. */
  lemma ReplaceLength(s: string, pat: string, rep: string)
    requires |pat| > 0
    ensures |Replace(s, pat, rep)| == |s| + Count(s, pat) * (|rep| - |pat|)
  {
    ReplaceGrowth(s, pat, rep);
    ScaleIsProduct(Count(s, pat), |rep| - |pat|);
  }

  lemma ContainsTail(s: string, k: string)
    requires |s| > 0 && Contains(s[1..], k)
    ensures Contains(s, k)
  {
    var i :| 0 <= i <= |s[1..]| - |k| && OccursAt(s[1..], k, i);
    assert s[i + 1..i + 1 + |k|] == s[1..][i..i + |k|];
    assert OccursAt(s, k, i + 1);
  }

  lemma ContainsSplit(s: string, k: string)
    requires |s| >= |k| > 0 && Contains(s, k) && s[..|k|] != k
    ensures Contains(s[1..], k)
  {
    var i :| 0 <= i <= |s| - |k| && OccursAt(s, k, i);
    assert i != 0;
    assert s[1..][i - 1..i - 1 + |k|] == s[i..i + |k|];
    assert OccursAt(s[1..], k, i - 1);
  }

  /** `count` finds an occurrence exactly when `in` does. */
  lemma {:induction false} CountPositiveIffContains(s: string, sub: string)
    requires |sub| > 0
    ensures Count(s, sub) > 0 <==> Contains(s, sub)
    decreases |s|
  {
    if |s| < |sub| {
    } else if s[..|sub|] == sub {
      assert OccursAt(s, sub, 0);
    } else {
      CountPositiveIffContains(s[1..], sub);
      if Contains(s, sub) {
        ContainsSplit(s, sub);
      }
      if Contains(s[1..], sub) {
        ContainsTail(s, sub);
      }
    }
  }

  /** A text without the searched phrase is left unchanged by `replace`. */
  lemma {:induction false} ReplaceAbsent(s: string, pat: string, rep: string)
    requires |pat| > 0 && !Contains(s, pat)
    ensures Replace(s, pat, rep) == s
    decreases |s|
  {
    if |s| < |pat| {
    } else {
      assert !OccursAt(s, pat, 0);
      if Contains(s[1..], pat) {
        ContainsTail(s, pat);
      }
      ReplaceAbsent(s[1..], pat, rep);
    }
  }

  /** Decimal rendering of a natural number, as `str(n)` / f-strings do. */
  function NatToString(n: nat): (r: string)
    ensures |r| > 0
    ensures forall i :: 0 <= i < |r| ==> '0' <= r[i] <= '9'
    decreases n
  {
    if n < 10 then [DigitChar(n)] else NatToString(n / 10) + [DigitChar(n % 10)]
  }

  function DigitChar(d: nat): (c: char)
    requires d < 10
    ensures '0' <= c <= '9'
  {
    ('0' as int + d) as char
  }

  /** Value of a string of decimal digits. */
  function DigitsValue(s: string): nat
    requires forall i :: 0 <= i < |s| ==> '0' <= s[i] <= '9'
    decreases |s|
  {
    if |s| == 0 then 0
    else DigitsValue(s[..|s| - 1]) * 10 + (s[|s| - 1] as int - '0' as int)
  }

  /** Reading the rendered digits back gives the number. */
  lemma {:induction false} NatToStringRoundTrip(n: nat)
    ensures DigitsValue(NatToString(n)) == n
    decreases n
  {
    if n >= 10 {
      var s := NatToString(n / 10) + [DigitChar(n % 10)];
      assert s[..|s| - 1] == NatToString(n / 10);
      NatToStringRoundTrip(n / 10);
    }
  }

  /** Distinct numbers render to distinct strings. */
  lemma NatToStringInjective(m: nat, n: nat)
    requires NatToString(m) == NatToString(n)
    ensures m == n
  {
    NatToStringRoundTrip(m);
    NatToStringRoundTrip(n);
  }
}
