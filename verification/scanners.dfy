/** One hand-written scanner per lexer pattern (trabajof.js:4-11). Each is applied to the
    remaining input `s`, as the source applies `^`-prefixed regular expressions to
    `codigoFuente.slice(cursor)`: position 0 of `s` is the start of a string, so a `\b`
    there only looks at `s[0]`. */
module Scanners {
  import opened Wrappers
  import opened Tokens

  /** The outcome of one pattern: the matched text and how far the cursor moves. */
  datatype Scan = NoMatch | Match(text: string, advance: nat)

  /** The first `n` characters of `s`, and nothing when `n` is out of range, so that a
      contract can name the matched text before it has bounded the match. */
  function Prefix(s: string, n: int): string {
    if 0 <= n <= |s| then s[..n] else []
  }

  /** Length of the longest prefix of `s` whose characters all lie in class `k`
      (the greedy loops `\w*`, `\d+`, `\s+`). */
  function Span(s: string, k: CharClass): (n: nat)
    ensures n <= |s|
    ensures forall i :: 0 <= i < n ==> InClass(s[i], k)
    ensures n == |s| || !InClass(s[n], k)
  {
    if |s| > 0 && InClass(s[0], k) then 1 + Span(s[1..], k) else 0
  }

  /** The regular-expression assertion `\b` at index `i` of `s`. */
  predicate BoundaryAt(s: string, i: nat)
    requires i <= |s|
  {
    (i > 0 && IsWordChar(s[i - 1])) != (i < |s| && IsWordChar(s[i]))
  }

  /** `\b(k)\b` matches `k` at the start of `s`. */
  predicate KeywordAt(s: string, k: string) {
    |k| <= |s| && s[..|k|] == k && BoundaryAt(s, |k|)
  }

  /** Index of the first alternative, from `j` on, that the keyword pattern accepts;
      `KeywordCount` when there is none. */
  function FirstKeyword(s: string, j: nat): (i: nat)
    requires j <= KeywordCount
    decreases KeywordCount - j
    ensures j <= i <= KeywordCount
    ensures i < KeywordCount ==> KeywordAt(s, KeywordText(i))
    ensures forall l :: j <= l < i ==> !KeywordAt(s, KeywordText(l))
  {
    if j == KeywordCount || KeywordAt(s, KeywordText(j)) then j else FirstKeyword(s, j + 1)
  }

  /** `^\b(let|if|...|continue)\b` (trabajof.js:5). */
  function KeywordScan(s: string): (r: Scan)
    ensures r.Match? ==> IsKeyword(r.text) && KeywordAt(s, r.text) && r.advance == |r.text| > 0
    ensures r.NoMatch? ==> forall i :: 0 <= i < KeywordCount ==> !KeywordAt(s, KeywordText(i))
  {
    if !BoundaryAt(s, 0) then
      NoMatch
    else
      var i := FirstKeyword(s, 0);
      if i < KeywordCount then Match(KeywordText(i), |KeywordText(i)|) else NoMatch
  }

  /** One of `==`, `!=`, `++`, `--` starts at index `j` of `s`. */
  predicate PairAt(s: string, j: nat) {
    j + 1 < |s| && IsPair(s[j], s[j + 1])
  }

  /** None of `==`, `!=`, `++`, `--` occurs in `s`. */
  predicate NoPairs(s: string) {
    forall j :: 0 <= j < |s| ==> !PairAt(s, j)
  }

  /** The leftmost index, from `i` on, where one of the unanchored operator alternatives
      matches: the search `String.prototype.match` performs. */
  function FindPair(s: string, i: nat): (r: Option<nat>)
    decreases |s| - i
    ensures r.Some? ==> i <= r.value && PairAt(s, r.value)
    ensures r.Some? ==> forall k :: i <= k < r.value ==> !PairAt(s, k)
    ensures r.None? ==> forall k :: i <= k < |s| ==> !PairAt(s, k)
  {
    if i + 1 >= |s| then None
    else if PairAt(s, i) then Some(i)
    else FindPair(s, i + 1)
  }

  // The operator pattern of trabajof.js:6 prefixed with `^` (line 19). The `^` binds only
  // to the first alternative, `[+\-*/=<>!]=?`, so when it fails the other four (`==`, `!=`,
  // `++`, `--`) are searched for anywhere in `s`; the source then emits the leftmost
  // occurrence and moves the cursor by its length, 2, whatever its index.
  function OperatorScan(s: string): (r: Scan)
    ensures r.Match? ==> 1 <= r.advance <= |s| && r.advance == |r.text|
    ensures |s| > 0 && IsOpChar(s[0]) ==> r.Match? && r.text == Prefix(s, r.advance)
    ensures |s| > 0 && IsOpChar(s[0]) ==> r.advance == (if |s| > 1 && s[1] == '=' then 2 else 1)
    ensures !(|s| > 0 && IsOpChar(s[0])) && r.Match? ==>
      FindPair(s, 0).Some? && r.advance == 2 && r.text == s[FindPair(s, 0).value..FindPair(s, 0).value + 2]
    ensures r.NoMatch? <==> !(|s| > 0 && IsOpChar(s[0])) && FindPair(s, 0).None?
    ensures r.Match? ==> IsOperatorText(r.text)
  {
    if |s| > 0 && IsOpChar(s[0]) then
      if |s| > 1 && s[1] == '=' then Match(s[..2], 2) else Match(s[..1], 1)
    else
      match FindPair(s, 0)
      case Some(j) => Match(s[j..j + 2], 2)
      case None => NoMatch
  }

  /** `^[(){};,.]` (trabajof.js:7). */
  function DelimiterScan(s: string): (r: Scan)
    ensures r.Match? <==> |s| > 0 && IsDelimiterChar(s[0])
    ensures r.Match? ==> r == Match(s[..1], 1)
  {
    if |s| > 0 && IsDelimiterChar(s[0]) then Match(s[..1], 1) else NoMatch
  }

  /** `^\b[a-zA-Z_]\w*\b` (trabajof.js:8): a letter followed by the maximal run of word
      characters; the closing `\b` then always holds, so no backtracking is needed. */
  function IdentifierScan(s: string): (r: Scan)
    ensures r.Match? <==> |s| > 0 && IsLetter(s[0])
    ensures r.Match? ==> r.advance == Span(s, Word) && r.text == Prefix(s, r.advance) && All(r.text, Word)
  {
    if |s| > 0 && IsLetter(s[0]) then
      var n := Span(s, Word);
      Match(s[..n], n)
    else
      NoMatch
  }

  /** `^\b\d+(\.\d+)?\b` (trabajof.js:9), with the backtracking of the regular-expression
      engine: a fraction followed by a word character is given up, and then the integer
      part alone matches because `.` is not a word character; an integer part followed by
      a word character matches nothing. */
  function ConstantScan(s: string): (r: Scan)
    ensures r.Match? ==> 1 <= r.advance <= |s| && r.text == Prefix(s, r.advance)
    ensures r.Match? ==> IsNumeral(r.text) && BoundaryAt(s, r.advance)
  {
    if |s| == 0 || !IsDigit(s[0]) then
      NoMatch
    else
      var n := Span(s, Digit);
      assert All(s[..n], Digit);
      if n + 1 < |s| && s[n] == '.' && IsDigit(s[n + 1]) then
        var m := Span(s[n + 1..], Digit);
        if BoundaryAt(s, n + 1 + m) then
          var t := s[..n + 1 + m];
          assert t[..n] == s[..n];
          assert t[n + 1..] == s[n + 1..][..m];
          assert 0 < n < |t| - 1 && t[n] == '.' && All(t[..n], Digit) && All(t[n + 1..], Digit);
          Match(t, n + 1 + m)
        else
          Match(s[..n], n)
      else if BoundaryAt(s, n) then
        Match(s[..n], n)
      else
        NoMatch
  }

  /** `^\s+` (trabajof.js:10). */
  function WhitespaceScan(s: string): (r: Scan)
    ensures r.Match? <==> |s| > 0 && IsSpace(s[0])
    ensures r.Match? ==> r.advance == Span(s, Space) && r.text == Prefix(s, r.advance) && All(r.text, Space)
  {
    if |s| > 0 && IsSpace(s[0]) then
      var n := Span(s, Space);
      Match(s[..n], n)
    else
      NoMatch
  }

  function ScanClass(c: Class, s: string): Scan {
    match c
    case Keyword => KeywordScan(s)
    case Operator => OperatorScan(s)
    case Delimiter => DelimiterScan(s)
    case Identifier => IdentifierScan(s)
    case Constant => ConstantScan(s)
    case Whitespace => WhitespaceScan(s)
  }

  /** No pattern matches the empty string, so a match always moves the cursor; every match
      is a well-formed token of its class; and unless the operator pattern fell back on its
      unanchored alternatives, the text is the prefix of `s` the cursor moves over. */
  lemma {:induction false} ScanClassFacts(c: Class, s: string)
    ensures ScanClass(c, s).Match? ==> 1 <= ScanClass(c, s).advance <= |s|
    ensures ScanClass(c, s).Match? ==> WellFormed(Token(c, ScanClass(c, s).text))
    ensures ScanClass(c, s).Match? && (c != Operator || IsOpChar(s[0])) ==>
      ScanClass(c, s).text == s[..ScanClass(c, s).advance]
  {
  }

  /** The order in which the patterns are tried (trabajof.js:4-11). */
  const Priority: seq<Class> := [Keyword, Operator, Delimiter, Identifier, Constant, Whitespace]

  /** Index in `Priority`, from `j` on, of the first pattern that matches `s`;
      `|Priority|` when none does. */
  function Winner(s: string, j: nat): (i: nat)
    requires j <= |Priority|
    decreases |Priority| - j
    ensures j <= i <= |Priority|
    ensures i < |Priority| ==> ScanClass(Priority[i], s).Match?
    ensures forall l :: j <= l < i ==> ScanClass(Priority[l], s).NoMatch?
  {
    if j == |Priority| || ScanClass(Priority[j], s).Match? then j else Winner(s, j + 1)
  }

  /** Position of a class in `Priority`. */
  function Rank(c: Class): (i: nat)
    ensures i < |Priority| && Priority[i] == c
  {
    match c
    case Keyword => 0
    case Operator => 1
    case Delimiter => 2
    case Identifier => 3
    case Constant => 4
    case Whitespace => 5
  }

  /** The result of one iteration of the lexer's outer loop: the class that won, the text it
      matched and how far the cursor moves. */
  datatype Step = Step(kind: Class, text: string, advance: nat)

  /** The inner `for` loop of trabajof.js:18-30: the first pattern in priority order that
      matches wins. */
  function FirstMatch(s: string): (r: Option<Step>)
    ensures r.Some? ==> ScanClass(r.value.kind, s) == Match(r.value.text, r.value.advance)
    ensures r.Some? ==> forall c :: Rank(c) < Rank(r.value.kind) ==> ScanClass(c, s).NoMatch?
    ensures r.None? ==> forall c :: ScanClass(c, s).NoMatch?
    ensures r.Some? ==> 1 <= r.value.advance <= |s| && WellFormed(Token(r.value.kind, r.value.text))
  {
    var i := Winner(s, 0);
    if i == |Priority| then None
    else
      ScanClassFacts(Priority[i], s);
      var m := ScanClass(Priority[i], s);
      Some(Step(Priority[i], m.text, m.advance))
  }
}
