/** Properties of the lexer: pattern priority and the keyword/identifier tie-break, the
    backtracking of the constant pattern, the unanchored operator alternatives, and the
    reconstruction of the input from the token texts. */
module LexerProperties {
  import opened Wrappers
  import opened Tokens
  import opened Scanners
  import opened Lexer

  lemma {:induction false} KeywordIsWord(k: string)
    requires IsKeyword(k)
    ensures |k| > 0 && All(k, Word)
  {
    var i :| 0 <= i < KeywordCount && KeywordText(i) == k;
    assert forall j :: 0 <= j < |k| ==> 'a' <= k[j] <= 'z';
  }

  /** Converse of the priority contract of `FirstMatch`: a pattern that matches when every
      pattern before it fails is the one that wins. */
  lemma {:induction false} FirstMatchIs(s: string, c: Class)
    requires ScanClass(c, s).Match?
    requires forall d :: Rank(d) < Rank(c) ==> ScanClass(d, s).NoMatch?
    ensures FirstMatch(s) == Some(Step(c, ScanClass(c, s).text, ScanClass(c, s).advance))
  {
    var r := FirstMatch(s);
    assert r.Some?;
    assert Rank(r.value.kind) == Rank(c);
  }

  /** A word run `k` is accepted by `\b(k)\b` at the start of `s` exactly when it is the whole
      maximal word run at the start of `s`. */
  lemma {:induction false} KeywordAtIsWholeWord(s: string, k: string)
    requires |k| > 0 && All(k, Word)
    ensures KeywordAt(s, k) <==> s[..Span(s, Word)] == k
  {
    var n := Span(s, Word);
    if KeywordAt(s, k) {
      assert forall i :: 0 <= i < |k| ==> s[i] == k[i];
      assert IsWordChar(s[|k| - 1]);
      assert n == |k|;
    }
    if s[..n] == k {
      assert IsWordChar(s[n - 1]);
    }
  }

  /** Keyword/identifier tie-break (trabajof.js:5, 8, 18-28): input starting with a letter
      yields its whole maximal word run, as a keyword when that run is a reserved word and
      as an identifier otherwise. So `let` is a keyword while `letter` and `classroom` are
      single identifiers. */
  lemma {:induction false} WordClassification(s: string)
    requires NoPairs(s)
    requires |s| > 0 && IsLetter(s[0])
    ensures var n := Span(s, Word);
      FirstMatch(s) == Some(Step(if IsKeyword(s[..n]) then Keyword else Identifier, s[..n], n))
  {
    KeywordScanOnWord(s);
    if KeywordScan(s).Match? {
      KeywordWins(s);
    } else {
      IdentifierWins(s);
    }
  }

  /** The keyword pattern matches at the start of a word exactly when the whole word is
      reserved, and then it matches the whole word. */
  lemma {:induction false} KeywordScanOnWord(s: string)
    requires |s| > 0 && IsLetter(s[0])
    ensures KeywordScan(s).Match? <==> IsKeyword(s[..Span(s, Word)])
    ensures KeywordScan(s).Match? ==> KeywordScan(s) == Match(s[..Span(s, Word)], Span(s, Word))
  {
    var n := Span(s, Word);
    var kw := KeywordScan(s);
    if IsKeyword(s[..n]) {
      var idx :| 0 <= idx < KeywordCount && KeywordText(idx) == s[..n];
      KeywordIsWord(s[..n]);
      KeywordAtIsWholeWord(s, s[..n]);
      assert KeywordAt(s, KeywordText(idx));
    }
    if kw.Match? {
      KeywordIsWord(kw.text);
      KeywordAtIsWholeWord(s, kw.text);
    }
  }

  lemma {:induction false} KeywordWins(s: string)
    requires |s| > 0 && IsLetter(s[0]) && KeywordScan(s) == Match(s[..Span(s, Word)], Span(s, Word))
    ensures FirstMatch(s) == Some(Step(Keyword, s[..Span(s, Word)], Span(s, Word)))
  {
    FirstMatchIs(s, Keyword);
  }

  lemma {:induction false} IdentifierWins(s: string)
    requires NoPairs(s)
    requires |s| > 0 && IsLetter(s[0]) && KeywordScan(s).NoMatch?
    ensures FirstMatch(s) == Some(Step(Identifier, s[..Span(s, Word)], Span(s, Word)))
  {
    LetterScans(s);
    assert Winner(s, 3) == 3;
    assert Winner(s, 2) == 3;
    assert Winner(s, 1) == 3;
    assert Winner(s, 0) == 3;
  }

  /** On a letter, without the pairs, neither the operator nor the delimiter pattern matches,
      and the identifier pattern takes the whole word. */
  lemma {:induction false} LetterScans(s: string)
    requires NoPairs(s)
    requires |s| > 0 && IsLetter(s[0]) && KeywordScan(s).NoMatch?
    ensures ScanClass(Keyword, s).NoMatch? && ScanClass(Operator, s).NoMatch?
    ensures ScanClass(Delimiter, s).NoMatch?
    ensures ScanClass(Identifier, s) == Match(s[..Span(s, Word)], Span(s, Word))
  {
    NoPairsNoOperator(s);
    LetterIsIdentifier(s);
  }

  /** Without the pairs, the operator pattern only matches at an operator character. */
  lemma {:induction false} NoPairsNoOperator(s: string)
    requires NoPairs(s)
    ensures ScanClass(Operator, s).Match? <==> |s| > 0 && IsOpChar(s[0])
  {
    assert FindPair(s, 0).None?;
  }

  lemma {:induction false} LetterIsIdentifier(s: string)
    requires |s| > 0 && IsLetter(s[0])
    ensures !IsOpChar(s[0])
    ensures ScanClass(Delimiter, s).NoMatch?
    ensures ScanClass(Identifier, s) == Match(s[..Span(s, Word)], Span(s, Word))
  {
  }

  /** `Span` is the only length whose prefix lies in the class and is followed by a
      character outside it or by the end. */
  lemma {:induction false} SpanIs(s: string, c: CharClass, i: nat)
    requires i <= |s| && forall j :: 0 <= j < i ==> InClass(s[j], c)
    requires i == |s| || !InClass(s[i], c)
    ensures Span(s, c) == i
  {
  }

  lemma {:induction false} AllPrefix(s: string, c: CharClass, i: nat)
    requires i <= |s| && All(s[..i], c)
    ensures forall j :: 0 <= j < i ==> InClass(s[j], c)
  {
    assert forall j :: 0 <= j < i ==> s[..i][j] == s[j];
  }

  lemma {:induction false} DigitsEnd(s: string, k: nat)
    requires 0 < k <= |s| && All(s[..k], Digit) && BoundaryAt(s, k)
    ensures IsDigit(s[0]) && k == Span(s, Digit)
  {
    AllPrefix(s, Digit, k);
    SpanIs(s, Digit, k);
  }

  lemma {:induction false} FractionEnds(s: string, k: nat, i: nat)
    requires 0 < i < k - 1 && k <= |s|
    requires s[i] == '.' && All(s[..i], Digit) && All(s[i + 1..k], Digit) && BoundaryAt(s, k)
    ensures var n := Span(s, Digit);
      i == n && n + 1 < |s| && IsDigit(s[n + 1]) && k == n + 1 + Span(s[n + 1..], Digit)
  {
    AllPrefix(s, Digit, i);
    SpanIs(s, Digit, i);
    var u := s[i + 1..];
    var k' := k - i - 1;
    assert u[..k'] == s[i + 1..k];
    assert BoundaryAt(u, k') == BoundaryAt(s, k) by {
      assert u[k' - 1] == s[k - 1];
      assert k' < |u| ==> u[k'] == s[k];
    }
    DigitsEnd(u, k');
    assert u[0] == s[i + 1];
  }

  /** Where the constant pattern can end: a numeral prefix of `s` followed by a word boundary
      is either the maximal digit run, or that run, a `.` and the maximal digit run after it. */
  lemma {:induction false} NumeralEnds(s: string, k: nat)
    requires 0 < k <= |s| && IsNumeral(s[..k]) && BoundaryAt(s, k)
    ensures IsDigit(s[0])
    ensures var n := Span(s, Digit);
      k == n || (n + 1 < |s| && s[n] == '.' && IsDigit(s[n + 1]) && k == n + 1 + Span(s[n + 1..], Digit))
  {
    var t := s[..k];
    if |t| > 0 && All(t, Digit) {
      DigitsEnd(s, k);
    } else {
      var i :| 0 < i < |t| - 1 && t[i] == '.' && All(t[..i], Digit) && All(t[i + 1..], Digit);
      assert t[..i] == s[..i] && t[i + 1..] == s[i + 1..k];
      FractionEnds(s, k, i);
      assert InClass(s[..i][0], Digit);
    }
  }

  /** The constant pattern's backtracking (trabajof.js:9) yields the LONGEST prefix of `s` that
      is a numeral followed by a word boundary, and no match when there is none. So `1.5`
      is one constant, while `1.5a` yields the constant `1` and leaves `.5a`. */
  lemma {:induction false} ConstantIsLongest(s: string)
    ensures ConstantScan(s).Match? ==>
      forall k :: ConstantScan(s).advance < k <= |s| ==> !(IsNumeral(s[..k]) && BoundaryAt(s, k))
    ensures ConstantScan(s).NoMatch? ==>
      forall k :: 0 < k <= |s| ==> !(IsNumeral(s[..k]) && BoundaryAt(s, k))
  {
    forall k | 0 < k <= |s| && IsNumeral(s[..k]) && BoundaryAt(s, k)
      ensures ConstantScan(s).Match? && k <= ConstantScan(s).advance
    {
      NumeralEnds(s, k);
    }
  }

  /** The search for the unanchored alternatives finds their leftmost occurrence. */
  lemma {:induction false} FindPairFinds(s: string, i: nat, j: nat)
    requires i <= j && PairAt(s, j)
    requires forall k :: i <= k < j ==> !PairAt(s, k)
    decreases j - i
    ensures FindPair(s, i) == Some(j)
  {
    if i < j {
      FindPairFinds(s, i + 1, j);
    }
  }

  /** The operator pattern's unanchored alternatives (trabajof.js:6, 19-26): when neither a
      keyword nor the anchored single operator matches at the cursor but `==`, `!=`, `++` or
      `--` occurs later, the leftmost occurrence becomes an operator token and the cursor
      moves by 2 from where it was, so the text before that occurrence is lost. With
      `a==b` this yields `==`, then `=`, then `b`. */
  lemma {:induction false} OperatorQuirk(s: string, j: nat)
    requires |s| > 0 && !IsOpChar(s[0]) && KeywordScan(s).NoMatch?
    requires PairAt(s, j) && forall k :: 0 <= k < j ==> !PairAt(s, k)
    ensures 1 <= j
    ensures FirstMatch(s) == Some(Step(Operator, s[j..j + 2], 2))
  {
    FindPairFinds(s, 0, j);
    assert OperatorScan(s) == Match(s[j..j + 2], 2);
    FirstMatchIs(s, Operator);
  }

  /** Whatever the winner, its text is the prefix the cursor moves over, unless the operator
      pattern fell back on an unanchored alternative, which needs one of the four pairs. */
  lemma {:induction false} StepIsPrefix(s: string)
    requires NoPairs(s) && FirstMatch(s).Some?
    ensures FirstMatch(s).value.text == s[..FirstMatch(s).value.advance]
  {
    assert FindPair(s, 0).None?;
  }

  lemma {:induction false} SqueezeAppend(a: string, b: string)
    decreases |a|
    ensures Squeeze(a + b) == Squeeze(a) + Squeeze(b)
  {
    if a == [] {
      assert a + b == b;
    } else {
      assert (a + b)[0] == a[0];
      assert (a + b)[1..] == a[1..] + b;
      SqueezeAppend(a[1..], b);
    }
  }

  lemma {:induction false} SqueezeKeeps(t: string)
    decreases |t|
    requires forall i :: 0 <= i < |t| ==> !IsSpace(t[i])
    ensures Squeeze(t) == t
  {
    if t != [] {
      SqueezeKeeps(t[1..]);
    }
  }

  lemma {:induction false} SqueezeDrops(t: string)
    decreases |t|
    requires All(t, Space)
    ensures Squeeze(t) == []
  {
    if t != [] {
      SqueezeDrops(t[1..]);
    }
  }

  lemma {:induction false} NumeralHasNoSpace(x: string)
    requires IsNumeral(x)
    ensures forall j :: 0 <= j < |x| ==> !IsSpace(x[j])
  {
    if !(|x| > 0 && All(x, Digit)) {
      var i :| 0 < i < |x| - 1 && x[i] == '.' && All(x[..i], Digit) && All(x[i + 1..], Digit);
      forall j | 0 <= j < |x|
        ensures !IsSpace(x[j])
      {
        assert j < i ==> InClass(x[..i][j], Digit);
        assert j > i ==> InClass(x[i + 1..][j - i - 1], Digit);
      }
    }
  }

  /** Only whitespace tokens contain whitespace. */
  lemma {:induction false} TextHasNoSpace(t: Token)
    requires WellFormed(t) && t.kind != Whitespace
    ensures forall i :: 0 <= i < |t.text| ==> !IsSpace(t.text[i])
  {
    match t.kind
    case Keyword =>
      KeywordIsWord(t.text);
    case Constant =>
      NumeralHasNoSpace(t.text);
    case _ =>
  }

  lemma {:induction false} TextsCons(t: Token, ts: seq<Token>)
    ensures Texts([t] + ts) == t.text + Texts(ts)
  {
    assert ([t] + ts)[1..] == ts;
  }

  /** The part of the input one step moves over, with whitespace removed, is the text the
      step emits. */
  lemma {:induction false} StepSqueeze(s: string)
    requires NoPairs(s) && FirstMatch(s).Some?
    ensures var step := FirstMatch(s).value;
      Squeeze(s[..step.advance]) == if step.kind == Whitespace then [] else step.text
  {
    var step := FirstMatch(s).value;
    StepIsPrefix(s);
    if step.kind == Whitespace {
      SqueezeDrops(s[..step.advance]);
    } else {
      TextHasNoSpace(Token(step.kind, step.text));
      SqueezeKeeps(s[..step.advance]);
    }
  }

  lemma {:induction false} NoPairsSuffix(s: string, a: nat)
    requires NoPairs(s) && a <= |s|
    ensures NoPairs(s[a..])
  {
    var tail := s[a..];
    forall j | 0 <= j < |tail|
      ensures !PairAt(tail, j)
    {
      assert !PairAt(s, a + j);
    }
  }

  /** One iteration of the lexer's loop, seen from a successful run. */
  lemma {:induction false} TokenizeStep(s: string)
    requires |s| > 0 && Tokenize(s).Ok?
    ensures FirstMatch(s).Some?
    ensures var step := FirstMatch(s).value;
      var rest := Tokenize(s[step.advance..]);
      && rest.Ok?
      && Tokenize(s).value == if step.kind == Whitespace then rest.value
                              else [Token(step.kind, step.text)] + rest.value
  {
  }

  /** When the input contains none of `==`, `!=`, `++`, `--`, the token texts concatenated
      are exactly the input with its whitespace removed (trabajof.js:19-26): every step
      moves the cursor over the text it emits, and only whitespace is dropped. */
  lemma {:induction false} TokenizeReconstructs(s: string)
    decreases |s|
    requires NoPairs(s) && Tokenize(s).Ok?
    ensures Texts(Tokenize(s).value) == Squeeze(s)
  {
    if |s| > 0 {
      TokenizeStep(s);
      var step := FirstMatch(s).value;
      var tail := s[step.advance..];
      NoPairsSuffix(s, step.advance);
      TokenizeReconstructs(tail);
      StepSqueeze(s);
      ReconstructStep(s[..step.advance], tail, step.kind, step.text, Tokenize(s).value, Tokenize(tail).value);
      Rejoin(s, step.advance);
    }
  }

  lemma {:induction false} Rejoin(s: string, a: nat)
    requires a <= |s|
    ensures s[..a] + s[a..] == s
  {
  }

  /** One step of the reconstruction: what the step emits is the squeezed part of the input
      it moves over, and the rest of the tokens cover the rest of the input. */
  lemma {:induction false} ReconstructStep(moved: string, tail: string, kind: Class, text: string, ts: seq<Token>, rest: seq<Token>)
    requires ts == if kind == Whitespace then rest else [Token(kind, text)] + rest
    requires Squeeze(moved) == if kind == Whitespace then [] else text
    requires Texts(rest) == Squeeze(tail)
    ensures Texts(ts) == Squeeze(moved + tail)
  {
    if kind != Whitespace {
      TextsCons(Token(kind, text), rest);
    }
    SqueezeAppend(moved, tail);
  }

  /** Every reserved word has at least two characters and starts with a letter. */
  lemma {:induction false} KeywordsAreLong(w: string)
    requires IsKeyword(w)
    ensures |w| >= 2 && IsLetter(w[0])
  {
    var i :| 0 <= i < KeywordCount && KeywordText(i) == w;
  }

  /** The keyword pattern needs a word boundary at the cursor, so it never matches before a
      character that is not a word character. */
  lemma {:induction false} NonWordNoKeyword(s: string)
    requires |s| > 0 && !IsWordChar(s[0])
    ensures KeywordScan(s).NoMatch?
  {
    assert !BoundaryAt(s, 0);
  }

  /** No reserved word starts with a digit. */
  lemma {:induction false} DigitNoKeyword(s: string)
    requires |s| > 0 && IsDigit(s[0])
    ensures KeywordScan(s).NoMatch?
  {
    forall i | 0 <= i < KeywordCount
      ensures !KeywordAt(s, KeywordText(i))
    {
      var k := KeywordText(i);
      KeywordsAreLong(k);
      assert s[0] != k[0];
    }
  }

  /** A one-letter word is an identifier: no reserved word is that short. */
  lemma {:induction false} SingleLetterIdentifier(s: string)
    requires |s| > 0 && IsLetter(s[0]) && Span(s, Word) == 1 && NoPairs(s)
    ensures FirstMatch(s) == Some(Step(Identifier, s[..1], 1))
  {
    KeywordScanOnWord(s);
    if IsKeyword(s[..1]) {
      KeywordsAreLong(s[..1]);
    }
    IdentifierWins(s);
  }

  /** On a digit, without the pairs, the four patterns tried before the constant pattern fail. */
  lemma {:induction false} DigitScans(s: string)
    requires |s| > 0 && IsDigit(s[0]) && NoPairs(s)
    ensures ScanClass(Keyword, s).NoMatch? && ScanClass(Operator, s).NoMatch?
    ensures ScanClass(Delimiter, s).NoMatch? && ScanClass(Identifier, s).NoMatch?
  {
    DigitNoKeyword(s);
    assert FindPair(s, 0).None?;
  }

  /** On a digit, without the pairs, the constant pattern wins whenever it matches. */
  lemma {:induction false} ConstantWins(s: string)
    requires |s| > 0 && IsDigit(s[0]) && NoPairs(s) && ConstantScan(s).Match?
    ensures FirstMatch(s) == Some(Step(Constant, ConstantScan(s).text, ConstantScan(s).advance))
  {
    DigitScans(s);
    WinnerIsConstant(s);
  }

  lemma {:induction false} WinnerIsConstant(s: string)
    requires ScanClass(Keyword, s).NoMatch? && ScanClass(Operator, s).NoMatch?
    requires ScanClass(Delimiter, s).NoMatch? && ScanClass(Identifier, s).NoMatch?
    requires ScanClass(Constant, s).Match?
    ensures Winner(s, 0) == 4
  {
    assert Winner(s, 4) == 4;
    assert Winner(s, 3) == 4;
    assert Winner(s, 2) == 4;
    assert Winner(s, 1) == 4;
  }

  /** One turn of the lexer's loop that emits a token: the token is followed by the tokens of
      the rest of the input. */
  lemma {:induction false} TokenizeEmits(s: string, step: Step, rest: seq<Token>)
    requires |s| > 0 && FirstMatch(s) == Some(step) && step.kind != Whitespace
    requires step.advance <= |s| && Tokenize(s[step.advance..]) == Ok(rest)
    ensures Tokenize(s) == Ok([Token(step.kind, step.text)] + rest)
  {
  }

  /** One turn of the lexer's loop over whitespace: nothing is emitted (trabajof.js:22-26). */
  lemma {:induction false} TokenizeSkips(s: string, step: Step)
    requires |s| > 0 && FirstMatch(s) == Some(step) && step.kind == Whitespace
    requires step.advance <= |s| && Tokenize(s[step.advance..]).Ok?
    ensures Tokenize(s) == Tokenize(s[step.advance..])
  {
  }

  /** On a blank, without the pairs, the five patterns tried before whitespace fail. */
  lemma {:induction false} BlankScans(s: string)
    requires |s| > 0 && s[0] == ' ' && NoPairs(s)
    ensures ScanClass(Keyword, s).NoMatch? && ScanClass(Operator, s).NoMatch?
    ensures ScanClass(Delimiter, s).NoMatch? && ScanClass(Identifier, s).NoMatch?
    ensures ScanClass(Constant, s).NoMatch?
  {
    NonWordNoKeyword(s);
    assert FindPair(s, 0).None?;
  }

  lemma {:induction false} WinnerIsWhitespace(s: string)
    requires ScanClass(Keyword, s).NoMatch? && ScanClass(Operator, s).NoMatch?
    requires ScanClass(Delimiter, s).NoMatch? && ScanClass(Identifier, s).NoMatch?
    requires ScanClass(Constant, s).NoMatch? && ScanClass(Whitespace, s).Match?
    ensures Winner(s, 0) == 5
  {
    assert Winner(s, 5) == 5;
    assert Winner(s, 4) == 5;
    assert Winner(s, 3) == 5;
    assert Winner(s, 2) == 5;
    assert Winner(s, 1) == 5;
  }

  /** A blank is skipped and its tokens are those of the text after it; without the pairs
      the operator pattern cannot take the blank's place (trabajof.js:10, 22-26). */
  lemma {:induction false} LexBlank(s: string, rest: seq<Token>)
    requires |s| > 1 && s[0] == ' ' && !IsSpace(s[1]) && NoPairs(s) && Tokenize(s[1..]) == Ok(rest)
    ensures Tokenize(s) == Ok(rest)
  {
    BlankStep(s);
    TokenizeSkips(s, Step(Whitespace, s[..1], 1));
  }

  lemma {:induction false} BlankStep(s: string)
    requires |s| > 1 && s[0] == ' ' && !IsSpace(s[1]) && NoPairs(s)
    ensures FirstMatch(s) == Some(Step(Whitespace, s[..1], 1))
  {
    BlankScans(s);
    SpanIs(s, Space, 1);
    assert WhitespaceScan(s) == Match(s[..1], 1);
    WinnerIsWhitespace(s);
  }

  /** An operator character not followed by `=` is a one-character operator. */
  lemma {:induction false} LexOperatorChar(s: string, rest: seq<Token>)
    requires |s| > 1 && IsOpChar(s[0]) && s[1] != '=' && Tokenize(s[1..]) == Ok(rest)
    ensures Tokenize(s) == Ok([Token(Operator, s[..1])] + rest)
  {
    NonWordNoKeyword(s);
    assert OperatorScan(s) == Match(s[..1], 1);
    assert Winner(s, 1) == 1;
    assert Winner(s, 0) == 1;
    TokenizeEmits(s, Step(Operator, s[..1], 1), rest);
  }

  /** A one-letter name, without the pairs, is an identifier. */
  lemma {:induction false} LexLetter(s: string, rest: seq<Token>)
    requires |s| > 1 && IsLetter(s[0]) && !IsWordChar(s[1]) && NoPairs(s) && Tokenize(s[1..]) == Ok(rest)
    ensures Tokenize(s) == Ok([Token(Identifier, s[..1])] + rest)
  {
    LetterStep(s);
    TokenizeEmits(s, Step(Identifier, s[..1], 1), rest);
  }

  lemma {:induction false} LetterStep(s: string)
    requires |s| > 1 && IsLetter(s[0]) && !IsWordChar(s[1]) && NoPairs(s)
    ensures FirstMatch(s) == Some(Step(Identifier, s[..1], 1))
  {
    SpanIs(s, Word, 1);
    SingleLetterIdentifier(s);
  }

  /** A reserved word that ends at a non-word character is a keyword. */
  lemma {:induction false} LexReserved(s: string, k: string, rest: seq<Token>)
    requires IsKeyword(k) && |k| < |s| && s[..|k|] == k && !IsWordChar(s[|k|])
    requires Tokenize(s[|k|..]) == Ok(rest)
    ensures Tokenize(s) == Ok([Token(Keyword, k)] + rest)
  {
    KeywordIsWord(k);
    KeywordsAreLong(k);
    AllPrefix(s, Word, |k|);
    SpanIs(s, Word, |k|);
    KeywordScanOnWord(s);
    KeywordWins(s);
    TokenizeEmits(s, Step(Keyword, k, |k|), rest);
  }

  /** A character that starts no pair keeps a text free of pairs. */
  lemma {:induction false} NoPairsCons(s: string)
    requires |s| > 0 && !PairAt(s, 0) && NoPairs(s[1..])
    ensures NoPairs(s)
  {
    forall j | 0 < j < |s|
      ensures !PairAt(s, j)
    {
      assert PairAt(s, j) == PairAt(s[1..], j - 1);
    }
  }

  /** A lexical error later in the input is the error of the whole run: there is no recovery
      (trabajof.js:32-33). */
  lemma {:induction false} TokenizeFailsLater(s: string, step: Step)
    requires |s| > 0 && FirstMatch(s) == Some(step)
    requires step.advance <= |s| && Tokenize(s[step.advance..]).Err?
    ensures Tokenize(s) == Tokenize(s[step.advance..])
  {
  }

  /** A run of word characters holds none of `==`, `!=`, `++`, `--`. */
  lemma {:induction false} WordHasNoPairs(s: string)
    requires All(s, Word)
    ensures NoPairs(s)
  {
  }

  /** An input that is one word, not a reserved one, lexes to a single identifier however
      it starts: `letter` and `classroom` are not split after `let` or `class`
      (trabajof.js:5, 8, 15-37). */
  lemma {:induction false} WholeWordIdentifier(s: string)
    requires |s| > 0 && IsLetter(s[0]) && All(s, Word) && !IsKeyword(s)
    ensures Tokenize(s) == Ok([Token(Identifier, s)])
  {
    SpanIs(s, Word, |s|);
    WordHasNoPairs(s);
    WordClassification(s);
    assert s[..|s|] == s && s[|s|..] == [];
    TokenizeEmits(s, Step(Identifier, s, |s|), []);
    assert [Token(Identifier, s)] + [] == [Token(Identifier, s)];
  }

  /** An input that is exactly one reserved word lexes to that keyword. */
  lemma {:induction false} WholeWordKeyword(s: string)
    requires IsKeyword(s)
    ensures Tokenize(s) == Ok([Token(Keyword, s)])
  {
    KeywordIsWord(s);
    KeywordsAreLong(s);
    SpanIs(s, Word, |s|);
    WordHasNoPairs(s);
    WordClassification(s);
    assert s[..|s|] == s && s[|s|..] == [];
    TokenizeEmits(s, Step(Keyword, s, |s|), []);
    assert [Token(Keyword, s)] + [] == [Token(Keyword, s)];
  }

  /** A one-letter word followed by one of the four pairs: the keyword and the anchored
      operator fail at the letter, so the pair wins and the letter is lost
      (trabajof.js:5-6, 19-26). */
  lemma {:induction false} PairAfterLetter(s: string)
    requires |s| > 0 && IsLetter(s[0]) && PairAt(s, 1)
    ensures FirstMatch(s) == Some(Step(Operator, s[1..3], 2))
  {
    assert !IsWordChar(s[1]);
    SpanIs(s, Word, 1);
    KeywordScanOnWord(s);
    if IsKeyword(s[..1]) {
      KeywordsAreLong(s[..1]);
    }
    OperatorQuirk(s, 1);
  }
}
