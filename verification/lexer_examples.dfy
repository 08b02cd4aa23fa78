/** Concrete runs of the lexer on small inputs that show its edge cases. */
module LexerExamples {
  import opened Wrappers
  import opened Tokens
  import opened Scanners
  import opened Lexer
  import opened LexerProperties

  /** At `a==b` the keyword and the anchored single operator fail, and the unanchored `==`
      found one character further on wins, moving the cursor by 2. */
  lemma {:induction false} EqualsQuirk()
    ensures FirstMatch("a==b") == Some(Step(Operator, "==", 2))
  {
    var s := "a==b";
    assert PairAt(s, 1);
    PairAfterLetter(s);
    assert s[1..3] == "==";
  }

  lemma {:induction false} LexB()
    ensures Tokenize("b") == Ok([Token(Identifier, "b")])
  {
    var b := "b";
    assert Span(b[1..], Word) == 0;
    SingleLetterIdentifier(b);
    assert b[..1] == b && b[1..] == [];
    TokenizeEmits(b, Step(Identifier, "b", 1), []);
    assert [Token(Identifier, "b")] + [] == [Token(Identifier, "b")];
  }

  lemma {:induction false} LexEqB()
    ensures Tokenize("=b") == Ok([Token(Operator, "="), Token(Identifier, "b")])
  {
    var eb := "=b";
    LexB();
    NonWordNoKeyword(eb);
    assert OperatorScan(eb) == Match("=", 1);
    assert Winner(eb, 1) == 1;
    assert Winner(eb, 0) == 1;
    assert eb[1..] == "b";
    TokenizeEmits(eb, Step(Operator, "=", 1), [Token(Identifier, "b")]);
    assert [Token(Operator, "=")] + [Token(Identifier, "b")] == [Token(Operator, "="), Token(Identifier, "b")];
  }

  /** `a==b` lexes to `==`, `=`, `b`: the `a` is lost (trabajof.js:6, 19-26). */
  lemma {:induction false} EqualsQuirkTokens()
    ensures Tokenize("a==b") == Ok([Token(Operator, "=="), Token(Operator, "="), Token(Identifier, "b")])
  {
    LexEqB();
    EqualsQuirk();
    assert "a==b"[2..] == "=b";
    TokenizeEmits("a==b", Step(Operator, "==", 2), [Token(Operator, "="), Token(Identifier, "b")]);
    assert [Token(Operator, "==")] + [Token(Operator, "="), Token(Identifier, "b")]
        == [Token(Operator, "=="), Token(Operator, "="), Token(Identifier, "b")];
  }

  /** The constant pattern gives up the fraction of `1.5a`, since no word boundary follows
      `5`, and matches `1` alone (trabajof.js:9). */
  lemma {:induction false} FractionGivenUp()
    ensures ConstantScan("1.5a") == Match("1", 1)
  {
    var s := "1.5a";
    assert Span(s[1..], Digit) == 0;
    assert Span(s, Digit) == 1;
    assert Span(s[2..], Digit) == 1 by {
      assert s[2..][1..] == "a";
      assert Span("a", Digit) == 0;
    }
    assert !BoundaryAt(s, 3);
    assert s[..1] == "1";
  }

  /** Nothing matches at `5a`: the constant pattern needs a boundary after `5`, and a digit
      does not start an identifier. */
  lemma {:induction false} Lex5a()
    ensures Tokenize("5a") == Err(Unrecognized("5a"))
  {
    var s := "5a";
    DigitNoKeyword(s);
    assert FindPair(s, 0).None?;
    assert Span(s[1..], Digit) == 0;
    assert Span(s, Digit) == 1;
    assert ConstantScan(s).NoMatch?;
    assert Winner(s, 5) == 6;
    assert Winner(s, 0) == 6;
  }

  lemma {:induction false} LexDot5a()
    ensures Tokenize(".5a") == Err(Unrecognized("5a"))
  {
    var s := ".5a";
    Lex5a();
    NonWordNoKeyword(s);
    assert FindPair(s, 0).None?;
    assert DelimiterScan(s) == Match(".", 1);
    assert Winner(s, 2) == 2;
    assert Winner(s, 0) == 2;
    assert s[1..] == "5a";
    TokenizeFailsLater(s, Step(Delimiter, ".", 1));
  }

  /** `1.5a` lexes `1`, then `.`, then fails at `5a` with that suffix (trabajof.js:32-33). */
  lemma {:induction false} FractionThenError()
    ensures Tokenize("1.5a") == Err(Unrecognized("5a"))
  {
    var s := "1.5a";
    LexDot5a();
    FractionGivenUp();
    assert FindPair(s, 0).None?;
    ConstantWins(s);
    assert s[1..] == ".5a";
    TokenizeFailsLater(s, Step(Constant, "1", 1));
  }

  /** `@` is in none of the patterns' classes: lexing stops at once and reports the whole
      input (trabajof.js:32-33). */
  lemma {:induction false} UnknownCharacterFails()
    ensures Tokenize("@") == Err(Unrecognized("@"))
  {
    var s := "@";
    NonWordNoKeyword(s);
    assert FindPair(s, 0).None?;
    assert Winner(s, 0) == 6;
  }

  /** `classroom` is not a reserved word, however it starts. */
  lemma {:induction false} ClassroomNotReserved()
    ensures !IsKeyword("classroom")
  {
    forall i | 0 <= i < KeywordCount
      ensures KeywordText(i) != "classroom"
    {
      assert |KeywordText(i)| <= 8;
    }
  }

  /** `classroom` is one identifier, not the keyword `class` and then `room`: the keyword
      pattern needs a word boundary after `class` (trabajof.js:5, 8, 18-28). */
  lemma {:induction false} ClassroomIsIdentifier()
    ensures Tokenize("classroom") == Ok([Token(Identifier, "classroom")])
  {
    var s := "classroom";
    ClassroomNotReserved();
    assert All(s, Word);
    WholeWordIdentifier(s);
  }

  /** `let` on its own is a keyword (trabajof.js:5). */
  lemma {:induction false} LetIsKeyword()
    ensures Tokenize("let") == Ok([Token(Keyword, "let")])
  {
    assert KeywordText(0) == "let";
    WholeWordKeyword("let");
  }

  /** An operator character followed by `=` is one two-character operator: the anchored
      alternative, an operator character and an optional `=`, takes the `=` (trabajof.js:6). */
  lemma {:induction false} CompoundAssignment()
    ensures Tokenize("+=") == Ok([Token(Operator, "+=")])
  {
    var s := "+=";
    NonWordNoKeyword(s);
    assert OperatorScan(s) == Match("+=", 2);
    assert Winner(s, 1) == 1;
    assert Winner(s, 0) == 1;
    assert s[2..] == [];
    TokenizeEmits(s, Step(Operator, "+=", 2), []);
    assert [Token(Operator, "+=")] + [] == [Token(Operator, "+=")];
  }

  lemma {:induction false} LexPlus()
    ensures Tokenize("+") == Ok([Token(Operator, "+")])
  {
    var s := "+";
    NonWordNoKeyword(s);
    assert OperatorScan(s) == Match("+", 1);
    assert Winner(s, 1) == 1;
    assert Winner(s, 0) == 1;
    assert s[1..] == [];
    TokenizeEmits(s, Step(Operator, "+", 1), []);
    assert [Token(Operator, "+")] + [] == [Token(Operator, "+")];
  }

  /** `++` on its own is two `+` operators: the anchored single-character alternative comes
      first in the operator pattern and matches `+` before `\+\+` is tried
      (trabajof.js:6, 19-26). */
  lemma {:induction false} IncrementSplits()
    ensures Tokenize("++") == Ok([Token(Operator, "+"), Token(Operator, "+")])
  {
    var s := "++";
    LexPlus();
    NonWordNoKeyword(s);
    assert OperatorScan(s) == Match("+", 1);
    assert Winner(s, 1) == 1;
    assert Winner(s, 0) == 1;
    assert s[1..] == "+";
    TokenizeEmits(s, Step(Operator, "+", 1), [Token(Operator, "+")]);
    assert [Token(Operator, "+")] + [Token(Operator, "+")] == [Token(Operator, "+"), Token(Operator, "+")];
  }
}
