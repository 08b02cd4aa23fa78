/** Source text taken through both stages: the lexer's tokens handed to the parser. */
module ProgramExamples {
  import opened Wrappers
  import opened Tokens
  import opened Scanners
  import opened Lexer
  import opened LexerProperties
  import opened Syntax
  import opened Parser
  import opened ParserExamples

  lemma {:induction false} LexSemicolon()
    ensures Tokenize(";") == Ok([Token(Delimiter, ";")])
  {
    var s := ";";
    NonWordNoKeyword(s);
    assert FindPair(s, 0).None?;
    assert DelimiterScan(s) == Match(";", 1);
    assert Winner(s, 2) == 2;
    assert Winner(s, 0) == 2;
    assert s[1..] == [];
    TokenizeEmits(s, Step(Delimiter, ";", 1), []);
    assert [Token(Delimiter, ";")] + [] == [Token(Delimiter, ";")];
  }

  lemma {:induction false} LexPlusSemicolon()
    ensures Tokenize("+;") == Ok([Token(Operator, "+"), Token(Delimiter, ";")])
  {
    var s := "+;";
    LexSemicolon();
    NonWordNoKeyword(s);
    assert OperatorScan(s) == Match("+", 1);
    assert Winner(s, 1) == 1;
    assert Winner(s, 0) == 1;
    assert s[1..] == ";";
    TokenizeEmits(s, Step(Operator, "+", 1), [Token(Delimiter, ";")]);
    assert [Token(Operator, "+")] + [Token(Delimiter, ";")] == [Token(Operator, "+"), Token(Delimiter, ";")];
  }

  /** The tokens of `x++;`. */
  const IncrementTokens := [Token(Operator, "++"), Token(Operator, "+"), Token(Delimiter, ";")]

  /** At `x++;` no keyword and no anchored operator match, so the unanchored `++` found one
      character further on wins and the `x` is lost; the cursor moves by 2 and lands on the
      second `+` (trabajof.js:6, 19-26). */
  lemma {:induction false} IncrementQuirk()
    ensures FirstMatch("x++;") == Some(Step(Operator, "++", 2))
  {
    var s := "x++;";
    assert PairAt(s, 1);
    PairAfterLetter(s);
    assert s[1..3] == "++";
  }

  lemma {:induction false} IncrementLexed()
    ensures Tokenize("x++;") == Ok(IncrementTokens)
  {
    LexPlusSemicolon();
    IncrementQuirk();
    assert "x++;"[2..] == "+;";
    TokenizeEmits("x++;", Step(Operator, "++", 2), [Token(Operator, "+"), Token(Delimiter, ";")]);
    assert [Token(Operator, "++")] + [Token(Operator, "+"), Token(Delimiter, ";")] == IncrementTokens;
  }

  /** The program `x++;` is rejected: after the lexer has dropped the `x`, the statement
      opens with `++`, where the parser expects a term (trabajof.js:19-26, 71-74, 172-179). */
  lemma {:induction false} IncrementRejected()
    ensures Tokenize("x++;") == Ok(IncrementTokens)
    ensures Parse(IncrementTokens) == Err(SyntaxError(Term, Some(Token(Operator, "++"))))
  {
    IncrementLexed();
    var toks := IncrementTokens;
    var err := SyntaxError(Term, Some(Token(Operator, "++")));
    assert ParseTerm(toks, 0) == Err(err);
    assert ParseExprStmt(toks, 0) == Err(err);
    assert ParseDeclaration(toks, 0) == Err(err);
    assert ParseProgram(toks, 0) == Err(err);
  }

  /** The tokens of `let x = 1;`. */
  const LetTokens := [Reserved("let"), X, Eq, One, Punct(";")]

  /** The lexer's loop over `let x = 1;`, one turn per token, built from the end of the text
      backwards: each lemma lexes one more character in front of the previous one. */
  lemma {:induction false} LexOneSemicolon()
    ensures Tokenize("1;") == Ok([One, Punct(";")])
  {
    var s := "1;";
    LexSemicolon();
    assert !PairAt(s, 0) && !PairAt(s, 1);
    SpanIs(s, Digit, 1);
    assert s[..1] == "1";
    assert ConstantScan(s) == Match("1", 1);
    ConstantWins(s);
    assert s[1..] == ";";
    TokenizeEmits(s, Step(Constant, "1", 1), [Punct(";")]);
    assert [One] + [Punct(";")] == [One, Punct(";")];
  }

  lemma {:induction false} LexBlankOne()
    ensures Tokenize(" 1;") == Ok([One, Punct(";")])
  {
    var s := " 1;";
    LexOneSemicolon();
    assert !PairAt(s, 0) && !PairAt(s, 1) && !PairAt(s, 2);
    assert s[1..] == "1;";
    LexBlank(s, [One, Punct(";")]);
  }

  lemma {:induction false} LexEqualsOne()
    ensures Tokenize("= 1;") == Ok([Eq, One, Punct(";")])
  {
    var s := "= 1;";
    LexBlankOne();
    assert s[1..] == " 1;" && s[..1] == "=";
    LexOperatorChar(s, [One, Punct(";")]);
    assert [Eq] + [One, Punct(";")] == [Eq, One, Punct(";")];
  }

  lemma {:induction false} LexBlankEquals()
    ensures Tokenize(" = 1;") == Ok([Eq, One, Punct(";")])
  {
    var s := " = 1;";
    LexEqualsOne();
    assert !PairAt(s, 0) && !PairAt(s, 1) && !PairAt(s, 2) && !PairAt(s, 3) && !PairAt(s, 4);
    assert s[1..] == "= 1;";
    LexBlank(s, [Eq, One, Punct(";")]);
  }

  lemma {:induction false} AssignedValueNoPairs()
    ensures NoPairs(" = 1;")
  {
    var s := " = 1;";
    assert !PairAt(s, 0) && !PairAt(s, 1) && !PairAt(s, 2) && !PairAt(s, 3) && !PairAt(s, 4);
  }

  lemma {:induction false} LetIsReserved()
    ensures IsKeyword("let")
  {
    assert KeywordText(0) == "let";
  }

  lemma {:induction false} NameTokens(x: string)
    requires x == "x"
    ensures [Token(Identifier, x)] + [Eq, One, Punct(";")] == [X, Eq, One, Punct(";")]
  {
  }

  lemma {:induction false} LetTokensCons()
    ensures [Token(Keyword, "let")] + [X, Eq, One, Punct(";")] == LetTokens
  {
  }

  /** The next turns, over `x = 1;`, the blank before it and `let`, are stated for a text
      `t` equal to the literal rather than for the literal itself, which keeps the verifier
      from evaluating the lexer on the whole literal at every step. */
  lemma {:induction false} LexNameFrom(t: string)
    requires t == "x = 1;"
    ensures NoPairs(t) && Tokenize(t) == Ok([X, Eq, One, Punct(";")])
  {
    LexBlankEquals();
    AssignedValueNoPairs();
    assert t[1..] == " = 1;" && t[..1] == "x" && !PairAt(t, 0);
    NoPairsCons(t);
    LexLetter(t, [Eq, One, Punct(";")]);
    NameTokens(t[..1]);
  }

  lemma {:induction false} LexBlankNameFrom(t: string)
    requires t == " x = 1;"
    ensures Tokenize(t) == Ok([X, Eq, One, Punct(";")])
  {
    LexNameFrom(t[1..]);
    assert !PairAt(t, 0);
    NoPairsCons(t);
    LexBlank(t, [X, Eq, One, Punct(";")]);
  }

  /** `let` before a non-word character is the reserved word, whatever follows. */
  lemma {:induction false} LexLetBefore(tail: string, rest: seq<Token>)
    requires |tail| > 0 && !IsWordChar(tail[0]) && Tokenize(tail) == Ok(rest)
    ensures Tokenize("let" + tail) == Ok([Reserved("let")] + rest)
  {
    var s := "let" + tail;
    LetIsReserved();
    assert s[..3] == "let" && s[3..] == tail;
    LexReserved(s, "let", rest);
  }

  lemma {:induction false} LexLetFrom(tail: string)
    requires tail == " x = 1;"
    ensures Tokenize("let" + tail) == Ok(LetTokens)
  {
    LexBlankNameFrom(tail);
    LexLetBefore(tail, [X, Eq, One, Punct(";")]);
    LetTokensCons();
  }

  lemma {:induction false} LetText()
    ensures "let" + " x = 1;" == "let x = 1;"
  {
  }

  lemma {:induction false} LetLexed()
    ensures Tokenize("let x = 1;") == Ok(LetTokens)
  {
    LexLetFrom(" x = 1;");
    LetText();
  }

  /** The program `let x = 1;` is one assignment of `1` to `x`: the lexer gives a keyword, an
      identifier, an operator, a constant and a delimiter, and the parser reads them as
      `parseAsignacion` does (trabajof.js:5-11, 14-34, 77-84). */
  lemma {:induction false} LetProgram()
    ensures Tokenize("let x = 1;").Ok?
    ensures Parse(Tokenize("let x = 1;").value) == Ok(Program([Assign(Assignment(X, Leaf(One)))]))
  {
    LetLexed();
    LetParses();
  }
}
