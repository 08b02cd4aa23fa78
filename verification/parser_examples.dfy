/** Concrete runs of the parser on small token sequences that show its edge cases. */
module ParserExamples {
  import opened Wrappers
  import opened Tokens
  import opened Syntax
  import opened Parser
  import opened ParserProperties
  import opened ParserRoundTrip

  const A := Token(Identifier, "a")
  const B := Token(Identifier, "b")
  const C := Token(Identifier, "c")
  const X := Token(Identifier, "x")
  const One := Token(Constant, "1")
  const Two := Token(Constant, "2")
  const Eq := Token(Operator, "=")
  const Plus := Token(Operator, "+")
  const Minus := Token(Operator, "-")

  /** `let x = 1;` is one assignment (trabajof.js:77-84). */
  lemma {:induction false} LetParses()
    ensures Parse([Reserved("let"), X, Eq, One, Punct(";")]) == Ok(Program([Assign(Assignment(X, Leaf(One)))]))
  {
    var p := Program([Assign(Assignment(X, Leaf(One)))]);
    assert p.decls[1..] == [];
    assert DeclsTokens(p.decls) == AssignmentTokens(p.decls[0].assignment) + DeclsTokens([]);
    assert ProgramTokens(p) == [Reserved("let"), X, Eq, One, Punct(";")];
    assert KeywordText(0) == "let";
    assert WellFormed(Reserved("let"));
    assert WellFormed(One);
    RoundTrip(p);
  }

  /** `let x = 1` runs out of tokens where the `;` is expected (trabajof.js:82, 181-185). */
  lemma {:induction false} LetWithoutSemicolonFails()
    ensures Parse([Reserved("let"), X, Eq, One]) == Err(SyntaxError(KindAndText(Delimiter, ";"), None))
  {
    var toks := [Reserved("let"), X, Eq, One];
    assert ParseExpression(toks, 3) == Ok(Parsed(Leaf(One), 4));
    assert ParseTerminated(toks, 3, ";") == Err(SyntaxError(KindAndText(Delimiter, ";"), None));
    assert ParseAssignment(toks, 0) == Err(SyntaxError(KindAndText(Delimiter, ";"), None));
    assert ParseDeclaration(toks, 0) == Err(SyntaxError(KindAndText(Delimiter, ";"), None));
  }

  /** The tree of `if (a) { let b = 2; }`. */
  const IfWithoutElse := Conditional(Leaf(A), Program([Assign(Assignment(B, Leaf(Two)))]), None)

  const IfTokens := [Reserved("if"), Punct("("), A, Punct(")"), Punct("{"),
                     Reserved("let"), B, Eq, Two, Punct(";"), Punct("}")]

  lemma {:induction false} IfWithoutElsePrints()
    ensures ProgramTokens(Program([IfWithoutElse])) == IfTokens
  {
    var body := Program([Assign(Assignment(B, Leaf(Two)))]);
    assert body.decls[1..] == [];
    assert DeclsTokens(body.decls) == AssignmentTokens(body.decls[0].assignment) + DeclsTokens([]);
    assert ProgramTokens(body) == [Reserved("let"), B, Eq, Two, Punct(";")];
    assert GuardTokens("if", Leaf(A)) == [Reserved("if"), Punct("("), A, Punct(")")];
    assert ElseTokens(None) == [];
    var p := Program([IfWithoutElse]);
    assert p.decls[1..] == [];
    assert DeclsTokens(p.decls) == ConditionalTokens(Leaf(A), body, None) + DeclsTokens([]);
  }

  lemma {:induction false} IfTokensLexed()
    ensures forall t :: t in IfTokens ==> WellFormed(t)
  {
    assert KeywordText(0) == "let" && KeywordText(1) == "if";
    forall i | 0 <= i < |IfTokens|
      ensures WellFormed(IfTokens[i])
    {
    }
  }

  /** `if (a) { let b = 2; }` is a conditional with a one-statement consequent and no
      alternative (trabajof.js:86-104). */
  lemma {:induction false} IfParses()
    ensures Parse(IfTokens) == Ok(Program([IfWithoutElse]))
  {
    var p := Program([IfWithoutElse]);
    IfWithoutElsePrints();
    IfTokensLexed();
    assert ValidDecl(p.decls[0]);
    RoundTrip(p);
  }

  /** The tree of `a+b-c`. */
  const LeftFold := Operation(Minus, Operation(Plus, Leaf(A), Leaf(B)), Leaf(C))

  lemma {:induction false} LeftFoldPrints()
    ensures ProgramTokens(Program([ExprStmt(LeftFold)])) == [A, Plus, B, Minus, C, Punct(";")]
  {
    var p := Program([ExprStmt(LeftFold)]);
    assert ExprTokens(LeftFold) == [A, Plus, B, Minus, C];
    assert p.decls[1..] == [];
    assert DeclsTokens(p.decls) == TerminatedTokens(LeftFold, ";") + DeclsTokens([]);
  }

  /** `a+b-c;` folds to the left (trabajof.js:161-168). */
  lemma {:induction false} FoldsLeft()
    ensures Parse([A, Plus, B, Minus, C, Punct(";")]) == Ok(Program([ExprStmt(LeftFold)]))
  {
    LeftFoldPrints();
    assert WellFormed(Plus) && WellFormed(Minus);
    RoundTrip(Program([ExprStmt(LeftFold)]));
  }

  /** Given the token sequence identifier `x`, operator `++`, `;`, the parser ends the
      expression at `x`, since `++` is not a binary operator, and then finds `++` where the
      `;` is expected (trabajof.js:163, 72-73). The lexer never hands the parser this
      sequence: it lexes the text `x++;` differently (`ProgramExamples.IncrementRejected`). */
  lemma {:induction false} IncrementEndsExpression()
    ensures Parse([X, Token(Operator, "++"), Punct(";")])
         == Err(SyntaxError(KindAndText(Delimiter, ";"), Some(Token(Operator, "++"))))
  {
    var toks := [X, Token(Operator, "++"), Punct(";")];
    assert !IsSimpleOperator("++");
    assert ParseExpression(toks, 0) == Ok(Parsed(Leaf(X), 1));
    assert ParseExprStmt(toks, 0) == Err(SyntaxError(KindAndText(Delimiter, ";"), Some(Token(Operator, "++"))));
    assert ParseDeclaration(toks, 0) == ParseExprStmt(toks, 0);
  }

  /** The tokens of `function f(a,b){ return; }`. */
  const ReturnInBody := [Reserved("function"), Token(Identifier, "f"), Punct("("), A, Punct(","), B, Punct(")"),
                         Punct("{"), Reserved("return"), Punct(";"), Punct("}")]

  /** `a,b)` reads as the parameters `a`, `b`, with the comma skipped (trabajof.js:147-154). */
  lemma {:induction false} ParamsWithComma()
    ensures ParseParamList(ReturnInBody, 3) == Ok(Parsed([A, B], 7))
  {
    var toks := ReturnInBody;
    assert ParseParams(toks, 6) == Ok(Parsed([], 6));
    assert SkipComma(toks, 6) == Ok(6);
    assert [B] + [] == [B];
    assert ParseParams(toks, 5) == Ok(Parsed([B], 6));
    assert SkipComma(toks, 4) == Ok(5);
    assert [A] + [B] == [A, B];
    assert ParseParams(toks, 3) == Ok(Parsed([A, B], 6));
  }

  /** `function f(a,b){ return; }`: the body is an expression statement whose first term
      is the keyword `return` (trabajof.js:143-159, 171-178). */
  lemma {:induction false} ReturnFails()
    ensures Parse(ReturnInBody) == Err(SyntaxError(Term, Some(Reserved("return"))))
  {
    var toks := ReturnInBody;
    assert ParseNamed(toks, 0, "function", "(") == Ok(Parsed(Token(Identifier, "f"), 3));
    ParamsWithComma();
    ReturnBodyFails();
    assert ParseFunction(toks, 0) == Err(SyntaxError(Term, Some(Reserved("return"))));
    assert ParseDeclaration(toks, 0) == Err(SyntaxError(Term, Some(Reserved("return"))));
  }

  /** The body `{ return; }` of `ReturnInBody` fails at `return`. */
  lemma {:induction false} ReturnBodyFails()
    ensures ParseBlock(ReturnInBody, 7) == Err(SyntaxError(Term, Some(Reserved("return"))))
  {
    var toks := ReturnInBody;
    UndispatchedKeywordFails(toks, 8);
    assert ParseProgram(toks, 8) == Err(SyntaxError(Term, Some(Reserved("return"))));
  }

  /** A `}` at the top level ends the program, and what follows is never read
      (trabajof.js:46, 190). */
  lemma {:induction false} StrayBraceIgnoresRest()
    ensures Parse([A, Punct(";"), Punct("}"), Punct(")")]) == Ok(Program([ExprStmt(Leaf(A))]))
  {
    var toks := [A, Punct(";"), Punct("}"), Punct(")")];
    assert ParseProgram(toks, 2) == Ok(Parsed(Program([]), 2));
    assert ParseExprStmt(toks, 0) == Ok(Parsed(ExprStmt(Leaf(A)), 2));
    assert ParseDeclaration(toks, 0) == Ok(Parsed(ExprStmt(Leaf(A)), 2));
    assert [ExprStmt(Leaf(A))] + [] == [ExprStmt(Leaf(A))];
  }

  /** No tokens: the empty program (trabajof.js:44-50). */
  lemma {:induction false} EmptyInput()
    ensures Parse([]) == Ok(Program([]))
  {
  }
}
