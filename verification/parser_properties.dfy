/** Properties of the expression parser and of declaration dispatch: expressions are
    exactly the left folds of terms and binary operators, read up to the first token that
    does not continue them. */
module ParserProperties {
  import opened Wrappers
  import opened Tokens
  import opened Syntax
  import opened Parser
  import opened Layout

  /** A left fold starts with a term: its leftmost leaf. */
  lemma {:induction false} LeftFoldStartsWithTerm(e: Expr)
    requires IsLeftFold(e)
    ensures |ExprTokens(e)| > 0 && IsTerm(ExprTokens(e)[0])
  {
    match e
    case Leaf(_) =>
    case Operation(_, l, r) =>
      LeftFoldStartsWithTerm(l);
      assert ExprTokens(e)[0] == ExprTokens(l)[0];
  }

  /** Reading the tokens of a left fold `e` from its first term on builds `e` one
      (operator, term) pair at a time. */
  lemma {:induction false} ExprTailReads(e: Expr, toks: seq<Token>, pos: nat, q: nat)
    requires IsLeftFold(e) && HasAt(toks, pos, ExprTokens(e)) && q == pos + |ExprTokens(e)|
    ensures ParseExprTail(toks, pos + 1, Leaf(toks[pos])) == ParseExprTail(toks, q, e)
    decreases e
  {
    LeftFoldStartsWithTerm(e);
    match e
    case Leaf(t) =>
      Head(toks, pos, ExprTokens(e));
    case Operation(op, l, r) =>
      var m := pos + |ExprTokens(l)|;
      assert ExprTokens(e) == ExprTokens(l) + [op, r.token];
      Split(toks, pos, ExprTokens(l), [op, r.token]);
      ExprTailReads(l, toks, pos, m);
      Heads2(toks, m, op, r.token);
      ExprTailStep(toks, m, l, e, q);
  }

  /** One turn of the operator loop: an operator and a term grow the tree by one node. */
  lemma {:induction false} ExprTailStep(toks: seq<Token>, m: nat, acc: Expr, grown: Expr, q: nat)
    requires q == m + 2 <= |toks| && IsBinaryOp(toks[m]) && IsTerm(toks[m + 1])
    requires grown == Operation(toks[m], acc, Leaf(toks[m + 1]))
    ensures ParseExprTail(toks, m, acc) == ParseExprTail(toks, q, grown)
  {
  }

  /** The tokens of a left fold, followed by anything that is not a binary operator, parse
      back to that fold. */
  lemma {:induction false} ExpressionReads(e: Expr, toks: seq<Token>, pos: nat)
    requires IsLeftFold(e) && HasAt(toks, pos, ExprTokens(e))
    requires var q := pos + |ExprTokens(e)|; q == |toks| || !IsBinaryOp(toks[q])
    ensures ParseExpression(toks, pos) == Ok(Parsed(e, pos + |ExprTokens(e)|))
  {
    var q := pos + |ExprTokens(e)|;
    LeftFoldStartsWithTerm(e);
    Head(toks, pos, ExprTokens(e));
    assert ParseTerm(toks, pos) == Ok(Parsed(toks[pos], pos + 1));
    ExprTailReads(e, toks, pos, q);
    assert ParseExprTail(toks, q, e) == Ok(Parsed(e, q));
  }

  /** `parseExpresion` (trabajof.js:161-169) succeeds with `e`, stopping at `q`, exactly
      when `e` is a left fold of terms and binary operators, its tokens are those from
      `pos` up to `q`, and the token at `q`, if any, is not a binary operator. */
  lemma {:induction false} ExpressionIff(toks: seq<Token>, pos: nat, e: Expr, q: nat)
    requires pos <= |toks|
    ensures ParseExpression(toks, pos) == Ok(Parsed(e, q))
        <==> IsLeftFold(e) && pos <= q <= |toks| && toks[pos..q] == ExprTokens(e)
             && (q == |toks| || !IsBinaryOp(toks[q]))
  {
    if IsLeftFold(e) && pos <= q <= |toks| && toks[pos..q] == ExprTokens(e)
       && (q == |toks| || !IsBinaryOp(toks[q])) {
      HasAtIff(toks, pos, ExprTokens(e));
      ExpressionReads(e, toks, pos);
    }
  }

  /** A keyword that `parseDeclaracion` (trabajof.js:52-75) does not dispatch on, such as
      `return`, falls through to the expression statement and is rejected by
      `parseTermino` (trabajof.js:171-179) as the first term. */
  lemma {:induction false} UndispatchedKeywordFails(toks: seq<Token>, pos: nat)
    requires pos < |toks| && toks[pos].kind == Keyword && !IsStatementKeyword(toks[pos])
    ensures ParseDeclaration(toks, pos) == Err(SyntaxError(Term, Some(toks[pos])))
  {
    assert ParseExpression(toks, pos) == Err(SyntaxError(Term, Some(toks[pos])));
    assert ParseExprStmt(toks, pos) == Err(SyntaxError(Term, Some(toks[pos])));
  }

  /** `parsePrograma` (trabajof.js:44-50) returns the empty program without moving exactly
      when the cursor is at the end of the tokens or on a `}` token. */
  lemma {:induction false} EmptyProgramIff(toks: seq<Token>, pos: nat)
    requires pos <= |toks|
    ensures ParseProgram(toks, pos) == Ok(Parsed(Program([]), pos))
        <==> pos == |toks| || toks[pos].text == "}"
  {
    if pos < |toks| && toks[pos].text != "}" {
      var r := ParseProgram(toks, pos);
      if r.Ok? {
        assert |r.value.node.decls| > 0;
      }
    }
  }

  /** Once the expression is read and the closer follows it, the terminated form is read. */
  lemma {:induction false} TerminatedStep(toks: seq<Token>, pos: nat, closer: string, e: Expr, n: nat)
    requires pos <= |toks| && ParseExpression(toks, pos) == Ok(Parsed(e, n))
    requires n < |toks| && toks[n] == Punct(closer)
    ensures ParseTerminated(toks, pos, closer) == Ok(Parsed(e, n + 1))
  {
    ConsumePunct(toks, n, closer);
  }

  /** A delimiter with the expected text is consumed and returned. */
  lemma {:induction false} ConsumePunct(toks: seq<Token>, i: nat, c: string)
    requires i < |toks| && toks[i] == Punct(c)
    ensures Consume(toks, i, Delimiter, Some(c)) == Ok(Parsed(toks[i], i + 1))
  {
  }

  /** A read terminated form is a read expression with the closer right after it. */
  lemma {:induction false} TerminatedUnfold(toks: seq<Token>, pos: nat, closer: string)
    requires pos <= |toks| && ParseTerminated(toks, pos, closer).Ok?
    ensures ParseExpression(toks, pos).Ok?
    ensures var e := ParseExpression(toks, pos).value;
      e.next < |toks| && toks[e.next] == Punct(closer)
      && ParseTerminated(toks, pos, closer) == Ok(Parsed(e.node, e.next + 1))
  {
  }
}
