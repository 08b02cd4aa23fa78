/** What the declaration-level productions read: the tokens from the cursor to the cursor
    they return are, with the commas dropped, the printed tokens of the tree they build.
    The expression-level productions and the parameter lists state their reading exactly
    in their own contracts; these lemmas lift it through programs and blocks. */
module ParserSpans {
  import opened Wrappers
  import opened Tokens
  import opened Syntax
  import opened Parser
  import opened Reading

  /** `parsePrograma` (trabajof.js:44-50) reads its declarations one after the other. */
  lemma {:induction false} ProgramSpans(toks: seq<Token>, pos: nat)
    requires pos <= |toks| && ParseProgram(toks, pos).Ok?
    ensures var p := ParseProgram(toks, pos).value;
      Uncommas(toks[pos..p.next]) == ProgramTokens(p.node)
    decreases |toks| - pos, 3
  {
    if pos < |toks| && toks[pos].text != "}" {
      var d := ParseDeclaration(toks, pos).value;
      var rest := ParseProgram(toks, d.next).value;
      DeclarationSpans(toks, pos);
      ProgramSpans(toks, d.next);
      Glue(toks, pos, d.next, rest.next, DeclTokens(d.node), ProgramTokens(rest.node));
      DeclsCons(d.node, rest.node.decls);
    }
  }

  /** `parseDeclaracion` (trabajof.js:52-75) reads the declaration it returns, whichever
      production it dispatches to. */
  lemma {:induction false} DeclarationSpans(toks: seq<Token>, pos: nat)
    requires pos < |toks| && ParseDeclaration(toks, pos).Ok?
    ensures var p := ParseDeclaration(toks, pos).value;
      Uncommas(toks[pos..p.next]) == DeclTokens(p.node)
    decreases |toks| - pos, 2
  {
    var t := toks[pos];
    if t.kind == Keyword && t.text == "let" {
      LetSpans(toks, pos);
    } else if t.kind == Keyword && t.text == "if" {
      ConditionalSpans(toks, pos);
    } else if t.kind == Keyword && t.text == "while" {
      WhileSpans(toks, pos);
    } else if t.kind == Keyword && t.text == "for" {
      ForSpans(toks, pos);
    } else if t.kind == Keyword && t.text == "class" {
      ClassSpans(toks, pos);
    } else if t.kind == Keyword && t.text == "function" {
      FunctionSpans(toks, pos);
    } else {
      ExprStmtSpans(toks, pos);
    }
  }

  /** An assignment declaration reads exactly its tokens, which hold no comma. */
  lemma {:induction false} LetSpans(toks: seq<Token>, pos: nat)
    requires pos <= |toks| && ParseLet(toks, pos).Ok?
    ensures var p := ParseLet(toks, pos).value;
      Uncommas(toks[pos..p.next]) == DeclTokens(p.node)
  {
    var a := ParseAssignment(toks, pos).value;
    AssignmentCommaFree(a.node);
    UncommasFree(toks[pos..a.next]);
  }

  /** An expression statement reads exactly its tokens, which hold no comma. */
  lemma {:induction false} ExprStmtSpans(toks: seq<Token>, pos: nat)
    requires pos <= |toks| && ParseExprStmt(toks, pos).Ok?
    ensures var p := ParseExprStmt(toks, pos).value;
      Uncommas(toks[pos..p.next]) == DeclTokens(p.node)
  {
    var e := ParseExprStmt(toks, pos).value;
    TerminatedCommaFree(e.node.expr, ";");
    UncommasFree(toks[pos..e.next]);
  }

  /** A block reads `{`, its program and `}`. */
  lemma {:induction false} BlockSpans(toks: seq<Token>, pos: nat)
    requires pos <= |toks| && ParseBlock(toks, pos).Ok?
    ensures var p := ParseBlock(toks, pos).value;
      Uncommas(toks[pos..p.next]) == BlockTokens(p.node)
    decreases |toks| - pos, 4
  {
    ProgramSpans(toks, pos + 1);
    var body := ParseProgram(toks, pos + 1).value;
    assert body.next < |toks| && toks[body.next] == Punct("}");
    BlockGlue(toks, pos, body.next, body.node);
  }

  /** `parseCondicional` (trabajof.js:86-104) reads its guard, its block and its optional
      `else`. */
  lemma {:induction false} ConditionalSpans(toks: seq<Token>, pos: nat)
    requires pos <= |toks| && ParseConditional(toks, pos).Ok?
    ensures var p := ParseConditional(toks, pos).value;
      Uncommas(toks[pos..p.next]) == DeclTokens(p.node)
    decreases |toks| - pos, 0
  {
    var g := ParseGuard(toks, pos, "if").value;
    BlockSpans(toks, g.next);
    var k := ParseBlock(toks, g.next).value;
    ElseSpans(toks, k.next);
    var e := ParseElse(toks, k.next).value;
    ConditionalGlue(toks, pos, g.next, k.next, e.next, g.node, k.node, e.node);
  }

  lemma {:induction false} ElseSpans(toks: seq<Token>, pos: nat)
    requires pos <= |toks| && ParseElse(toks, pos).Ok?
    ensures var p := ParseElse(toks, pos).value;
      Uncommas(toks[pos..p.next]) == ElseTokens(p.node)
    decreases |toks| - pos, 5
  {
    if pos < |toks| && toks[pos].kind == Keyword && toks[pos].text == "else" {
      BlockSpans(toks, pos + 1);
      var b := ParseBlock(toks, pos + 1).value;
      Lead(toks, pos, b.next, Reserved("else"), BlockTokens(b.node));
    }
  }

  /** `parseWhile` (trabajof.js:106-115) reads its guard and its block. */
  lemma {:induction false} WhileSpans(toks: seq<Token>, pos: nat)
    requires pos <= |toks| && ParseWhile(toks, pos).Ok?
    ensures var p := ParseWhile(toks, pos).value;
      Uncommas(toks[pos..p.next]) == DeclTokens(p.node)
    decreases |toks| - pos, 0
  {
    var g := ParseGuard(toks, pos, "while").value;
    BlockSpans(toks, g.next);
    var b := ParseBlock(toks, g.next).value;
    TerminatedCommaFree(g.node, ")");
    ExactGlue(toks, pos, g.next, b.next, GuardTokens("while", g.node), BlockTokens(b.node));
  }

  /** `parseFor` (trabajof.js:117-129) reads its initialiser, its condition, its update and
      its block. */
  lemma {:induction false} ForSpans(toks: seq<Token>, pos: nat)
    requires pos <= |toks| && ParseFor(toks, pos).Ok?
    ensures var p := ParseFor(toks, pos).value;
      Uncommas(toks[pos..p.next]) == DeclTokens(p.node)
    decreases |toks| - pos, 0
  {
    var head := ParseForHead(toks, pos).value;
    BlockSpans(toks, head.next);
    var body := ParseBlock(toks, head.next).value;
    ForGlue(toks, pos, head.next, body.next, head.node.init, head.node.cond, head.node.update, body.node);
  }

  /** `parseClass` (trabajof.js:131-141) reads its head, its methods and the `}`. */
  lemma {:induction false} ClassSpans(toks: seq<Token>, pos: nat)
    requires pos <= |toks| && ParseClass(toks, pos).Ok?
    ensures var p := ParseClass(toks, pos).value;
      Uncommas(toks[pos..p.next]) == DeclTokens(p.node)
    decreases |toks| - pos, 0
  {
    var name := ParseNamed(toks, pos, "class", "{").value;
    MethodsSpans(toks, name.next);
    var ms := ParseMethods(toks, name.next).value;
    var p := ParseClass(toks, pos).value;
    ClassGlue(toks, pos, name.next, ms.next, name.node, ms.node, p.node);
  }

  lemma {:induction false} MethodsSpans(toks: seq<Token>, pos: nat)
    requires pos <= |toks| && ParseMethods(toks, pos).Ok?
    ensures var p := ParseMethods(toks, pos).value;
      Uncommas(toks[pos..p.next]) == MethodsTokens(p.node)
    decreases |toks| - pos, 1
  {
    if pos < |toks| && toks[pos].text != "}" {
      var f := ParseFunction(toks, pos).value;
      var rest := ParseMethods(toks, f.next).value;
      FunctionSpans(toks, pos);
      MethodsSpans(toks, f.next);
      Glue(toks, pos, f.next, rest.next, FunctionTokens(f.node), MethodsTokens(rest.node));
      MethodsCons(f.node, rest.node);
    }
  }

  /** `parseFunction` (trabajof.js:143-159) reads its head, its parameter list and its
      block. */
  lemma {:induction false} FunctionSpans(toks: seq<Token>, pos: nat)
    requires pos <= |toks| && ParseFunction(toks, pos).Ok?
    ensures var p := ParseFunction(toks, pos).value;
      Uncommas(toks[pos..p.next]) == FunctionTokens(p.node)
    decreases |toks| - pos, 0
  {
    var name := ParseNamed(toks, pos, "function", "(").value;
    var params := ParseParamList(toks, name.next).value;
    ParamListSpans(toks, name.next);
    BlockSpans(toks, params.next);
    var body := ParseBlock(toks, params.next).value;
    var head := NamedTokens("function", name.node, "(");
    ExactGlue(toks, pos, name.next, params.next, head, ParamListTokens(params.node));
    Glue(toks, pos, params.next, body.next, head + ParamListTokens(params.node), BlockTokens(body.node));
  }

  /** The parameters and the `)`, commas dropped, are the parameters kept and the `)`. */
  lemma {:induction false} ParamListSpans(toks: seq<Token>, pos: nat)
    requires pos <= |toks| && ParseParamList(toks, pos).Ok?
    ensures var p := ParseParamList(toks, pos).value;
      Uncommas(toks[pos..p.next]) == ParamListTokens(p.node)
  {
    var params := ParseParams(toks, pos).value;
    CommaSeparatedUncommas(toks[pos..params.next], params.node);
    Trail(toks, pos, params.next, params.node, Punct(")"));
  }

  /** `analizarSintaxis` (trabajof.js:41-191): a successful parse has read, commas dropped,
      the printed tokens of the program it returns, from the first token up to the end of
      the tokens or up to a `}` token. */
  lemma {:induction false} ParseSpans(toks: seq<Token>)
    requires Parse(toks).Ok?
    ensures exists q :: 0 <= q <= |toks| && Uncommas(toks[..q]) == ProgramTokens(Parse(toks).value)
                        && (q == |toks| || toks[q].text == "}")
  {
    ProgramSpans(toks, 0);
    var q := ParseProgram(toks, 0).value.next;
    assert toks[..q] == toks[0..q];
  }
}
