/** The recursive-descent parser `analizarSintaxis` (trabajof.js:41-191). The shared
    cursor becomes an explicit position: every production takes the token list and the
    cursor, and returns the node it built with the cursor after it. A thrown error, and
    the `TypeError` raised by reading `tokens[cursor]` past the end, both become `Err`. */
module Parser {
  import opened Wrappers
  import opened Tokens
  import opened Syntax
  import opened Layout
  import opened Reading

  /** The expectation `consumir(tipo, valor)` reports when it fails. */
  function Expect(kind: Class, text: Option<string>): Expected {
    if text.Some? then KindAndText(kind, text.value) else Kind(kind)
  }

  /** The token at the cursor, if there is one. */
  function At(toks: seq<Token>, pos: nat): Option<Token> {
    if pos < |toks| then Some(toks[pos]) else None
  }

  /** `consumir` (trabajof.js:181-188): the only step that moves the cursor. */
  function Consume(toks: seq<Token>, pos: nat, kind: Class, text: Option<string>): (r: Result<Parsed<Token>, SyntaxError>)
    ensures r.Ok? <==> pos < |toks| && toks[pos].kind == kind && (text.Some? ==> toks[pos].text == text.value)
    ensures r.Ok? ==> r.value == Parsed(toks[pos], pos + 1)
    ensures r.Err? ==> r.error == SyntaxError(Expect(kind, text), At(toks, pos))
  {
    if pos >= |toks| then Err(SyntaxError(Expect(kind, text), None))
    else if toks[pos].kind != kind || (text.Some? && toks[pos].text != text.value) then
      Err(SyntaxError(Expect(kind, text), Some(toks[pos])))
    else Ok(Parsed(toks[pos], pos + 1))
  }

  /** `parseTermino` (trabajof.js:171-179): an identifier or a constant token, as is. */
  function ParseTerm(toks: seq<Token>, pos: nat): (r: Result<Parsed<Token>, SyntaxError>)
    ensures r.Ok? <==> pos < |toks| && IsTerm(toks[pos])
    ensures r.Ok? ==> r.value == Parsed(toks[pos], pos + 1)
    ensures r.Err? ==> r.error == SyntaxError(Term, At(toks, pos))
  {
    if pos >= |toks| then Err(SyntaxError(Term, None))
    else if toks[pos].kind == Identifier then Consume(toks, pos, Identifier, None)
    else if toks[pos].kind == Constant then Consume(toks, pos, Constant, None)
    else Err(SyntaxError(Term, Some(toks[pos])))
  }

  /** Reading `toks` from `pos` up to `next` after the fold `acc` leaves the fold `e`: the
      tokens of `e` are those of `acc`, then the tokens read. */
  predicate Grows(toks: seq<Token>, pos: int, next: int, acc: Expr, e: Expr) {
    0 <= pos <= next <= |toks| && ExprTokens(e) == ExprTokens(acc) + toks[pos..next]
  }

  /** The loop of `parseExpresion` (trabajof.js:163-167) with `acc` the tree so far: while
      the cursor is on a binary operator, take it and the term after it. */
  function ParseExprTail(toks: seq<Token>, pos: nat, acc: Expr): (r: Result<Parsed<Expr>, SyntaxError>)
    requires pos <= |toks|
    decreases |toks| - pos
    ensures r.Ok? ==> pos <= r.value.next <= |toks|
    ensures r.Ok? ==> r.value.next == |toks| || !IsBinaryOp(toks[r.value.next])
    ensures r.Ok? && IsLeftFold(acc) ==> IsLeftFold(r.value.node)
    ensures r.Ok? ==> Grows(toks, pos, r.value.next, acc, r.value.node)
    ensures r.Err? ==> r.error.expected == Term
  {
    if pos < |toks| && toks[pos].kind == Operator && IsSimpleOperator(toks[pos].text) then
      var op := Consume(toks, pos, Operator, None).value;
      match ParseTerm(toks, op.next)
      case Err(err) => Err(err)
      case Ok(t) =>
      match ParseExprTail(toks, t.next, Operation(op.node, acc, Leaf(t.node)))
      case Err(err) => Err(err)
      case Ok(rest) =>
      assert ExprTokens(Operation(op.node, acc, Leaf(t.node))) == ExprTokens(acc) + [op.node] + [t.node];
      SliceCons2(toks, pos, rest.next);
      Regroup(ExprTokens(acc), op.node, t.node, toks[t.next..rest.next]);
      Ok(rest)
    else Ok(Parsed(acc, pos))
  }

  /** `parseExpresion` (trabajof.js:161-169). */
  function ParseExpression(toks: seq<Token>, pos: nat): (r: Result<Parsed<Expr>, SyntaxError>)
    requires pos <= |toks|
    ensures r.Ok? ==> pos < r.value.next <= |toks|
    ensures r.Ok? ==> r.value.next == |toks| || !IsBinaryOp(toks[r.value.next])
    ensures r.Ok? ==> IsTerm(toks[pos]) && IsLeftFold(r.value.node)
    ensures r.Ok? ==> Spans(toks, pos, r.value.next, ExprTokens(r.value.node))
    ensures r.Err? ==> r.error.expected == Term
  {
    match ParseTerm(toks, pos)
    case Err(err) => Err(err)
    case Ok(t) =>
    match ParseExprTail(toks, t.next, Leaf(t.node))
    case Err(err) => Err(err)
    case Ok(e) =>
    SliceCons(toks, pos, e.next);
    Ok(e)
  }

  /** An expression and the delimiter `closer` after it: the tail shared by `parseAsignacion`,
      the expression statement, the guards of `if` and `while`, and both halves of the
      `for` control. */
  function ParseTerminated(toks: seq<Token>, pos: nat, closer: string): (r: Result<Parsed<Expr>, SyntaxError>)
    requires pos <= |toks|
    ensures r.Ok? ==> pos < r.value.next <= |toks| && IsTerm(toks[pos]) && IsLeftFold(r.value.node)
    ensures r.Ok? ==> toks[r.value.next - 1] == Punct(closer)
    ensures r.Ok? ==> Spans(toks, pos, r.value.next, TerminatedTokens(r.value.node, closer))
  {
    match ParseExpression(toks, pos)
    case Err(err) => Err(err)
    case Ok(e) =>
    match Consume(toks, e.next, Delimiter, Some(closer))
    case Err(err) => Err(err)
    case Ok(close) =>
    SliceSnoc(toks, pos, e.next);
    Ok(Parsed(e.node, close.next))
  }

  /** `parseAsignacion` (trabajof.js:77-84). */
  function ParseAssignment(toks: seq<Token>, pos: nat): (r: Result<Parsed<Assignment>, SyntaxError>)
    requires pos <= |toks|
    ensures r.Ok? ==> pos < r.value.next <= |toks| && ValidAssignment(r.value.node)
    ensures r.Ok? ==> toks[pos] == Reserved("let") && toks[r.value.next - 1] == Punct(";")
    ensures r.Ok? ==> Spans(toks, pos, r.value.next, AssignmentTokens(r.value.node))
  {
    match Consume(toks, pos, Keyword, Some("let"))
    case Err(err) => Err(err)
    case Ok(kw) =>
    match Consume(toks, kw.next, Identifier, None)
    case Err(err) => Err(err)
    case Ok(name) =>
    match Consume(toks, name.next, Operator, Some("="))
    case Err(err) => Err(err)
    case Ok(eq) =>
    match ParseTerminated(toks, eq.next, ";")
    case Err(err) => Err(err)
    case Ok(value) =>
    SliceCons3(toks, pos, value.next);
    Ok(Parsed(Assignment(name.node, value.node), value.next))
  }

  /** The parameter loop of `parseFunction` (trabajof.js:148-153): identifiers up to a
      `)` token, each optionally followed by a comma. */
  function ParseParams(toks: seq<Token>, pos: nat): (r: Result<Parsed<seq<Token>>, SyntaxError>)
    requires pos <= |toks|
    decreases |toks| - pos
    ensures r.Ok? ==> pos <= r.value.next <= |toks| && |r.value.node| <= r.value.next - pos
    ensures r.Ok? ==> r.value.next == |toks| || toks[r.value.next].text == ")"
    ensures r.Ok? ==> forall i :: 0 <= i < |r.value.node| ==> r.value.node[i].kind == Identifier
    ensures r.Ok? ==> ParamsAt(toks, pos, r.value.next, r.value.node)
  {
    if pos < |toks| && toks[pos].text != ")" then
      match Consume(toks, pos, Identifier, None)
      case Err(err) => Err(err)
      case Ok(param) =>
      match SkipComma(toks, param.next)
      case Err(err) => Err(err)
      case Ok(after) =>
      match ParseParams(toks, after)
      case Err(err) => Err(err)
      case Ok(rest) =>
      ParamsGlue(toks, pos, after, rest.next, param.node, rest.node);
      Ok(Parsed([param.node] + rest.node, rest.next))
    else Ok(Parsed([], pos))
  }

  /** The optional comma after a parameter (trabajof.js:150-152). The check reads the
      token at the cursor unguarded, so a parameter list cut off after a parameter is the
      `TypeError` case. */
  function SkipComma(toks: seq<Token>, pos: nat): (r: Result<nat, SyntaxError>)
    ensures r.Ok? <==> pos < |toks| && (toks[pos].text == "," ==> toks[pos] == Punct(","))
    ensures r.Ok? ==> r.value == if toks[pos] == Punct(",") then pos + 1 else pos
    ensures r.Err? ==> r.error == if pos < |toks| then SyntaxError(KindAndText(Delimiter, ","), Some(toks[pos]))
                                  else SyntaxError(AnyToken, None)
  {
    if pos >= |toks| then Err(SyntaxError(AnyToken, None))
    else if toks[pos].text == "," then
      match Consume(toks, pos, Delimiter, Some(","))
      case Err(err) => Err(err)
      case Ok(comma) => Ok(comma.next)
    else Ok(pos)
  }

  /** The declarations that open with a dispatching keyword (trabajof.js:53-70). */
  predicate IsStatementKeyword(t: Token) {
    t.kind == Keyword && t.text in {"let", "if", "while", "for", "class", "function"}
  }

  /** The token a declaration of each form begins with. */
  predicate Opens(d: Decl, t: Token) {
    match d
    case Assign(_) => t == Reserved("let")
    case Conditional(_, _, _) => t == Reserved("if")
    case While(_, _) => t == Reserved("while")
    case For(_, _, _, _) => t == Reserved("for")
    case ClassDecl(_, _) => t == Reserved("class")
    case FunctionDecl(_) => t == Reserved("function")
    case ExprStmt(_) => IsTerm(t)
  }

  /** The token a declaration of each form ends with. */
  function Closer(d: Decl): Token {
    if d.Assign? || d.ExprStmt? then Punct(";") else Punct("}")
  }

  /** `parsePrograma` (trabajof.js:44-50): declarations up to the end of the tokens or up
      to a `}` token, which is left for the caller. */
  function ParseProgram(toks: seq<Token>, pos: nat): (r: Result<Parsed<Program>, SyntaxError>)
    requires pos <= |toks|
    decreases |toks| - pos, 3
    ensures r.Ok? ==> pos <= r.value.next <= |toks| && ValidProgram(r.value.node)
    ensures r.Ok? ==> r.value.next == |toks| || toks[r.value.next].text == "}"
    ensures r.Ok? ==> (r.value.node.decls == [] <==> r.value.next == pos)
  {
    if pos < |toks| && toks[pos].text != "}" then
      match ParseDeclaration(toks, pos)
      case Err(err) => Err(err)
      case Ok(d) =>
      match ParseProgram(toks, d.next)
      case Err(err) => Err(err)
      case Ok(rest) =>
      Ok(Parsed(Program([d.node] + rest.node.decls), rest.next))
    else Ok(Parsed(Program([]), pos))
  }

  /** A declaration parsed from `pos` up to `p.next`: its shape, the token it opens with
      at `pos` and the token it closes with just before `p.next`. */
  predicate DeclSpan(toks: seq<Token>, pos: nat, p: Parsed<Decl>) {
    pos < p.next <= |toks| && ValidDecl(p.node) && Opens(p.node, toks[pos]) && toks[p.next - 1] == Closer(p.node)
  }

  /** `parseDeclaracion` (trabajof.js:52-75): dispatch on the six statement keywords;
      anything else is an expression statement. */
  function ParseDeclaration(toks: seq<Token>, pos: nat): (r: Result<Parsed<Decl>, SyntaxError>)
    requires pos < |toks|
    decreases |toks| - pos, 2
    ensures r.Ok? ==> DeclSpan(toks, pos, r.value)
  {
    var t := toks[pos];
    if t.kind == Keyword && t.text == "let" then ParseLet(toks, pos)
    else if t.kind == Keyword && t.text == "if" then ParseConditional(toks, pos)
    else if t.kind == Keyword && t.text == "while" then ParseWhile(toks, pos)
    else if t.kind == Keyword && t.text == "for" then ParseFor(toks, pos)
    else if t.kind == Keyword && t.text == "class" then ParseClass(toks, pos)
    else if t.kind == Keyword && t.text == "function" then ParseFunctionDecl(toks, pos)
    else ParseExprStmt(toks, pos)
  }

  /** The `let` branch of `parseDeclaracion` (trabajof.js:53-55). */
  function ParseLet(toks: seq<Token>, pos: nat): (r: Result<Parsed<Decl>, SyntaxError>)
    requires pos <= |toks|
    ensures r.Ok? ==> DeclSpan(toks, pos, r.value) && r.value.node.Assign?
  {
    match ParseAssignment(toks, pos)
    case Err(err) => Err(err)
    case Ok(a) =>
    Ok(Parsed(Assign(a.node), a.next))
  }

  /** The `function` branch of `parseDeclaracion` (trabajof.js:68-70). */
  function ParseFunctionDecl(toks: seq<Token>, pos: nat): (r: Result<Parsed<Decl>, SyntaxError>)
    requires pos <= |toks|
    decreases |toks| - pos, 1
    ensures r.Ok? ==> DeclSpan(toks, pos, r.value) && r.value.node.FunctionDecl?
  {
    match ParseFunction(toks, pos)
    case Err(err) => Err(err)
    case Ok(f) =>
    Ok(Parsed(FunctionDecl(f.node), f.next))
  }

  /** The fallback of `parseDeclaracion` (trabajof.js:71-74): an expression and a `;`. */
  function ParseExprStmt(toks: seq<Token>, pos: nat): (r: Result<Parsed<Decl>, SyntaxError>)
    requires pos <= |toks|
    ensures r.Ok? ==> DeclSpan(toks, pos, r.value) && r.value.node.ExprStmt?
    ensures r.Ok? ==> Spans(toks, pos, r.value.next, TerminatedTokens(r.value.node.expr, ";"))
  {
    match ParseTerminated(toks, pos, ";")
    case Err(err) => Err(err)
    case Ok(e) =>
    Ok(Parsed(ExprStmt(e.node), e.next))
  }

  /** `{`, a program, `}`: the block shared by every compound statement. */
  function ParseBlock(toks: seq<Token>, pos: nat): (r: Result<Parsed<Program>, SyntaxError>)
    requires pos <= |toks|
    decreases |toks| - pos, 4
    ensures r.Ok? ==> pos < r.value.next <= |toks| && ValidProgram(r.value.node)
    ensures r.Ok? ==> toks[pos] == Punct("{") && toks[r.value.next - 1] == Punct("}")
  {
    match Consume(toks, pos, Delimiter, Some("{"))
    case Err(err) => Err(err)
    case Ok(open) =>
    match ParseProgram(toks, open.next)
    case Err(err) => Err(err)
    case Ok(body) =>
    match Consume(toks, body.next, Delimiter, Some("}"))
    case Err(err) => Err(err)
    case Ok(close) =>
    Ok(Parsed(body.node, close.next))
  }

  /** `parseCondicional` (trabajof.js:86-104). */
  function ParseConditional(toks: seq<Token>, pos: nat): (r: Result<Parsed<Decl>, SyntaxError>)
    requires pos <= |toks|
    decreases |toks| - pos, 0
    ensures r.Ok? ==> DeclSpan(toks, pos, r.value) && r.value.node.Conditional?
  {
    match ParseGuard(toks, pos, "if")
    case Err(err) => Err(err)
    case Ok(cond) =>
    match ParseBlock(toks, cond.next)
    case Err(err) => Err(err)
    case Ok(consequent) =>
    match ParseElse(toks, consequent.next)
    case Err(err) => Err(err)
    case Ok(alternative) =>
    Ok(Parsed(Conditional(cond.node, consequent.node, alternative.node), alternative.next))
  }

  /** `word ( expression )`, the head of `if` and `while`. */
  function ParseGuard(toks: seq<Token>, pos: nat, word: string): (r: Result<Parsed<Expr>, SyntaxError>)
    requires pos <= |toks|
    ensures r.Ok? ==> pos < r.value.next <= |toks| && IsLeftFold(r.value.node)
    ensures r.Ok? ==> toks[pos] == Reserved(word)
    ensures r.Ok? ==> Spans(toks, pos, r.value.next, GuardTokens(word, r.value.node))
  {
    match Consume(toks, pos, Keyword, Some(word))
    case Err(err) => Err(err)
    case Ok(kw) =>
    match Consume(toks, kw.next, Delimiter, Some("("))
    case Err(err) => Err(err)
    case Ok(open) =>
    match ParseTerminated(toks, open.next, ")")
    case Err(err) => Err(err)
    case Ok(c) =>
    SliceCons2(toks, pos, c.next);
    Ok(c)
  }

  /** The optional `else { ... }` (trabajof.js:96-101). */
  function ParseElse(toks: seq<Token>, pos: nat): (r: Result<Parsed<Option<Program>>, SyntaxError>)
    requires pos <= |toks|
    decreases |toks| - pos, 5
    ensures r.Ok? ==> pos <= r.value.next <= |toks| && (r.value.node.Some? ==> ValidProgram(r.value.node.value))
    ensures r.Ok? ==> (r.value.node.Some? <==> r.value.next > pos)
    ensures r.Ok? ==> (r.value.node.Some? <==> pos < |toks| && toks[pos].kind == Keyword && toks[pos].text == "else")
    ensures r.Ok? && r.value.node.Some? ==> toks[pos] == Reserved("else") && toks[r.value.next - 1] == Punct("}")
  {
    if pos < |toks| && toks[pos].kind == Keyword && toks[pos].text == "else" then
      var els := Consume(toks, pos, Keyword, Some("else")).value;
      match ParseBlock(toks, els.next)
      case Err(err) => Err(err)
      case Ok(alternative) =>
      Ok(Parsed(Some(alternative.node), alternative.next))
    else Ok(Parsed(None, pos))
  }

  /** `parseWhile` (trabajof.js:106-115). */
  function ParseWhile(toks: seq<Token>, pos: nat): (r: Result<Parsed<Decl>, SyntaxError>)
    requires pos <= |toks|
    decreases |toks| - pos, 0
    ensures r.Ok? ==> DeclSpan(toks, pos, r.value) && r.value.node.While?
  {
    match ParseGuard(toks, pos, "while")
    case Err(err) => Err(err)
    case Ok(cond) =>
    match ParseBlock(toks, cond.next)
    case Err(err) => Err(err)
    case Ok(body) =>
    Ok(Parsed(While(cond.node, body.node), body.next))
  }

  /** `parseFor` (trabajof.js:117-129): the head, then the block. */
  function ParseFor(toks: seq<Token>, pos: nat): (r: Result<Parsed<Decl>, SyntaxError>)
    requires pos <= |toks|
    decreases |toks| - pos, 0
    ensures r.Ok? ==> DeclSpan(toks, pos, r.value) && r.value.node.For?
  {
    match ParseForHead(toks, pos)
    case Err(err) => Err(err)
    case Ok(head) =>
    match ParseBlock(toks, head.next)
    case Err(err) => Err(err)
    case Ok(body) =>
    ForSpan(toks, pos, head, body);
    Ok(Parsed(For(head.node.init, head.node.cond, head.node.update, body.node), body.next))
  }

  /** A `for` head followed by a block spans a `for` declaration. */
  lemma {:induction false} ForSpan(toks: seq<Token>, pos: nat, head: Parsed<ForHead>, body: Parsed<Program>)
    requires pos < head.next < body.next <= |toks| && toks[pos] == Reserved("for") && ValidForHead(head.node)
    requires ValidProgram(body.node) && toks[body.next - 1] == Punct("}")
    ensures DeclSpan(toks, pos, Parsed(For(head.node.init, head.node.cond, head.node.update, body.node), body.next))
  {
  }

  /** The head of `parseFor` (trabajof.js:118-124): the initialiser, which consumes the
      first `;` itself, then the condition and the update. */
  function ParseForHead(toks: seq<Token>, pos: nat): (r: Result<Parsed<ForHead>, SyntaxError>)
    requires pos <= |toks|
    ensures r.Ok? ==> pos < r.value.next <= |toks| && ValidForHead(r.value.node)
    ensures r.Ok? ==> toks[pos] == Reserved("for")
    ensures r.Ok? ==> Spans(toks, pos, r.value.next, ForHeadTokens(r.value.node))
  {
    match ParseForInit(toks, pos)
    case Err(err) => Err(err)
    case Ok(init) =>
    match ParseForSteps(toks, init.next)
    case Err(err) => Err(err)
    case Ok(steps) =>
    SliceJoin(toks, pos, init.next, steps.next);
    Ok(Parsed(ForHead(init.node, steps.node.cond, steps.node.update), steps.next))
  }

  predicate ValidForHead(h: ForHead) {
    ValidAssignment(h.init) && IsLeftFold(h.cond) && IsLeftFold(h.update)
  }

  /** The tokens of a `for` head. */
  function ForHeadTokens(h: ForHead): seq<Token> {
    ForInitTokens(h.init) + ForStepTokens(h.cond, h.update)
  }

  /** The tokens of a `for` condition with its `;` and an update with its `)`. */
  function ForStepTokens(c: Expr, u: Expr): seq<Token> {
    TerminatedTokens(c, ";") + TerminatedTokens(u, ")")
  }

  /** The condition up to `;` and the update up to `)` (trabajof.js:121-124). */
  function ParseForSteps(toks: seq<Token>, pos: nat): (r: Result<Parsed<ForSteps>, SyntaxError>)
    requires pos <= |toks|
    ensures r.Ok? ==> pos < r.value.next <= |toks| && toks[r.value.next - 1] == Punct(")")
    ensures r.Ok? ==> IsLeftFold(r.value.node.cond) && IsLeftFold(r.value.node.update)
    ensures r.Ok? ==> Spans(toks, pos, r.value.next, ForStepTokens(r.value.node.cond, r.value.node.update))
  {
    match ParseTerminated(toks, pos, ";")
    case Err(err) => Err(err)
    case Ok(cond) =>
    match ParseTerminated(toks, cond.next, ")")
    case Err(err) => Err(err)
    case Ok(update) =>
    SliceJoin(toks, pos, cond.next, update.next);
    Ok(Parsed(ForSteps(cond.node, update.node), update.next))
  }

  /** `for ( let name = value ;`, the head of `parseFor` (trabajof.js:118-120). */
  function ParseForInit(toks: seq<Token>, pos: nat): (r: Result<Parsed<Assignment>, SyntaxError>)
    requires pos <= |toks|
    ensures r.Ok? ==> pos < r.value.next <= |toks| && ValidAssignment(r.value.node)
    ensures r.Ok? ==> toks[pos] == Reserved("for")
    ensures r.Ok? ==> Spans(toks, pos, r.value.next, ForInitTokens(r.value.node))
  {
    match Consume(toks, pos, Keyword, Some("for"))
    case Err(err) => Err(err)
    case Ok(kw) =>
    match Consume(toks, kw.next, Delimiter, Some("("))
    case Err(err) => Err(err)
    case Ok(open) =>
    match ParseAssignment(toks, open.next)
    case Err(err) => Err(err)
    case Ok(a) =>
    SliceCons2(toks, pos, a.next);
    Ok(a)
  }

  /** A keyword, an identifier and an opening delimiter: the head of `parseClass` and of
      `parseFunction`, returning the identifier. */
  function ParseNamed(toks: seq<Token>, pos: nat, word: string, open: string): (r: Result<Parsed<Token>, SyntaxError>)
    requires pos <= |toks|
    ensures r.Ok? ==> pos + 3 == r.value.next <= |toks| && r.value.node == toks[pos + 1]
    ensures r.Ok? ==> toks[pos] == Reserved(word) && toks[pos + 1].kind == Identifier && toks[pos + 2] == Punct(open)
    ensures r.Ok? ==> Spans(toks, pos, r.value.next, NamedTokens(word, r.value.node, open))
  {
    match Consume(toks, pos, Keyword, Some(word))
    case Err(err) => Err(err)
    case Ok(kw) =>
    match Consume(toks, kw.next, Identifier, None)
    case Err(err) => Err(err)
    case Ok(name) =>
    match Consume(toks, name.next, Delimiter, Some(open))
    case Err(err) => Err(err)
    case Ok(delim) =>
    SliceCons3(toks, pos, delim.next);
    Ok(Parsed(name.node, delim.next))
  }

  /** `parseClass` (trabajof.js:131-141). */
  function ParseClass(toks: seq<Token>, pos: nat): (r: Result<Parsed<Decl>, SyntaxError>)
    requires pos <= |toks|
    decreases |toks| - pos, 0
    ensures r.Ok? ==> DeclSpan(toks, pos, r.value) && r.value.node.ClassDecl?
  {
    match ParseNamed(toks, pos, "class", "{")
    case Err(err) => Err(err)
    case Ok(name) =>
    match ParseMethods(toks, name.next)
    case Err(err) => Err(err)
    case Ok(methods) =>
    match Consume(toks, methods.next, Delimiter, Some("}"))
    case Err(err) => Err(err)
    case Ok(close) =>
    Ok(Parsed(ClassDecl(name.node, methods.node), close.next))
  }

  /** The method loop of `parseClass` (trabajof.js:136-138): functions up to the end of
      the tokens or up to a `}` token. */
  function ParseMethods(toks: seq<Token>, pos: nat): (r: Result<Parsed<seq<Function>>, SyntaxError>)
    requires pos <= |toks|
    decreases |toks| - pos, 1
    ensures r.Ok? ==> pos <= r.value.next <= |toks|
    ensures r.Ok? ==> forall i :: 0 <= i < |r.value.node| ==> ValidFunction(r.value.node[i])
    ensures r.Ok? ==> r.value.next == |toks| || toks[r.value.next].text == "}"
    ensures r.Ok? ==> (r.value.node == [] <==> r.value.next == pos)
  {
    if pos < |toks| && toks[pos].text != "}" then
      match ParseFunction(toks, pos)
      case Err(err) => Err(err)
      case Ok(f) =>
      match ParseMethods(toks, f.next)
      case Err(err) => Err(err)
      case Ok(rest) =>
      Ok(Parsed([f.node] + rest.node, rest.next))
    else Ok(Parsed([], pos))
  }

  /** `parseFunction` (trabajof.js:143-159). */
  function ParseFunction(toks: seq<Token>, pos: nat): (r: Result<Parsed<Function>, SyntaxError>)
    requires pos <= |toks|
    decreases |toks| - pos, 0
    ensures r.Ok? ==> pos < r.value.next <= |toks| && ValidFunction(r.value.node)
    ensures r.Ok? ==> toks[pos] == Reserved("function") && toks[r.value.next - 1] == Punct("}")
  {
    match ParseNamed(toks, pos, "function", "(")
    case Err(err) => Err(err)
    case Ok(name) =>
    match ParseParamList(toks, name.next)
    case Err(err) => Err(err)
    case Ok(params) =>
    match ParseBlock(toks, params.next)
    case Err(err) => Err(err)
    case Ok(body) =>
    Ok(Parsed(Function(name.node, params.node, body.node), body.next))
  }

  /** The parameters of `parseFunction` and the `)` after them (trabajof.js:147-154). */
  function ParseParamList(toks: seq<Token>, pos: nat): (r: Result<Parsed<seq<Token>>, SyntaxError>)
    requires pos <= |toks|
    ensures r.Ok? ==> pos < r.value.next <= |toks| && toks[r.value.next - 1] == Punct(")")
    ensures r.Ok? ==> forall i :: 0 <= i < |r.value.node| ==> r.value.node[i].kind == Identifier
    ensures r.Ok? ==> ParamsAt(toks, pos, r.value.next - 1, r.value.node)
  {
    match ParseParams(toks, pos)
    case Err(err) => Err(err)
    case Ok(params) =>
    match Consume(toks, params.next, Delimiter, Some(")"))
    case Err(err) => Err(err)
    case Ok(close) =>
    Ok(Parsed(params.node, close.next))
  }

  /** `analizarSintaxis` (trabajof.js:41-191): one program from the first token. Tokens
      after the point where that program stops are not looked at. */
  function Parse(toks: seq<Token>): (r: Result<Program, SyntaxError>)
    ensures r.Ok? ==> ValidProgram(r.value)
  {
    match ParseProgram(toks, 0)
    case Err(err) => Err(err)
    case Ok(p) =>
    Ok(p.node)
  }
}
