/** The syntax tree built by `analizarSintaxis` (trabajof.js:41-191), its syntax errors,
    and the token sequence each tree stands for. */
module Syntax {
  import opened Wrappers
  import opened Tokens

  /** An expression: a term token, or a binary operation. The parser only ever builds
      left-leaning trees whose right operands are terms (see `IsLeftFold`). */
  datatype Expr = Leaf(token: Token) | Operation(op: Token, left: Expr, right: Expr)

  /** `let name = value;` */
  datatype Assignment = Assignment(name: Token, value: Expr)

  /** `function name(params) { body }`, also the shape of a class method. */
  datatype Function = Function(name: Token, params: seq<Token>, body: Program)

  datatype Decl =
    | Assign(assignment: Assignment)
    | Conditional(cond: Expr, consequent: Program, alternative: Option<Program>)
    | While(cond: Expr, body: Program)
    | For(init: Assignment, cond: Expr, update: Expr, body: Program)
    | ClassDecl(name: Token, methods: seq<Function>)
    | FunctionDecl(fun: Function)
    | ExprStmt(expr: Expr)

  datatype Program = Program(decls: seq<Decl>)

  /** What the parser was looking for when it stopped: a token of a class, a token of a
      class with a given text, an identifier or constant term, or any token at all. */
  datatype Expected = Kind(kind: Class) | KindAndText(kind: Class, text: string) | Term | AnyToken

  /** `found` is the token at the cursor, or `None` when the cursor is past the last token. */
  datatype SyntaxError = SyntaxError(expected: Expected, found: Option<Token>)

  /** A parsed node and the cursor after it. */
  datatype Parsed<+T> = Parsed(node: T, next: nat)

  /** What `parseFor` reads before its block: the initialiser, the condition and the
      update. */
  datatype ForHead = ForHead(init: Assignment, cond: Expr, update: Expr)

  /** What `parseFor` reads between its initialiser and its `)`. */
  datatype ForSteps = ForSteps(cond: Expr, update: Expr)

  /** The tokens `parseTermino` accepts (trabajof.js:172-178). */
  predicate IsTerm(t: Token) {
    t.kind == Identifier || t.kind == Constant
  }

  /** The tokens that continue an expression (trabajof.js:163). */
  predicate IsBinaryOp(t: Token) {
    t.kind == Operator && IsSimpleOperator(t.text)
  }

  /** A term followed by any number of (operator, term) pairs, folded to the left. */
  predicate IsLeftFold(e: Expr) {
    match e
    case Leaf(t) => IsTerm(t)
    case Operation(op, l, r) => IsBinaryOp(op) && r.Leaf? && IsTerm(r.token) && IsLeftFold(l)
  }

  predicate ValidAssignment(a: Assignment) {
    a.name.kind == Identifier && IsLeftFold(a.value)
  }

  predicate ValidFunction(f: Function) {
    f.name.kind == Identifier
    && (forall i :: 0 <= i < |f.params| ==> f.params[i].kind == Identifier)
    && ValidProgram(f.body)
  }

  /** The shape of every tree the parser can return. */
  predicate ValidDecl(d: Decl) {
    match d
    case Assign(a) => ValidAssignment(a)
    case Conditional(c, t, e) => IsLeftFold(c) && ValidProgram(t) && (e.Some? ==> ValidProgram(e.value))
    case While(c, b) => IsLeftFold(c) && ValidProgram(b)
    case For(i, c, u, b) => ValidAssignment(i) && IsLeftFold(c) && IsLeftFold(u) && ValidProgram(b)
    case ClassDecl(n, ms) => n.kind == Identifier && forall i :: 0 <= i < |ms| ==> ValidFunction(ms[i])
    case FunctionDecl(f) => ValidFunction(f)
    case ExprStmt(e) => IsLeftFold(e)
  }

  predicate ValidProgram(p: Program) {
    forall i :: 0 <= i < |p.decls| ==> ValidDecl(p.decls[i])
  }

  function Reserved(w: string): Token {
    Token(Keyword, w)
  }

  function Punct(c: string): Token {
    Token(Delimiter, c)
  }

  /** The tokens of an expression, in source order. */
  function ExprTokens(e: Expr): (ts: seq<Token>)
    ensures |ts| > 0
  {
    match e
    case Leaf(t) => [t]
    case Operation(op, l, r) => ExprTokens(l) + [op] + ExprTokens(r)
  }

  /** An expression and the delimiter that closes it. */
  function TerminatedTokens(e: Expr, closer: string): seq<Token> {
    ExprTokens(e) + [Punct(closer)]
  }

  function AssignmentTokens(a: Assignment): seq<Token> {
    [Reserved("let"), a.name, Token(Operator, "=")] + TerminatedTokens(a.value, ";")
  }

  /** A keyword, a parenthesised expression: the head of `if` and `while`. */
  function GuardTokens(word: string, c: Expr): seq<Token> {
    [Reserved(word), Punct("(")] + TerminatedTokens(c, ")")
  }

  /** A keyword, a name and an opening delimiter: the head of `class` and `function`. */
  function NamedTokens(word: string, name: Token, open: string): seq<Token> {
    [Reserved(word), name, Punct(open)]
  }

  /** The parameter list is written without separators: the parser takes the commas
      between parameters as optional and does not keep them in the tree. */
  function ParamListTokens(params: seq<Token>): seq<Token> {
    params + [Punct(")")]
  }

  function ForInitTokens(i: Assignment): seq<Token> {
    [Reserved("for"), Punct("(")] + AssignmentTokens(i)
  }

  function FunctionTokens(f: Function): seq<Token>
    decreases f, 0
  {
    NamedTokens("function", f.name, "(") + ParamListTokens(f.params) + BlockTokens(f.body)
  }

  function MethodsTokens(ms: seq<Function>): seq<Token>
    decreases ms, 0
  {
    if ms == [] then [] else FunctionTokens(ms[0]) + MethodsTokens(ms[1..])
  }

  function BlockTokens(p: Program): seq<Token>
    decreases p, 1
  {
    [Punct("{")] + ProgramTokens(p) + [Punct("}")]
  }

  function DeclTokens(d: Decl): seq<Token>
    decreases d, 1
  {
    match d
    case Assign(a) => AssignmentTokens(a)
    case Conditional(c, t, e) => ConditionalTokens(c, t, e)
    case While(c, b) => WhileTokens(c, b)
    case For(i, c, u, b) => ForTokens(i, c, u, b)
    case ClassDecl(n, ms) => ClassTokens(n, ms)
    case FunctionDecl(f) => FunctionTokens(f)
    case ExprStmt(e) => TerminatedTokens(e, ";")
  }

  function ConditionalTokens(c: Expr, t: Program, e: Option<Program>): seq<Token>
    decreases Conditional(c, t, e), 0
  {
    GuardTokens("if", c) + BlockTokens(t) + ElseTokens(e)
  }

  function ElseTokens(e: Option<Program>): seq<Token>
    decreases e, 0
  {
    if e.Some? then [Reserved("else")] + BlockTokens(e.value) else []
  }

  function WhileTokens(c: Expr, b: Program): seq<Token>
    decreases While(c, b), 0
  {
    GuardTokens("while", c) + BlockTokens(b)
  }

  function ForTokens(i: Assignment, c: Expr, u: Expr, b: Program): seq<Token>
    decreases For(i, c, u, b), 0
  {
    ForInitTokens(i) + TerminatedTokens(c, ";") + TerminatedTokens(u, ")") + BlockTokens(b)
  }

  function ClassTokens(n: Token, ms: seq<Function>): seq<Token>
    decreases ClassDecl(n, ms), 0
  {
    NamedTokens("class", n, "{") + MethodsTokens(ms) + [Punct("}")]
  }

  function DeclsTokens(ds: seq<Decl>): seq<Token>
    decreases ds, 0
  {
    if ds == [] then [] else DeclTokens(ds[0]) + DeclsTokens(ds[1..])
  }

  function ProgramTokens(p: Program): seq<Token>
    decreases p, 0
  {
    DeclsTokens(p.decls)
  }
}
