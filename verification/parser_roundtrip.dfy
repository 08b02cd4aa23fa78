/** The parser inverts the printer: the tokens of any well-shaped tree, made of tokens the
    lexer can produce, parse back to that tree. Each production is shown to read back its
    own printed form, given what may follow it. */
module ParserRoundTrip {
  import opened Wrappers
  import opened Tokens
  import opened Syntax
  import opened Parser
  import opened ParserProperties
  import opened Layout

  /** Every token could have come out of the lexer. */
  predicate Lexed(toks: seq<Token>) {
    toks == [] || (WellFormed(toks[0]) && Lexed(toks[1..]))
  }

  lemma {:induction false} LexedAt(toks: seq<Token>, i: nat)
    requires Lexed(toks) && i < |toks|
    ensures WellFormed(toks[i])
    decreases i
  {
    if i > 0 {
      LexedAt(toks[1..], i - 1);
    }
  }

  lemma {:induction false} AllLexed(toks: seq<Token>)
    requires forall t :: t in toks ==> WellFormed(t)
    ensures Lexed(toks)
    decreases |toks|
  {
    if toks != [] {
      assert toks[0] in toks;
      assert forall t :: t in toks[1..] ==> t in toks;
      AllLexed(toks[1..]);
    }
  }

  /** A term the lexer can produce is neither a closing brace, a closing parenthesis nor a
      comma, so none of the parser's text tests stops on it. */
  lemma {:induction false} TermText(t: Token)
    requires IsTerm(t) && WellFormed(t)
    ensures t.text != "}" && t.text != ")" && t.text != ","
  {
    if t.kind == Constant && |t.text| == 1 {
      assert IsDigit(t.text[0]);
    }
  }

  /** A declaration's printed form starts with the token it opens with. */
  lemma {:induction false} DeclOpens(d: Decl)
    requires ValidDecl(d)
    ensures |DeclTokens(d)| > 0 && Opens(d, DeclTokens(d)[0])
  {
    match d
    case ExprStmt(e) =>
      LeftFoldStartsWithTerm(e);
      assert DeclTokens(d)[0] == ExprTokens(e)[0];
    case _ =>
  }

  lemma {:induction false} TerminatedReads(e: Expr, closer: string, toks: seq<Token>, pos: nat, q: nat)
    requires IsLeftFold(e) && HasAt(toks, pos, TerminatedTokens(e, closer))
    requires q == pos + |TerminatedTokens(e, closer)|
    ensures ParseTerminated(toks, pos, closer) == Ok(Parsed(e, q))
  {
    var n := pos + |ExprTokens(e)|;
    TerminatedLayout(e, closer, toks, pos);
    ExpressionReads(e, toks, pos);
    TerminatedStep(toks, pos, closer, e, n);
  }

  /** The printed terminated form is the expression's tokens, then the closer. */
  lemma {:induction false} TerminatedLayout(e: Expr, closer: string, toks: seq<Token>, pos: nat)
    requires HasAt(toks, pos, TerminatedTokens(e, closer))
    ensures |TerminatedTokens(e, closer)| == |ExprTokens(e)| + 1
    ensures var n := pos + |ExprTokens(e)|;
      HasAt(toks, pos, ExprTokens(e)) && n < |toks| && toks[n] == Punct(closer) && !IsBinaryOp(toks[n])
  {
    Split(toks, pos, ExprTokens(e), [Punct(closer)]);
    Head(toks, pos + |ExprTokens(e)|, [Punct(closer)]);
  }

  lemma {:induction false} AssignmentReads(a: Assignment, toks: seq<Token>, pos: nat, q: nat)
    requires ValidAssignment(a) && HasAt(toks, pos, AssignmentTokens(a))
    requires q == pos + |AssignmentTokens(a)|
    ensures ParseAssignment(toks, pos) == Ok(Parsed(a, q))
  {
    Split(toks, pos, [Reserved("let"), a.name, Token(Operator, "=")], TerminatedTokens(a.value, ";"));
    Heads3(toks, pos, Reserved("let"), a.name, Token(Operator, "="));
    TerminatedReads(a.value, ";", toks, pos + 3, q);
  }

  lemma {:induction false} NamedReads(word: string, name: Token, open: string, toks: seq<Token>, pos: nat, q: nat)
    requires name.kind == Identifier && HasAt(toks, pos, NamedTokens(word, name, open)) && q == pos + 3
    ensures ParseNamed(toks, pos, word, open) == Ok(Parsed(name, q))
  {
    Heads3(toks, pos, Reserved(word), name, Punct(open));
  }

  lemma {:induction false} GuardReads(word: string, c: Expr, toks: seq<Token>, pos: nat, q: nat)
    requires IsLeftFold(c) && HasAt(toks, pos, GuardTokens(word, c))
    requires q == pos + |GuardTokens(word, c)|
    ensures ParseGuard(toks, pos, word) == Ok(Parsed(c, q))
  {
    Split(toks, pos, [Reserved(word), Punct("(")], TerminatedTokens(c, ")"));
    Heads2(toks, pos, Reserved(word), Punct("("));
    TerminatedReads(c, ")", toks, pos + 2, q);
  }

  lemma {:induction false} ForInitReads(i: Assignment, toks: seq<Token>, pos: nat, q: nat)
    requires ValidAssignment(i) && HasAt(toks, pos, ForInitTokens(i))
    requires q == pos + |ForInitTokens(i)|
    ensures ParseForInit(toks, pos) == Ok(Parsed(i, q))
  {
    Split(toks, pos, [Reserved("for"), Punct("(")], AssignmentTokens(i));
    Heads2(toks, pos, Reserved("for"), Punct("("));
    AssignmentReads(i, toks, pos + 2, q);
  }

  lemma {:induction false} ParamsReads(ps: seq<Token>, toks: seq<Token>, pos: nat, q: nat)
    requires Lexed(toks) && (forall i :: 0 <= i < |ps| ==> ps[i].kind == Identifier)
    requires HasAt(toks, pos, ParamListTokens(ps)) && q == pos + |ps|
    ensures ParseParams(toks, pos) == Ok(Parsed(ps, q))
    decreases ps
  {
    Split(toks, pos, ps, [Punct(")")]);
    Head(toks, q, [Punct(")")]);
    if ps != [] {
      assert ParamListTokens(ps) == [ps[0]] + ParamListTokens(ps[1..]);
      Split(toks, pos, [ps[0]], ParamListTokens(ps[1..]));
      Head(toks, pos + 1, ParamListTokens(ps[1..]));
      LexedAt(toks, pos);
      TermText(toks[pos]);
      if |ps| > 1 {
        LexedAt(toks, pos + 1);
        TermText(toks[pos + 1]);
      }
      ParamsReads(ps[1..], toks, pos + 1, q);
      ParamsStep(toks, pos, ps, q);
    }
  }

  lemma {:induction false} ParamsStep(toks: seq<Token>, pos: nat, ps: seq<Token>, q: nat)
    requires ps != [] && pos + 1 < |toks| && toks[pos] == ps[0] && ps[0].kind == Identifier
    requires toks[pos].text != ")" && toks[pos + 1].text != ","
    requires ParseParams(toks, pos + 1) == Ok(Parsed(ps[1..], q))
    ensures ParseParams(toks, pos) == Ok(Parsed(ps, q))
  {
    assert SkipComma(toks, pos + 1) == Ok(pos + 1);
    assert [ps[0]] + ps[1..] == ps;
  }

  lemma {:induction false} ParamListReads(ps: seq<Token>, toks: seq<Token>, pos: nat, q: nat)
    requires Lexed(toks) && (forall i :: 0 <= i < |ps| ==> ps[i].kind == Identifier)
    requires HasAt(toks, pos, ParamListTokens(ps)) && q == pos + |ParamListTokens(ps)|
    ensures ParseParamList(toks, pos) == Ok(Parsed(ps, q))
  {
    var n := pos + |ps|;
    ParamListLayout(ps, toks, pos);
    ParamsReads(ps, toks, pos, n);
    ParamListStep(toks, pos, ps, n);
  }

  /** The printed parameter list is the parameters, then `)`. */
  lemma {:induction false} ParamListLayout(ps: seq<Token>, toks: seq<Token>, pos: nat)
    requires HasAt(toks, pos, ParamListTokens(ps))
    ensures |ParamListTokens(ps)| == |ps| + 1
    ensures pos + |ps| < |toks| && toks[pos + |ps|] == Punct(")")
  {
    Split(toks, pos, ps, [Punct(")")]);
    Head(toks, pos + |ps|, [Punct(")")]);
  }

  /** Once the parameters are read and `)` follows them, the list is read. */
  lemma {:induction false} ParamListStep(toks: seq<Token>, pos: nat, ps: seq<Token>, n: nat)
    requires pos <= |toks| && ParseParams(toks, pos) == Ok(Parsed(ps, n))
    requires n < |toks| && toks[n] == Punct(")")
    ensures ParseParamList(toks, pos) == Ok(Parsed(ps, n + 1))
  {
    ConsumePunct(toks, n, ")");
  }

  /** A block reads back its program. */
  lemma {:induction false} BlockReads(p: Program, toks: seq<Token>, pos: nat, q: nat)
    requires ValidProgram(p) && Lexed(toks) && HasAt(toks, pos, BlockTokens(p))
    requires q == pos + |BlockTokens(p)|
    ensures ParseBlock(toks, pos) == Ok(Parsed(p, q))
    decreases p, 1
  {
    var z := BlockLayout(p, toks, pos, q);
    ProgramReads(p, toks, pos + 1, z);
    BlockStep(toks, pos, p, z, q);
  }

  lemma {:induction false} BlockLayout(p: Program, toks: seq<Token>, pos: nat, q: nat) returns (z: nat)
    requires HasAt(toks, pos, BlockTokens(p)) && q == pos + |BlockTokens(p)|
    ensures z == pos + 1 + |ProgramTokens(p)| && q == z + 1 && q <= |toks|
    ensures HasAt(toks, pos + 1, ProgramTokens(p)) && toks[pos] == Punct("{") && toks[z] == Punct("}")
  {
    Split(toks, pos, [Punct("{")] + ProgramTokens(p), [Punct("}")]);
    Split(toks, pos, [Punct("{")], ProgramTokens(p));
    z := pos + 1 + |ProgramTokens(p)|;
    Head(toks, z, [Punct("}")]);
  }

  lemma {:induction false} BlockStep(toks: seq<Token>, pos: nat, p: Program, z: nat, q: nat)
    requires pos < z && q == z + 1 && q <= |toks| && toks[pos] == Punct("{") && toks[z] == Punct("}")
    requires ParseProgram(toks, pos + 1) == Ok(Parsed(p, z))
    ensures ParseBlock(toks, pos) == Ok(Parsed(p, q))
  {
    ConsumePunct(toks, pos, "{");
    ConsumePunct(toks, z, "}");
  }

  /** A program reads back its declarations when it is followed by the end of the tokens or
      by a `}`. */
  lemma {:induction false} ProgramReads(p: Program, toks: seq<Token>, pos: nat, q: nat)
    requires ValidProgram(p) && Lexed(toks) && HasAt(toks, pos, ProgramTokens(p))
    requires q == pos + |ProgramTokens(p)| && (q == |toks| || toks[q].text == "}")
    ensures ParseProgram(toks, pos) == Ok(Parsed(p, q))
    decreases p, 0
  {
    assert ProgramTokens(p) == DeclsTokens(p.decls);
    DeclsReads(p.decls, toks, pos, q);
    assert Program(p.decls) == p;
  }

  lemma {:induction false} DeclsReads(ds: seq<Decl>, toks: seq<Token>, pos: nat, q: nat)
    requires (forall i :: 0 <= i < |ds| ==> ValidDecl(ds[i])) && Lexed(toks) && HasAt(toks, pos, DeclsTokens(ds))
    requires q == pos + |DeclsTokens(ds)| && (q == |toks| || toks[q].text == "}")
    ensures ParseProgram(toks, pos) == Ok(Parsed(Program(ds), q))
    decreases ds, 0
  {
    if ds != [] {
      var m := DeclsLayout(ds, toks, pos, q);
      DeclReads(ds[0], toks, pos, m);
      DeclsReads(ds[1..], toks, m, q);
      ProgramStep(toks, pos, ds, m, q);
    }
  }

  /** The first declaration of a non-empty list, and what follows it: the first token is
      not a `}` and the token after the first declaration is not `else`. */
  lemma {:induction false} DeclsLayout(ds: seq<Decl>, toks: seq<Token>, pos: nat, q: nat) returns (m: nat)
    requires ds != [] && (forall i :: 0 <= i < |ds| ==> ValidDecl(ds[i])) && Lexed(toks)
    requires HasAt(toks, pos, DeclsTokens(ds))
    requires q == pos + |DeclsTokens(ds)| && (q == |toks| || toks[q].text == "}")
    ensures m == pos + |DeclTokens(ds[0])| && q == m + |DeclsTokens(ds[1..])|
    ensures HasAt(toks, pos, DeclTokens(ds[0])) && HasAt(toks, m, DeclsTokens(ds[1..]))
    ensures pos < |toks| && toks[pos].text != "}"
    ensures m == |toks| || toks[m] != Reserved("else")
  {
    Split(toks, pos, DeclTokens(ds[0]), DeclsTokens(ds[1..]));
    m := pos + |DeclTokens(ds[0])|;
    DeclFirst(ds[0], toks, pos);
    var rest := ds[1..];
    if m < |toks| && rest != [] {
      assert ValidDecl(rest[0]);
      Split(toks, m, DeclTokens(rest[0]), DeclsTokens(rest[1..]));
      DeclFirst(rest[0], toks, m);
    }
  }

  /** The first token of a declaration made of lexer tokens is neither `}` nor `else`. */
  lemma {:induction false} DeclFirst(d: Decl, toks: seq<Token>, pos: nat)
    requires ValidDecl(d) && Lexed(toks) && HasAt(toks, pos, DeclTokens(d))
    ensures pos < |toks| && toks[pos].text != "}" && toks[pos] != Reserved("else")
  {
    DeclOpens(d);
    Head(toks, pos, DeclTokens(d));
    if d.ExprStmt? {
      LexedAt(toks, pos);
      TermText(toks[pos]);
    }
  }

  lemma {:induction false} ProgramStep(toks: seq<Token>, pos: nat, ds: seq<Decl>, m: nat, q: nat)
    requires ds != [] && pos < |toks| && toks[pos].text != "}"
    requires ParseDeclaration(toks, pos) == Ok(Parsed(ds[0], m))
    requires m <= |toks| && ParseProgram(toks, m) == Ok(Parsed(Program(ds[1..]), q))
    ensures ParseProgram(toks, pos) == Ok(Parsed(Program(ds), q))
  {
    assert [ds[0]] + ds[1..] == ds;
  }

  /** A declaration reads back, given that a conditional without `else` is not followed by
      the keyword `else`. */
  lemma {:induction false} DeclReads(d: Decl, toks: seq<Token>, pos: nat, q: nat)
    requires ValidDecl(d) && Lexed(toks) && HasAt(toks, pos, DeclTokens(d))
    requires q == pos + |DeclTokens(d)| && (q == |toks| || toks[q] != Reserved("else"))
    ensures pos < |toks| && ParseDeclaration(toks, pos) == Ok(Parsed(d, q))
    decreases d, 2
  {
    match d
    case Assign(a) =>
      AssignmentReads(a, toks, pos, q);
      AssignStep(toks, pos, a, q);
    case FunctionDecl(f) =>
      FunctionReads(f, toks, pos, q);
      FunctionDeclStep(toks, pos, f, q);
    case ExprStmt(e) =>
      TerminatedReads(e, ";", toks, pos, q);
      ExprStmtStep(toks, pos, e, q);
    case _ =>
      CompoundReads(d, toks, pos, q);
  }

  lemma {:induction false} AssignStep(toks: seq<Token>, pos: nat, a: Assignment, q: nat)
    requires pos <= |toks| && ParseAssignment(toks, pos) == Ok(Parsed(a, q))
    ensures pos < |toks| && ParseDeclaration(toks, pos) == Ok(Parsed(Assign(a), q))
  {
  }

  lemma {:induction false} FunctionDeclStep(toks: seq<Token>, pos: nat, f: Function, q: nat)
    requires pos <= |toks| && ParseFunction(toks, pos) == Ok(Parsed(f, q))
    ensures pos < |toks| && ParseDeclaration(toks, pos) == Ok(Parsed(FunctionDecl(f), q))
  {
  }

  lemma {:induction false} ExprStmtStep(toks: seq<Token>, pos: nat, e: Expr, q: nat)
    requires pos <= |toks| && ParseTerminated(toks, pos, ";") == Ok(Parsed(e, q))
    ensures pos < |toks| && ParseDeclaration(toks, pos) == Ok(Parsed(ExprStmt(e), q))
  {
    assert !IsStatementKeyword(toks[pos]);
  }

  /** The four compound statements, each read by its own production. */
  lemma {:induction false} CompoundReads(d: Decl, toks: seq<Token>, pos: nat, q: nat)
    requires ValidDecl(d) && (d.Conditional? || d.While? || d.For? || d.ClassDecl?)
    requires Lexed(toks) && HasAt(toks, pos, DeclTokens(d))
    requires q == pos + |DeclTokens(d)| && (q == |toks| || toks[q] != Reserved("else"))
    ensures pos < |toks| && ParseDeclaration(toks, pos) == Ok(Parsed(d, q))
    decreases d, 1
  {
    match d
    case Conditional(c, t, e) =>
      ConditionalReads(c, t, e, toks, pos, q);
      Dispatch(toks, pos, ParseConditional(toks, pos));
    case While(c, b) =>
      WhileReads(c, b, toks, pos, q);
      Dispatch(toks, pos, ParseWhile(toks, pos));
    case For(i, c, u, b) =>
      ForReads(i, c, u, b, toks, pos, q);
      Dispatch(toks, pos, ParseFor(toks, pos));
    case ClassDecl(n, ms) =>
      ClassReads(n, ms, toks, pos, q);
      Dispatch(toks, pos, ParseClass(toks, pos));
  }

  /** `parseDeclaracion` hands a compound statement to the production its keyword names. */
  lemma {:induction false} Dispatch(toks: seq<Token>, pos: nat, r: Result<Parsed<Decl>, SyntaxError>)
    requires pos <= |toks| && r.Ok? && DeclSpan(toks, pos, r.value)
    requires r == ParseConditional(toks, pos) || r == ParseWhile(toks, pos)
          || r == ParseFor(toks, pos) || r == ParseClass(toks, pos)
    ensures pos < |toks| && ParseDeclaration(toks, pos) == r
  {
  }

  lemma {:induction false} ConditionalReads(c: Expr, t: Program, e: Option<Program>, toks: seq<Token>, pos: nat, q: nat)
    requires IsLeftFold(c) && ValidProgram(t) && (e.Some? ==> ValidProgram(e.value))
    requires Lexed(toks) && HasAt(toks, pos, ConditionalTokens(c, t, e))
    requires q == pos + |ConditionalTokens(c, t, e)| && (q == |toks| || toks[q] != Reserved("else"))
    ensures ParseConditional(toks, pos) == Ok(Parsed(Conditional(c, t, e), q))
    decreases Conditional(c, t, e), 0
  {
    var g, k := ConditionalLayout(c, t, e, toks, pos, q);
    GuardReads("if", c, toks, pos, g);
    BlockReads(t, toks, g, k);
    ElseReads(e, toks, k, q);
    ConditionalStep(toks, pos, c, t, e, g, k, q);
  }

  lemma {:induction false} ConditionalLayout(c: Expr, t: Program, e: Option<Program>, toks: seq<Token>, pos: nat, q: nat)
    returns (g: nat, k: nat)
    requires HasAt(toks, pos, ConditionalTokens(c, t, e)) && q == pos + |ConditionalTokens(c, t, e)|
    ensures g == pos + |GuardTokens("if", c)| && k == g + |BlockTokens(t)| && q == k + |ElseTokens(e)|
    ensures HasAt(toks, pos, GuardTokens("if", c)) && HasAt(toks, g, BlockTokens(t)) && HasAt(toks, k, ElseTokens(e))
  {
    Split(toks, pos, GuardTokens("if", c) + BlockTokens(t), ElseTokens(e));
    Split(toks, pos, GuardTokens("if", c), BlockTokens(t));
    g := pos + |GuardTokens("if", c)|;
    k := g + |BlockTokens(t)|;
  }

  lemma {:induction false} ConditionalStep(toks: seq<Token>, pos: nat, c: Expr, t: Program, e: Option<Program>, g: nat, k: nat, q: nat)
    requires pos <= |toks|
    requires ParseGuard(toks, pos, "if") == Ok(Parsed(c, g))
    requires g <= |toks| && ParseBlock(toks, g) == Ok(Parsed(t, k))
    requires k <= |toks| && ParseElse(toks, k) == Ok(Parsed(e, q))
    ensures ParseConditional(toks, pos) == Ok(Parsed(Conditional(c, t, e), q))
  {
  }

  lemma {:induction false} ElseReads(e: Option<Program>, toks: seq<Token>, pos: nat, q: nat)
    requires (e.Some? ==> ValidProgram(e.value)) && Lexed(toks) && HasAt(toks, pos, ElseTokens(e))
    requires q == pos + |ElseTokens(e)| && (e.None? ==> q == |toks| || toks[q] != Reserved("else"))
    ensures ParseElse(toks, pos) == Ok(Parsed(e, q))
    decreases e, 0
  {
    if e.Some? {
      Split(toks, pos, [Reserved("else")], BlockTokens(e.value));
      Head(toks, pos, [Reserved("else")]);
      BlockReads(e.value, toks, pos + 1, q);
      ElseStep(toks, pos, e.value, q);
    }
  }

  lemma {:induction false} ElseStep(toks: seq<Token>, pos: nat, p: Program, q: nat)
    requires pos + 1 <= |toks| && toks[pos] == Reserved("else")
    requires ParseBlock(toks, pos + 1) == Ok(Parsed(p, q))
    ensures ParseElse(toks, pos) == Ok(Parsed(Some(p), q))
  {
  }

  lemma {:induction false} WhileReads(c: Expr, b: Program, toks: seq<Token>, pos: nat, q: nat)
    requires IsLeftFold(c) && ValidProgram(b) && Lexed(toks) && HasAt(toks, pos, WhileTokens(c, b))
    requires q == pos + |WhileTokens(c, b)|
    ensures ParseWhile(toks, pos) == Ok(Parsed(While(c, b), q))
    decreases While(c, b), 0
  {
    var g := WhileLayout(c, b, toks, pos, q);
    GuardReads("while", c, toks, pos, g);
    BlockReads(b, toks, g, q);
    WhileStep(toks, pos, c, b, g, q);
  }

  lemma {:induction false} WhileLayout(c: Expr, b: Program, toks: seq<Token>, pos: nat, q: nat) returns (g: nat)
    requires HasAt(toks, pos, WhileTokens(c, b)) && q == pos + |WhileTokens(c, b)|
    ensures g == pos + |GuardTokens("while", c)| && q == g + |BlockTokens(b)|
    ensures HasAt(toks, pos, GuardTokens("while", c)) && HasAt(toks, g, BlockTokens(b))
  {
    Split(toks, pos, GuardTokens("while", c), BlockTokens(b));
    g := pos + |GuardTokens("while", c)|;
  }

  lemma {:induction false} WhileStep(toks: seq<Token>, pos: nat, c: Expr, b: Program, g: nat, q: nat)
    requires pos <= |toks|
    requires ParseGuard(toks, pos, "while") == Ok(Parsed(c, g))
    requires g <= |toks| && ParseBlock(toks, g) == Ok(Parsed(b, q))
    ensures ParseWhile(toks, pos) == Ok(Parsed(While(c, b), q))
  {
  }

  lemma {:induction false} ForReads(i: Assignment, c: Expr, u: Expr, b: Program, toks: seq<Token>, pos: nat, q: nat)
    requires ValidAssignment(i) && IsLeftFold(c) && IsLeftFold(u) && ValidProgram(b)
    requires Lexed(toks) && HasAt(toks, pos, ForTokens(i, c, u, b)) && q == pos + |ForTokens(i, c, u, b)|
    ensures ParseFor(toks, pos) == Ok(Parsed(For(i, c, u, b), q))
    decreases For(i, c, u, b), 0
  {
    var n, m, k := ForLayout(i, c, u, b, toks, pos, q);
    ForInitReads(i, toks, pos, n);
    TerminatedReads(c, ";", toks, n, m);
    TerminatedReads(u, ")", toks, m, k);
    BlockReads(b, toks, k, q);
    ForStep(toks, pos, i, c, u, b, n, m, k, q);
  }

  lemma {:induction false} ForLayout(i: Assignment, c: Expr, u: Expr, b: Program, toks: seq<Token>, pos: nat, q: nat)
    returns (n: nat, m: nat, k: nat)
    requires HasAt(toks, pos, ForTokens(i, c, u, b)) && q == pos + |ForTokens(i, c, u, b)|
    ensures n == pos + |ForInitTokens(i)| && m == n + |TerminatedTokens(c, ";")|
    ensures k == m + |TerminatedTokens(u, ")")| && q == k + |BlockTokens(b)|
    ensures HasAt(toks, pos, ForInitTokens(i)) && HasAt(toks, n, TerminatedTokens(c, ";"))
    ensures HasAt(toks, m, TerminatedTokens(u, ")")) && HasAt(toks, k, BlockTokens(b))
  {
    var init := ForInitTokens(i);
    var cond := TerminatedTokens(c, ";");
    var update := TerminatedTokens(u, ")");
    Split(toks, pos, init + cond + update, BlockTokens(b));
    Split(toks, pos, init + cond, update);
    Split(toks, pos, init, cond);
    n := pos + |init|;
    m := n + |cond|;
    k := m + |update|;
  }

  lemma {:induction false} ForStep(toks: seq<Token>, pos: nat, i: Assignment, c: Expr, u: Expr, b: Program,
                n: nat, m: nat, k: nat, q: nat)
    requires pos <= |toks|
    requires ParseForInit(toks, pos) == Ok(Parsed(i, n))
    requires n <= |toks| && ParseTerminated(toks, n, ";") == Ok(Parsed(c, m))
    requires m <= |toks| && ParseTerminated(toks, m, ")") == Ok(Parsed(u, k))
    requires k <= |toks| && ParseBlock(toks, k) == Ok(Parsed(b, q))
    ensures ParseFor(toks, pos) == Ok(Parsed(For(i, c, u, b), q))
  {
    assert ParseForSteps(toks, n) == Ok(Parsed(ForSteps(c, u), k));
    assert ParseForHead(toks, pos) == Ok(Parsed(ForHead(i, c, u), k));
  }

  lemma {:induction false} ClassReads(name: Token, ms: seq<Function>, toks: seq<Token>, pos: nat, q: nat)
    requires name.kind == Identifier && (forall i :: 0 <= i < |ms| ==> ValidFunction(ms[i]))
    requires Lexed(toks) && HasAt(toks, pos, ClassTokens(name, ms)) && q == pos + |ClassTokens(name, ms)|
    ensures ParseClass(toks, pos) == Ok(Parsed(ClassDecl(name, ms), q))
    decreases ClassDecl(name, ms), 0
  {
    var a, z := ClassLayout(name, ms, toks, pos, q);
    NamedReads("class", name, "{", toks, pos, a);
    MethodsReads(ms, toks, a, z);
    ClassStep(toks, pos, name, ms, a, z, q);
  }

  lemma {:induction false} ClassLayout(name: Token, ms: seq<Function>, toks: seq<Token>, pos: nat, q: nat) returns (a: nat, z: nat)
    requires HasAt(toks, pos, ClassTokens(name, ms)) && q == pos + |ClassTokens(name, ms)|
    ensures a == pos + 3 && z == a + |MethodsTokens(ms)| && q == z + 1 && q <= |toks|
    ensures HasAt(toks, pos, NamedTokens("class", name, "{")) && HasAt(toks, a, MethodsTokens(ms))
    ensures toks[z] == Punct("}")
  {
    Split(toks, pos, NamedTokens("class", name, "{") + MethodsTokens(ms), [Punct("}")]);
    Split(toks, pos, NamedTokens("class", name, "{"), MethodsTokens(ms));
    a := pos + 3;
    z := a + |MethodsTokens(ms)|;
    Head(toks, z, [Punct("}")]);
  }

  lemma {:induction false} ClassStep(toks: seq<Token>, pos: nat, name: Token, ms: seq<Function>, a: nat, z: nat, q: nat)
    requires pos <= |toks|
    requires ParseNamed(toks, pos, "class", "{") == Ok(Parsed(name, a))
    requires a <= |toks| && ParseMethods(toks, a) == Ok(Parsed(ms, z))
    requires q == z + 1 && q <= |toks| && toks[z] == Punct("}")
    ensures ParseClass(toks, pos) == Ok(Parsed(ClassDecl(name, ms), q))
  {
    assert Consume(toks, z, Delimiter, Some("}")) == Ok(Parsed(toks[z], q));
  }

  /** The methods of a class read back when followed by the end of the tokens or a `}`. */
  lemma {:induction false} MethodsReads(ms: seq<Function>, toks: seq<Token>, pos: nat, q: nat)
    requires (forall i :: 0 <= i < |ms| ==> ValidFunction(ms[i])) && Lexed(toks)
    requires HasAt(toks, pos, MethodsTokens(ms))
    requires q == pos + |MethodsTokens(ms)| && (q == |toks| || toks[q].text == "}")
    ensures ParseMethods(toks, pos) == Ok(Parsed(ms, q))
    decreases ms, 0
  {
    if ms != [] {
      var m := MethodsLayout(ms, toks, pos, q);
      FunctionReads(ms[0], toks, pos, m);
      MethodsReads(ms[1..], toks, m, q);
      MethodsStep(toks, pos, ms, m, q);
    }
  }

  lemma {:induction false} MethodsLayout(ms: seq<Function>, toks: seq<Token>, pos: nat, q: nat) returns (m: nat)
    requires ms != [] && HasAt(toks, pos, MethodsTokens(ms)) && q == pos + |MethodsTokens(ms)|
    ensures m == pos + |FunctionTokens(ms[0])| && q == m + |MethodsTokens(ms[1..])|
    ensures HasAt(toks, pos, FunctionTokens(ms[0])) && HasAt(toks, m, MethodsTokens(ms[1..]))
  {
    Split(toks, pos, FunctionTokens(ms[0]), MethodsTokens(ms[1..]));
    m := pos + |FunctionTokens(ms[0])|;
  }

  lemma {:induction false} MethodsStep(toks: seq<Token>, pos: nat, ms: seq<Function>, m: nat, q: nat)
    requires ms != [] && pos <= |toks|
    requires ParseFunction(toks, pos) == Ok(Parsed(ms[0], m))
    requires m <= |toks| && ParseMethods(toks, m) == Ok(Parsed(ms[1..], q))
    ensures ParseMethods(toks, pos) == Ok(Parsed(ms, q))
  {
    assert [ms[0]] + ms[1..] == ms;
  }

  lemma {:induction false} FunctionReads(f: Function, toks: seq<Token>, pos: nat, q: nat)
    requires ValidFunction(f) && Lexed(toks) && HasAt(toks, pos, FunctionTokens(f))
    requires q == pos + |FunctionTokens(f)|
    ensures ParseFunction(toks, pos) == Ok(Parsed(f, q))
    decreases f, 0
  {
    var a, k := FunctionLayout(f, toks, pos, q);
    NamedReads("function", f.name, "(", toks, pos, a);
    ParamListReads(f.params, toks, a, k);
    BlockReads(f.body, toks, k, q);
    FunctionStep(toks, pos, f, a, k, q);
  }

  lemma {:induction false} FunctionLayout(f: Function, toks: seq<Token>, pos: nat, q: nat) returns (a: nat, k: nat)
    requires HasAt(toks, pos, FunctionTokens(f)) && q == pos + |FunctionTokens(f)|
    ensures a == pos + 3 && k == a + |ParamListTokens(f.params)| && q == k + |BlockTokens(f.body)|
    ensures HasAt(toks, pos, NamedTokens("function", f.name, "("))
    ensures HasAt(toks, a, ParamListTokens(f.params)) && HasAt(toks, k, BlockTokens(f.body))
  {
    var named := NamedTokens("function", f.name, "(");
    Split(toks, pos, named + ParamListTokens(f.params), BlockTokens(f.body));
    Split(toks, pos, named, ParamListTokens(f.params));
    a := pos + 3;
    k := a + |ParamListTokens(f.params)|;
  }

  lemma {:induction false} FunctionStep(toks: seq<Token>, pos: nat, f: Function, a: nat, k: nat, q: nat)
    requires pos <= |toks|
    requires ParseNamed(toks, pos, "function", "(") == Ok(Parsed(f.name, a))
    requires a <= |toks| && ParseParamList(toks, a) == Ok(Parsed(f.params, k))
    requires k <= |toks| && ParseBlock(toks, k) == Ok(Parsed(f.body, q))
    ensures ParseFunction(toks, pos) == Ok(Parsed(f, q))
  {
  }

  /** The printed form of any well-shaped program made of lexer tokens parses back to that
      program. */
  lemma {:induction false} RoundTrip(p: Program)
    requires ValidProgram(p) && forall t :: t in ProgramTokens(p) ==> WellFormed(t)
    ensures Parse(ProgramTokens(p)) == Ok(p)
  {
    var toks := ProgramTokens(p);
    AllLexed(toks);
    HasAtIff(toks, 0, toks);
    assert toks[0..|toks|] == toks;
    ProgramReads(p, toks, 0, |toks|);
  }
}
