/** What a production reads, compared with the printed tokens of the tree it builds. The
    tree does not keep the commas between parameters, so declarations are compared with
    their commas dropped, and a parameter list is compared with the exact places where
    `parseFunction` allows a comma. */
module Reading {
  import opened Wrappers
  import opened Tokens
  import opened Syntax
  import opened Layout

  /** `ts` without its comma delimiters. */
  function Uncommas(ts: seq<Token>): seq<Token>
    decreases |ts|
  {
    if ts == [] then []
    else if ts[0] == Punct(",") then Uncommas(ts[1..])
    else [ts[0]] + Uncommas(ts[1..])
  }

  predicate CommaFree(ts: seq<Token>) {
    Punct(",") !in ts
  }

  /** `ts` reads the parameters `ps` as `parseFunction` does (trabajof.js:148-153): each
      parameter in turn, each optionally followed by one comma. */
  predicate CommaSeparated(ts: seq<Token>, ps: seq<Token>)
    decreases |ps|
  {
    if ps == [] then ts == []
    else
      |ts| > 0 && ts[0] == ps[0]
      && (CommaSeparated(ts[1..], ps[1..]) || (|ts| > 1 && ts[1] == Punct(",") && CommaSeparated(ts[2..], ps[1..])))
  }

  /** `toks` from position `i` up to position `j` reads the parameters `ps`. */
  predicate ParamsAt(toks: seq<Token>, i: int, j: int, ps: seq<Token>) {
    0 <= i <= j <= |toks| && CommaSeparated(toks[i..j], ps)
  }

  lemma {:induction false} UncommasAppend(a: seq<Token>, b: seq<Token>)
    ensures Uncommas(a + b) == Uncommas(a) + Uncommas(b)
    decreases |a|
  {
    if a == [] {
      assert a + b == b;
    } else {
      assert (a + b)[0] == a[0];
      assert (a + b)[1..] == a[1..] + b;
      UncommasAppend(a[1..], b);
    }
  }

  lemma {:induction false} UncommasFree(ts: seq<Token>)
    requires CommaFree(ts)
    ensures Uncommas(ts) == ts
    decreases |ts|
  {
    if ts != [] {
      assert ts == [ts[0]] + ts[1..];
      UncommasFree(ts[1..]);
    }
  }

  /** A left fold holds no comma: its tokens are terms and operators. */
  lemma {:induction false} ExprCommaFree(e: Expr)
    requires IsLeftFold(e)
    ensures CommaFree(ExprTokens(e))
    decreases e
  {
    match e
    case Leaf(_) =>
    case Operation(_, l, _) =>
      ExprCommaFree(l);
  }

  lemma {:induction false} TerminatedCommaFree(e: Expr, closer: string)
    requires IsLeftFold(e) && closer != ","
    ensures CommaFree(TerminatedTokens(e, closer))
  {
    ExprCommaFree(e);
  }

  lemma {:induction false} AssignmentCommaFree(a: Assignment)
    requires ValidAssignment(a)
    ensures CommaFree(AssignmentTokens(a))
  {
    TerminatedCommaFree(a.value, ";");
  }

  /** The parameters read, commas dropped, are the parameters kept. */
  lemma {:induction false} CommaSeparatedUncommas(ts: seq<Token>, ps: seq<Token>)
    requires CommaSeparated(ts, ps) && Punct(",") !in ps
    ensures Uncommas(ts) == ps
    decreases |ps|
  {
    if ps != [] {
      assert ps == [ps[0]] + ps[1..];
      if CommaSeparated(ts[1..], ps[1..]) {
        CommaSeparatedUncommas(ts[1..], ps[1..]);
      } else {
        CommaSeparatedUncommas(ts[2..], ps[1..]);
        assert ts[1..][0] == Punct(",") && ts[1..][1..] == ts[2..];
      }
    }
  }

  /** Reading one parameter, then the optional comma, then the remaining parameters. */
  lemma {:induction false} ParamsGlue(toks: seq<Token>, pos: nat, after: nat, q: nat, p: Token, ps: seq<Token>)
    requires pos < after <= q <= |toks| && toks[pos] == p
    requires after == pos + 1 || (after == pos + 2 && toks[pos + 1] == Punct(","))
    requires CommaSeparated(toks[after..q], ps)
    ensures CommaSeparated(toks[pos..q], [p] + ps)
  {
    var ts := toks[pos..q];
    assert ([p] + ps)[0] == p && ([p] + ps)[1..] == ps;
    assert ts[1..] == toks[pos + 1..q];
    if after == pos + 2 {
      assert ts[2..] == toks[pos + 2..q];
    }
  }

  /** Two readings side by side are one reading. */
  lemma {:induction false} Glue(toks: seq<Token>, i: nat, j: nat, k: nat, a: seq<Token>, b: seq<Token>)
    requires i <= j <= k <= |toks|
    requires Uncommas(toks[i..j]) == a && Uncommas(toks[j..k]) == b
    ensures Uncommas(toks[i..k]) == a + b
  {
    assert toks[i..k] == toks[i..j] + toks[j..k];
    UncommasAppend(toks[i..j], toks[j..k]);
  }

  /** An exact reading without commas, then any reading. */
  lemma {:induction false} ExactGlue(toks: seq<Token>, i: nat, j: nat, k: nat, a: seq<Token>, b: seq<Token>)
    requires i <= j <= k <= |toks|
    requires toks[i..j] == a && CommaFree(a) && Uncommas(toks[j..k]) == b
    ensures Uncommas(toks[i..k]) == a + b
  {
    UncommasFree(a);
    Glue(toks, i, j, k, a, b);
  }

  /** A reading followed by one more token that is not a comma. */
  lemma {:induction false} Trail(toks: seq<Token>, i: nat, j: nat, a: seq<Token>, t: Token)
    requires i <= j < |toks| && toks[j] == t && t != Punct(",")
    requires Uncommas(toks[i..j]) == a
    ensures Uncommas(toks[i..j + 1]) == a + [t]
  {
    assert toks[j..j + 1] == [t];
    assert Uncommas([t]) == [t] + Uncommas([t][1..]);
    assert [t][1..] == [];
    Glue(toks, i, j, j + 1, a, [t]);
  }

  /** One token that is not a comma, followed by a reading. */
  lemma {:induction false} Lead(toks: seq<Token>, i: nat, j: nat, t: Token, b: seq<Token>)
    requires i < j <= |toks| && toks[i] == t && t != Punct(",")
    requires Uncommas(toks[i + 1..j]) == b
    ensures Uncommas(toks[i..j]) == [t] + b
  {
    assert toks[i..j][0] == t && toks[i..j][1..] == toks[i + 1..j];
  }

  lemma {:induction false} DeclsCons(d: Decl, ds: seq<Decl>)
    ensures DeclsTokens([d] + ds) == DeclTokens(d) + DeclsTokens(ds)
  {
    assert ([d] + ds)[0] == d && ([d] + ds)[1..] == ds;
  }

  lemma {:induction false} MethodsCons(f: Function, fs: seq<Function>)
    ensures MethodsTokens([f] + fs) == FunctionTokens(f) + MethodsTokens(fs)
  {
    assert ([f] + fs)[0] == f && ([f] + fs)[1..] == fs;
  }

  /** The head and the block of a `for` statement read one after the other. */
  lemma {:induction false} ForGlue(toks: seq<Token>, pos: nat, c: nat, q: nat,
                                   i: Assignment, cond: Expr, u: Expr, body: Program)
    requires pos <= c <= q <= |toks| && ValidAssignment(i) && IsLeftFold(cond) && IsLeftFold(u)
    requires toks[pos..c] == ForInitTokens(i) + (TerminatedTokens(cond, ";") + TerminatedTokens(u, ")"))
    requires Uncommas(toks[c..q]) == BlockTokens(body)
    ensures Uncommas(toks[pos..q]) == DeclTokens(For(i, cond, u, body))
  {
    var head := ForInitTokens(i) + (TerminatedTokens(cond, ";") + TerminatedTokens(u, ")"));
    AssignmentCommaFree(i);
    TerminatedCommaFree(cond, ";");
    TerminatedCommaFree(u, ")");
    ExactGlue(toks, pos, c, q, head, BlockTokens(body));
    assert head == ForInitTokens(i) + TerminatedTokens(cond, ";") + TerminatedTokens(u, ")");
  }

  /** The guard, the block and the optional `else` of a conditional read one after the other. */
  lemma {:induction false} ConditionalGlue(toks: seq<Token>, pos: nat, g: nat, k: nat, q: nat,
                                           c: Expr, t: Program, e: Option<Program>)
    requires pos <= g <= k <= q <= |toks|
    requires toks[pos..g] == GuardTokens("if", c) && IsLeftFold(c)
    requires Uncommas(toks[g..k]) == BlockTokens(t) && Uncommas(toks[k..q]) == ElseTokens(e)
    ensures Uncommas(toks[pos..q]) == DeclTokens(Conditional(c, t, e))
  {
    TerminatedCommaFree(c, ")");
    ExactGlue(toks, pos, g, k, GuardTokens("if", c), BlockTokens(t));
    Glue(toks, pos, k, q, GuardTokens("if", c) + BlockTokens(t), ElseTokens(e));
  }

  /** The head, the methods and the closing `}` of a class read one after the other. */
  lemma {:induction false} ClassGlue(toks: seq<Token>, pos: nat, a: nat, z: nat, name: Token, ms: seq<Function>, d: Decl)
    requires pos <= a <= z < |toks| && toks[z] == Punct("}")
    requires toks[pos..a] == NamedTokens("class", name, "{") && name.kind == Identifier
    requires Uncommas(toks[a..z]) == MethodsTokens(ms) && d == ClassDecl(name, ms)
    ensures Uncommas(toks[pos..z + 1]) == DeclTokens(d)
  {
    ExactGlue(toks, pos, a, z, NamedTokens("class", name, "{"), MethodsTokens(ms));
    Trail(toks, pos, z, NamedTokens("class", name, "{") + MethodsTokens(ms), Punct("}"));
  }

  /** `{`, a program and `}` read one after the other. */
  lemma {:induction false} BlockGlue(toks: seq<Token>, pos: nat, z: nat, p: Program)
    requires pos < z < |toks| && toks[pos] == Punct("{") && toks[z] == Punct("}")
    requires Uncommas(toks[pos + 1..z]) == ProgramTokens(p)
    ensures Uncommas(toks[pos..z + 1]) == BlockTokens(p)
  {
    Lead(toks, pos, z, Punct("{"), ProgramTokens(p));
    Trail(toks, pos, z, [Punct("{")] + ProgramTokens(p), Punct("}"));
  }
}
