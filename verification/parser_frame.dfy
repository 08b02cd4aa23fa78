/** The parser reads no further than one token past the cursor it returns: a successful
    parse is decided by the tokens up to and including the one it stops on. In particular
    a top-level program that stops at a stray `}` ignores everything after it
    (trabajof.js:46, 190). */
module ParserFrame {
  import opened Wrappers
  import opened Tokens
  import opened Syntax
  import opened Parser
  import opened ParserProperties

  /** `t1` and `t2` have the same first `n` tokens. */
  predicate Agree(t1: seq<Token>, t2: seq<Token>, n: nat) {
    n <= |t1| && n <= |t2| && forall i :: 0 <= i < n ==> t1[i] == t2[i]
  }

  /** A sequence agrees with any extension of its own first `n` elements. */
  lemma {:induction false} AgreeWithPrefix(toks: seq<Token>, rest: seq<Token>, n: nat)
    requires n <= |toks|
    ensures Agree(toks, toks[..n] + rest, n)
  {
  }

  lemma {:induction false} FrameConsume(t1: seq<Token>, t2: seq<Token>, pos: nat, kind: Class, text: Option<string>)
    requires Consume(t1, pos, kind, text).Ok? && Agree(t1, t2, pos + 1)
    ensures Consume(t2, pos, kind, text) == Consume(t1, pos, kind, text)
  {
    assert t1[pos] == t2[pos];
  }

  lemma {:induction false} FrameExprTail(t1: seq<Token>, t2: seq<Token>, pos: nat, acc: Expr)
    requires pos <= |t1|
    requires ParseExprTail(t1, pos, acc).Ok? && Agree(t1, t2, ParseExprTail(t1, pos, acc).value.next + 1)
    ensures pos <= |t2| && ParseExprTail(t2, pos, acc) == ParseExprTail(t1, pos, acc)
    decreases |t1| - pos
  {
    assert t1[pos] == t2[pos];
    if IsBinaryOp(t1[pos]) {
      var grown := Operation(t1[pos], acc, Leaf(t1[pos + 1]));
      assert ParseExprTail(t1, pos, acc) == ParseExprTail(t1, pos + 2, grown);
      assert t1[pos + 1] == t2[pos + 1];
      FrameExprTail(t1, t2, pos + 2, grown);
    }
  }

  lemma {:induction false} FrameExpression(t1: seq<Token>, t2: seq<Token>, pos: nat)
    requires pos <= |t1|
    requires ParseExpression(t1, pos).Ok? && Agree(t1, t2, ParseExpression(t1, pos).value.next + 1)
    ensures pos <= |t2| && ParseExpression(t2, pos) == ParseExpression(t1, pos)
  {
    assert t1[pos] == t2[pos];
    FrameExprTail(t1, t2, pos + 1, Leaf(t1[pos]));
  }

  lemma {:induction false} FrameTerminated(t1: seq<Token>, t2: seq<Token>, pos: nat, closer: string)
    requires pos <= |t1|
    requires ParseTerminated(t1, pos, closer).Ok? && Agree(t1, t2, ParseTerminated(t1, pos, closer).value.next + 1)
    ensures pos <= |t2| && ParseTerminated(t2, pos, closer) == ParseTerminated(t1, pos, closer)
  {
    TerminatedUnfold(t1, pos, closer);
    var e := ParseExpression(t1, pos).value;
    FrameExpression(t1, t2, pos);
    assert t1[e.next] == t2[e.next];
    TerminatedStep(t2, pos, closer, e.node, e.next);
  }

  lemma {:induction false} FrameAssignment(t1: seq<Token>, t2: seq<Token>, pos: nat)
    requires pos <= |t1|
    requires ParseAssignment(t1, pos).Ok? && Agree(t1, t2, ParseAssignment(t1, pos).value.next + 1)
    ensures pos <= |t2| && ParseAssignment(t2, pos) == ParseAssignment(t1, pos)
  {
    assert t1[pos] == t2[pos] && t1[pos + 1] == t2[pos + 1] && t1[pos + 2] == t2[pos + 2];
    FrameTerminated(t1, t2, pos + 3, ";");
  }

  lemma {:induction false} FrameParams(t1: seq<Token>, t2: seq<Token>, pos: nat)
    requires pos <= |t1|
    requires ParseParams(t1, pos).Ok? && Agree(t1, t2, ParseParams(t1, pos).value.next + 1)
    ensures pos <= |t2| && ParseParams(t2, pos) == ParseParams(t1, pos)
    decreases |t1| - pos
  {
    assert t1[pos] == t2[pos];
    if t1[pos].text != ")" {
      assert t1[pos + 1] == t2[pos + 1];
      var after := SkipComma(t1, pos + 1).value;
      FrameParams(t1, t2, after);
    }
  }

  lemma {:induction false} FrameExprStmt(t1: seq<Token>, t2: seq<Token>, pos: nat)
    requires pos <= |t1|
    requires ParseExprStmt(t1, pos).Ok? && Agree(t1, t2, ParseExprStmt(t1, pos).value.next + 1)
    ensures pos <= |t2| && ParseExprStmt(t2, pos) == ParseExprStmt(t1, pos)
  {
    FrameTerminated(t1, t2, pos, ";");
  }

  lemma {:induction false} FrameNamed(t1: seq<Token>, t2: seq<Token>, pos: nat, word: string, open: string)
    requires pos <= |t1|
    requires ParseNamed(t1, pos, word, open).Ok? && Agree(t1, t2, ParseNamed(t1, pos, word, open).value.next + 1)
    ensures pos <= |t2| && ParseNamed(t2, pos, word, open) == ParseNamed(t1, pos, word, open)
  {
    assert t1[pos] == t2[pos] && t1[pos + 1] == t2[pos + 1] && t1[pos + 2] == t2[pos + 2];
  }

  lemma {:induction false} FrameParamList(t1: seq<Token>, t2: seq<Token>, pos: nat)
    requires pos <= |t1|
    requires ParseParamList(t1, pos).Ok? && Agree(t1, t2, ParseParamList(t1, pos).value.next + 1)
    ensures pos <= |t2| && ParseParamList(t2, pos) == ParseParamList(t1, pos)
  {
    FrameParams(t1, t2, pos);
    var params := ParseParams(t1, pos).value;
    assert t1[params.next] == t2[params.next];
  }

  lemma {:induction false} FrameForInit(t1: seq<Token>, t2: seq<Token>, pos: nat)
    requires pos <= |t1|
    requires ParseForInit(t1, pos).Ok? && Agree(t1, t2, ParseForInit(t1, pos).value.next + 1)
    ensures pos <= |t2| && ParseForInit(t2, pos) == ParseForInit(t1, pos)
  {
    assert t1[pos] == t2[pos] && t1[pos + 1] == t2[pos + 1];
    FrameAssignment(t1, t2, pos + 2);
  }

  lemma {:induction false} FrameProgram(t1: seq<Token>, t2: seq<Token>, pos: nat)
    requires pos <= |t1|
    requires ParseProgram(t1, pos).Ok? && Agree(t1, t2, ParseProgram(t1, pos).value.next + 1)
    ensures pos <= |t2| && ParseProgram(t2, pos) == ParseProgram(t1, pos)
    decreases |t1| - pos, 3
  {
    assert t1[pos] == t2[pos];
    if t1[pos].text != "}" {
      var d := ParseDeclaration(t1, pos).value;
      FrameDeclaration(t1, t2, pos);
      FrameProgram(t1, t2, d.next);
    }
  }

  lemma {:induction false} FrameBlock(t1: seq<Token>, t2: seq<Token>, pos: nat)
    requires pos <= |t1|
    requires ParseBlock(t1, pos).Ok? && Agree(t1, t2, ParseBlock(t1, pos).value.next + 1)
    ensures pos <= |t2| && ParseBlock(t2, pos) == ParseBlock(t1, pos)
    decreases |t1| - pos, 4
  {
    assert t1[pos] == t2[pos];
    assert Consume(t1, pos, Delimiter, Some("{")) == Consume(t2, pos, Delimiter, Some("{"));
    FrameProgram(t1, t2, pos + 1);
    var body := ParseProgram(t1, pos + 1).value;
    assert t1[body.next] == t2[body.next];
    assert Consume(t1, body.next, Delimiter, Some("}")) == Consume(t2, body.next, Delimiter, Some("}"));
  }

  lemma {:induction false} FrameDeclaration(t1: seq<Token>, t2: seq<Token>, pos: nat)
    requires pos < |t1|
    requires ParseDeclaration(t1, pos).Ok? && Agree(t1, t2, ParseDeclaration(t1, pos).value.next + 1)
    ensures pos < |t2| && ParseDeclaration(t2, pos) == ParseDeclaration(t1, pos)
    decreases |t1| - pos, 2
  {
    var t := t1[pos];
    assert t == t2[pos];
    if t.kind == Keyword && t.text == "let" {
      FrameAssignment(t1, t2, pos);
    } else if t.kind == Keyword && t.text == "if" {
      FrameConditional(t1, t2, pos);
    } else if t.kind == Keyword && t.text == "while" {
      FrameWhile(t1, t2, pos);
    } else if t.kind == Keyword && t.text == "for" {
      FrameFor(t1, t2, pos);
    } else if t.kind == Keyword && t.text == "class" {
      FrameClass(t1, t2, pos);
    } else if t.kind == Keyword && t.text == "function" {
      FrameFunction(t1, t2, pos);
    } else {
      FrameExprStmt(t1, t2, pos);
    }
  }

  lemma {:induction false} FrameConditional(t1: seq<Token>, t2: seq<Token>, pos: nat)
    requires pos <= |t1|
    requires ParseConditional(t1, pos).Ok? && Agree(t1, t2, ParseConditional(t1, pos).value.next + 1)
    ensures pos <= |t2| && ParseConditional(t2, pos) == ParseConditional(t1, pos)
    decreases |t1| - pos, 0
  {
    FrameGuard(t1, t2, pos, "if");
    var cond := ParseGuard(t1, pos, "if").value;
    FrameBlock(t1, t2, cond.next);
    var consequent := ParseBlock(t1, cond.next).value;
    FrameElse(t1, t2, consequent.next);
  }

  lemma {:induction false} FrameGuard(t1: seq<Token>, t2: seq<Token>, pos: nat, word: string)
    requires pos <= |t1|
    requires ParseGuard(t1, pos, word).Ok? && Agree(t1, t2, ParseGuard(t1, pos, word).value.next + 1)
    ensures pos <= |t2| && ParseGuard(t2, pos, word) == ParseGuard(t1, pos, word)
  {
    assert t1[pos] == t2[pos] && t1[pos + 1] == t2[pos + 1];
    FrameTerminated(t1, t2, pos + 2, ")");
  }

  lemma {:induction false} FrameElse(t1: seq<Token>, t2: seq<Token>, pos: nat)
    requires pos <= |t1|
    requires ParseElse(t1, pos).Ok? && Agree(t1, t2, ParseElse(t1, pos).value.next + 1)
    ensures pos <= |t2| && ParseElse(t2, pos) == ParseElse(t1, pos)
    decreases |t1| - pos, 5
  {
    assert t1[pos] == t2[pos];
    if t1[pos].kind == Keyword && t1[pos].text == "else" {
      FrameBlock(t1, t2, pos + 1);
    }
  }

  lemma {:induction false} FrameWhile(t1: seq<Token>, t2: seq<Token>, pos: nat)
    requires pos <= |t1|
    requires ParseWhile(t1, pos).Ok? && Agree(t1, t2, ParseWhile(t1, pos).value.next + 1)
    ensures pos <= |t2| && ParseWhile(t2, pos) == ParseWhile(t1, pos)
    decreases |t1| - pos, 0
  {
    FrameGuard(t1, t2, pos, "while");
    var cond := ParseGuard(t1, pos, "while").value;
    FrameBlock(t1, t2, cond.next);
  }

  lemma {:induction false} FrameFor(t1: seq<Token>, t2: seq<Token>, pos: nat)
    requires pos <= |t1|
    requires ParseFor(t1, pos).Ok? && Agree(t1, t2, ParseFor(t1, pos).value.next + 1)
    ensures pos <= |t2| && ParseFor(t2, pos) == ParseFor(t1, pos)
    decreases |t1| - pos, 0
  {
    FrameForHead(t1, t2, pos);
    var head := ParseForHead(t1, pos).value;
    FrameBlock(t1, t2, head.next);
  }

  lemma {:induction false} FrameForHead(t1: seq<Token>, t2: seq<Token>, pos: nat)
    requires pos <= |t1|
    requires ParseForHead(t1, pos).Ok? && Agree(t1, t2, ParseForHead(t1, pos).value.next + 1)
    ensures pos <= |t2| && ParseForHead(t2, pos) == ParseForHead(t1, pos)
  {
    FrameForInit(t1, t2, pos);
    var init := ParseForInit(t1, pos).value;
    FrameForSteps(t1, t2, init.next);
  }

  lemma {:induction false} FrameForSteps(t1: seq<Token>, t2: seq<Token>, pos: nat)
    requires pos <= |t1|
    requires ParseForSteps(t1, pos).Ok? && Agree(t1, t2, ParseForSteps(t1, pos).value.next + 1)
    ensures pos <= |t2| && ParseForSteps(t2, pos) == ParseForSteps(t1, pos)
  {
    FrameTerminated(t1, t2, pos, ";");
    var cond := ParseTerminated(t1, pos, ";").value;
    FrameTerminated(t1, t2, cond.next, ")");
  }

  lemma {:induction false} FrameClass(t1: seq<Token>, t2: seq<Token>, pos: nat)
    requires pos <= |t1|
    requires ParseClass(t1, pos).Ok? && Agree(t1, t2, ParseClass(t1, pos).value.next + 1)
    ensures pos <= |t2| && ParseClass(t2, pos) == ParseClass(t1, pos)
    decreases |t1| - pos, 0
  {
    FrameNamed(t1, t2, pos, "class", "{");
    FrameMethods(t1, t2, pos + 3);
    var methods := ParseMethods(t1, pos + 3).value;
    assert t1[methods.next] == t2[methods.next];
  }

  lemma {:induction false} FrameMethods(t1: seq<Token>, t2: seq<Token>, pos: nat)
    requires pos <= |t1|
    requires ParseMethods(t1, pos).Ok? && Agree(t1, t2, ParseMethods(t1, pos).value.next + 1)
    ensures pos <= |t2| && ParseMethods(t2, pos) == ParseMethods(t1, pos)
    decreases |t1| - pos, 1
  {
    assert t1[pos] == t2[pos];
    if t1[pos].text != "}" {
      var f := ParseFunction(t1, pos).value;
      FrameFunction(t1, t2, pos);
      FrameMethods(t1, t2, f.next);
    }
  }

  lemma {:induction false} FrameFunction(t1: seq<Token>, t2: seq<Token>, pos: nat)
    requires pos <= |t1|
    requires ParseFunction(t1, pos).Ok? && Agree(t1, t2, ParseFunction(t1, pos).value.next + 1)
    ensures pos <= |t2| && ParseFunction(t2, pos) == ParseFunction(t1, pos)
    decreases |t1| - pos, 0
  {
    FrameNamed(t1, t2, pos, "function", "(");
    FrameParamList(t1, t2, pos + 3);
    var params := ParseParamList(t1, pos + 3).value;
    FrameBlock(t1, t2, params.next);
  }

  /** A top-level program that stops before the end of the tokens stops at a `}`, and
      whatever follows that `}` does not change the result. */
  lemma {:induction false} StrayBraceEndsParse(toks: seq<Token>, rest: seq<Token>, q: nat)
    requires ParseProgram(toks, 0).Ok? && q == ParseProgram(toks, 0).value.next && q < |toks|
    ensures toks[q].text == "}" && Parse(toks[..q + 1] + rest) == Parse(toks)
  {
    AgreeWithPrefix(toks, rest, q + 1);
    StopsAtBrace(toks, toks[..q + 1] + rest);
  }


  lemma {:induction false} StopsAtBrace(t1: seq<Token>, t2: seq<Token>)
    requires ParseProgram(t1, 0).Ok? && Agree(t1, t2, ParseProgram(t1, 0).value.next + 1)
    ensures Parse(t2) == Parse(t1)
  {
    FrameProgram(t1, t2, 0);
  }
}
