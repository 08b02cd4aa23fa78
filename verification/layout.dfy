/** Where a sequence of tokens sits inside a longer one. `HasAt` is stated one token at a
    time so that a proof about the parser only learns the tokens it asks for. */
module Layout {
  import opened Tokens

  /** `toks` holds exactly `ts` from position `i` up to position `j`. */
  predicate Spans(toks: seq<Token>, i: int, j: int, ts: seq<Token>) {
    0 <= i <= j <= |toks| && toks[i..j] == ts
  }

  /** `toks` holds `ts` from position `pos` on. */
  predicate HasAt(toks: seq<Token>, pos: nat, ts: seq<Token>)
    decreases ts
  {
    pos + |ts| <= |toks| && (ts == [] || (toks[pos] == ts[0] && HasAt(toks, pos + 1, ts[1..])))
  }

  lemma {:induction false} HasAtIff(toks: seq<Token>, pos: nat, ts: seq<Token>)
    ensures HasAt(toks, pos, ts) <==> pos + |ts| <= |toks| && toks[pos..pos + |ts|] == ts
    decreases ts
  {
    if ts != [] && pos + |ts| <= |toks| {
      HasAtIff(toks, pos + 1, ts[1..]);
      assert toks[pos..pos + |ts|] == [toks[pos]] + toks[pos + 1..pos + |ts|];
      assert ts == [ts[0]] + ts[1..];
    }
  }

  lemma {:induction false} Split(toks: seq<Token>, pos: nat, a: seq<Token>, b: seq<Token>)
    requires HasAt(toks, pos, a + b)
    ensures HasAt(toks, pos, a) && HasAt(toks, pos + |a|, b)
  {
    HasAtIff(toks, pos, a + b);
    HasAtIff(toks, pos, a);
    HasAtIff(toks, pos + |a|, b);
    assert toks[pos..pos + |a|] == (a + b)[..|a|];
    assert toks[pos + |a|..pos + |a| + |b|] == (a + b)[|a|..];
  }

  lemma {:induction false} Head(toks: seq<Token>, pos: nat, ts: seq<Token>)
    requires HasAt(toks, pos, ts) && |ts| > 0
    ensures toks[pos] == ts[0]
  {
  }

  lemma {:induction false} Heads2(toks: seq<Token>, pos: nat, a: Token, b: Token)
    requires HasAt(toks, pos, [a, b])
    ensures toks[pos] == a && toks[pos + 1] == b
  {
    assert [a, b][1..] == [b];
  }

  lemma {:induction false} Heads3(toks: seq<Token>, pos: nat, a: Token, b: Token, c: Token)
    requires HasAt(toks, pos, [a, b, c])
    ensures toks[pos] == a && toks[pos + 1] == b && toks[pos + 2] == c
  {
    HasAtIff(toks, pos, [a, b, c]);
    assert toks[pos..pos + 3][1] == b && toks[pos..pos + 3][2] == c;
  }

  lemma {:induction false} SliceCons(toks: seq<Token>, i: nat, j: nat)
    requires i < j <= |toks|
    ensures toks[i..j] == [toks[i]] + toks[i + 1..j]
  {
  }

  lemma {:induction false} SliceCons2(toks: seq<Token>, i: nat, j: nat)
    requires i + 2 <= j <= |toks|
    ensures toks[i..j] == [toks[i], toks[i + 1]] + toks[i + 2..j]
  {
  }

  lemma {:induction false} SliceCons3(toks: seq<Token>, i: nat, j: nat)
    requires i + 3 <= j <= |toks|
    ensures toks[i..j] == [toks[i], toks[i + 1], toks[i + 2]] + toks[i + 3..j]
  {
  }

  lemma {:induction false} SliceSnoc(toks: seq<Token>, i: nat, j: nat)
    requires i <= j < |toks|
    ensures toks[i..j + 1] == toks[i..j] + [toks[j]]
  {
  }

  lemma {:induction false} Regroup(a: seq<Token>, x: Token, y: Token, b: seq<Token>)
    ensures a + [x] + [y] + b == a + ([x, y] + b)
  {
  }

  lemma {:induction false} SliceJoin(toks: seq<Token>, i: nat, j: nat, k: nat)
    requires i <= j <= k <= |toks|
    ensures toks[i..k] == toks[i..j] + toks[j..k]
  {
  }

}
