/** The lexer `analizarLexico` (trabajof.js:2-38). */
module Lexer {
  import opened Wrappers
  import opened Tokens
  import opened Scanners

  /** No pattern matched at the cursor; `rest` is the input from the cursor on
      (trabajof.js:32-33). */
  datatype LexError = Unrecognized(rest: string)

  /** The lexer's outer loop (trabajof.js:15-35), written on the remaining input: the loop
      state is `codigoFuente.slice(cursor)`. The winning step moves the cursor; whitespace
      is dropped, every other class is emitted; the first position where nothing matches
      aborts the whole run. */
  function Tokenize(s: string): (r: Result<seq<Token>, LexError>)
    decreases |s|
    ensures s == [] ==> r == Ok([])
    ensures r.Ok? ==> forall t :: t in r.value ==> t.kind != Whitespace
    ensures r.Err? ==> FirstMatch(r.error.rest).None?
  {
    if |s| == 0 then
      Ok([])
    else
      match FirstMatch(s)
      case None => Err(Unrecognized(s))
      case Some(step) =>
        var tail := s[step.advance..];
        match Tokenize(tail)
        case Err(e) => Err(e)
        case Ok(rest) =>
          if step.kind == Whitespace then Ok(rest)
          else
            var t := Token(step.kind, step.text);
            assert forall u :: u in [t] + rest ==> u == t || u in rest;
            Ok([t] + rest)
  }

  /** `rest` is a suffix of `s`. */
  predicate EndsWith(s: string, rest: string) {
    |rest| <= |s| && s[|s| - |rest|..] == rest
  }

  /** The error reports the input from the cursor on: a non-empty suffix of the input
      (trabajof.js:32-33). */
  lemma {:induction false} TokenizeErrorIsSuffix(s: string)
    decreases |s|
    ensures Tokenize(s).Err? ==> 0 < |Tokenize(s).error.rest| && EndsWith(s, Tokenize(s).error.rest)
  {
    if Tokenize(s).Err? {
      var step := FirstMatch(s);
      if step.None? {
        SuffixOfSuffix(s, 0, s);
      } else {
        var tail := s[step.value.advance..];
        TokenizeErrorIsSuffix(tail);
        SuffixOfSuffix(s, step.value.advance, Tokenize(tail).error.rest);
      }
    }
  }

  /** A suffix of a suffix of `s` is a suffix of `s`. */
  lemma {:induction false} SuffixOfSuffix(s: string, a: nat, r: string)
    requires a <= |s| && EndsWith(s[a..], r)
    ensures EndsWith(s, r)
  {
  }

  /** Every emitted token is a well-formed token of its class. */
  lemma {:induction false} TokenizeWellFormed(s: string)
    decreases |s|
    ensures Tokenize(s).Ok? ==> forall t :: t in Tokenize(s).value ==> WellFormed(t)
  {
    if |s| > 0 && Tokenize(s).Ok? {
      var step := FirstMatch(s).value;
      var tail := s[step.advance..];
      TokenizeWellFormed(tail);
      var rest := Tokenize(tail).value;
      if step.kind != Whitespace {
        var t := Token(step.kind, step.text);
        assert Tokenize(s).value == [t] + rest;
        assert forall u :: u in [t] + rest ==> u == t || u in rest;
      }
    }
  }

  /** The token texts, concatenated. */
  function Texts(ts: seq<Token>): string {
    if ts == [] then [] else ts[0].text + Texts(ts[1..])
  }

  /** `s` with every whitespace character removed. */
  function Squeeze(s: string): string {
    if s == [] then [] else (if IsSpace(s[0]) then [] else [s[0]]) + Squeeze(s[1..])
  }
}
