# Lexer and parser of a small teaching language

`trabajof.js` is the front end of a small JavaScript-like teaching language. It has two
stages.

- **`analizarLexico`** turns source text into tokens. At each cursor position it tries six
  regular expressions in a fixed order: keyword, operator, delimiter, identifier, constant,
  whitespace. Each one is anchored with `^` at the remaining input. The first that matches
  wins, the cursor moves by the length of the match, and whitespace is dropped. When nothing
  matches, lexing aborts and reports the rest of the input.
- **`analizarSintaxis`** is a recursive-descent parser with one shared cursor. It handles
  programs, `let` assignments, `if`/`else`, `while`, `for`, classes of methods, functions
  with parameter lists, expression statements, and flat left-folded expressions over
  identifier and constant terms. `consumir` is the only step that moves the cursor, and the
  first mismatch aborts the whole parse.

This project models both stages in Dafny as pure functions:

- The lexer works on the remaining input (`seq<char>`). Each regular expression becomes a
  hand-written ASCII scanner that reproduces the engine's `\b` and backtracking behaviour.
- The parser is a set of mutually recursive functions over `seq<Token>` and an explicit
  cursor. Each returns `Result<Parsed<Node>, SyntaxError>`.

A thrown error becomes `Err`:

- A lexical error carries the unmatched suffix.
- A syntax error carries what was expected and the token found, or `None` past the end.

Modules, in dependency order:

| module | file | contents |
|---|---|---|
| `Wrappers` | wrappers.dfy | `Option`, `Result` |
| `Tokens` | tokens.dfy | token classes, the keyword list, character classes, well-formed token texts |
| `Scanners` | scanners.dfy | one scanner per pattern, pattern priority, the winning step |
| `Lexer` | lexer.dfy | the lexer loop, the reference definitions `Texts` and `Squeeze` |
| `LexerProperties` | lexer_properties.dfy | priority and tie-break, constant backtracking, the operator quirk, reconstruction |
| `LexerExamples` | lexer_examples.dfy | concrete lexer runs |
| `Syntax` | syntax.dfy | the tree, syntax errors, the shape of valid trees, the printer from trees to tokens |
| `Parser` | parser.dfy | the productions |
| `Layout` | layout.dfy | helper facts about where a token sequence sits inside another |
| `Reading` | reading.dfy | token sequences compared with their commas dropped, and the parameter-list reading |
| `ParserProperties` | parser_properties.dfy | expressions are exactly left folds; dispatch; empty programs |
| `ParserFrame` | parser_frame.dfy | a parse depends only on the tokens up to one past its end |
| `ParserRoundTrip` | parser_roundtrip.dfy | every valid tree, printed, parses back to itself |
| `ParserSpans` | parser_spans.dfy | what each declaration-level production consumes is the printed tree it returns |
| `ParserExamples` | parser_examples.dfy | concrete parser runs |
| `ProgramExamples` | program_examples.dfy | source text lexed and then parsed |

### Behaviour of the code that differs from a plain reading of its grammar

These are modelled as written.

- **The operator pattern is only partly anchored.** In `^[+\-*/=<>!]=?|==|!=|\+\+|--` the
  `^` binds only to the first alternative. So when no operator character is at the
  cursor, `==`, `!=`, `++` and `--` are searched for anywhere in the rest of the input.
  The leftmost one found is emitted, and the cursor still moves by 2 from where it was.
  - `a==b` lexes to `==`, `=`, `b`, and the `a` is lost (`LexerExamples.EqualsQuirkTokens`).
  - `x++;` lexes to `++`, `+`, `;`, which the parser rejects at `++`
    (`ProgramExamples.IncrementRejected`). `++` on its own lexes to two `+`.
  - The reconstruction property (`LexerProperties.TokenizeReconstructs`) therefore assumes
    that none of these four pairs occurs in the input.
- **The constant pattern backtracks.** `\b\d+(\.\d+)?\b` gives up the fraction when no
  word boundary follows it. `1.5a` therefore yields `1` and `.`, and then fails at `5a`.
- **`return` has no production.** It is lexed as a keyword, so it falls through to the
  expression statement and is rejected by `parseTermino` as the first term, not by
  declaration dispatch.
- **Commas between parameters are optional.** A comma is consumed only when it is present,
  so `a b` is accepted as two parameters, as is a trailing comma before `)`.
- **There are two sources of syntax errors.** They come from `consumir` and also from
  `parseTermino`.
- **Reading past the end of the tokens is also a syntax error.** In the code this is a
  `TypeError` rather than a thrown `Error`. It happens at lines 150, 172 and 182, and
  here it is a syntax error with `found == None`. The unguarded comma test at line 150
  reports `AnyToken`.
- **The top-level parse does not have to consume all tokens.** A stray `}` ends the program,
  and everything after it is ignored.

## Model

| member | source | states |
|---|---|---|
| Scanners.Span | trabajof.js:8-10 | the greedy run `\w*`, `\d+`, `\s+`: every character before the result lies in the class, the one at the result does not (or the input ends) |
| Scanners.FirstKeyword | trabajof.js:5 | the first alternative, in the order of the keyword list, that matches as a whole word; no earlier one does |
| Scanners.KeywordScan | trabajof.js:5 | a match is a reserved word found at the start as a whole word, and the cursor moves by its length; no match means no reserved word matches there |
| Scanners.FindPair | trabajof.js:19-20 | the unanchored alternatives are found at their leftmost occurrence: a pair there and none before; none means no pair anywhere from the start index |
| Scanners.OperatorScan | trabajof.js:6 | at an operator character, the anchored `[+\-*/=<>!]=?` match: the prefix of length 2 when the next character is `=`, else of length 1; otherwise, a match is the leftmost of `==`, `!=`, `++`, `--` anywhere in the rest of the input, with the cursor moving by 2; no match exactly when neither applies; every match has an operator text and moves the cursor by its length |
| Scanners.DelimiterScan | trabajof.js:7 | matches exactly at a delimiter character, taking that one character |
| Scanners.IdentifierScan | trabajof.js:8 | matches exactly at a letter or `_`, taking the whole run of word characters |
| Scanners.ConstantScan | trabajof.js:9 | a match is a numeral prefix of the input followed by a word boundary |
| Scanners.WhitespaceScan | trabajof.js:10 | matches exactly at whitespace, taking the whole whitespace run |
| Scanners.ScanClassFacts | trabajof.js:4-11 | no pattern matches the empty string; every match is a well-formed token of its class; the matched text is the consumed prefix except on the unanchored operator path |
| Scanners.Winner | trabajof.js:18-30 | the first pattern in priority order that matches; every earlier one fails |
| Scanners.FirstMatch | trabajof.js:18-30 | the winning step is the result of its pattern, every higher-priority pattern fails, the cursor moves by 1 to the length of the input, and the text is a well-formed token; no step means no pattern matches |
| Lexer.Tokenize | trabajof.js:13-37 | empty input gives no tokens; no emitted token is whitespace; an error reports a suffix at which no pattern matches |
| Lexer.TokenizeErrorIsSuffix | trabajof.js:32-33 | the reported text is a non-empty suffix of the input: the input from the cursor on |
| Lexer.TokenizeWellFormed | trabajof.js:15-29 | every emitted token is a well-formed token of its class |
| LexerProperties.KeywordIsWord | trabajof.js:5 | every reserved word is a non-empty run of word characters |
| LexerProperties.FirstMatchIs | trabajof.js:18-28 | a pattern that matches when all earlier ones fail is the winner |
| LexerProperties.KeywordAtIsWholeWord | trabajof.js:5 | `\b(k)\b` matches at the start exactly when `k` is the whole word there |
| LexerProperties.WordClassification | trabajof.js:5-28 | input that starts with a letter and contains none of the four pairs yields its whole maximal word, as a keyword exactly when that word is reserved and as an identifier otherwise, so `letter` or `classroom` is one identifier |
| LexerProperties.KeywordScanOnWord | trabajof.js:5 | at a letter, the keyword pattern matches exactly when the whole word is reserved, and then takes the whole word |
| LexerProperties.KeywordWins | trabajof.js:18-28 | a reserved word at the cursor becomes a keyword token |
| LexerProperties.IdentifierWins | trabajof.js:18-28 | a non-reserved word at the cursor becomes an identifier token spanning the whole word |
| LexerProperties.LetterScans | trabajof.js:6-8 | at a letter, without pairs, the operator and delimiter patterns fail and the identifier pattern takes the whole word |
| LexerProperties.NoPairsNoOperator | trabajof.js:6 | without pairs, the operator pattern matches exactly at an operator character |
| LexerProperties.LetterIsIdentifier | trabajof.js:7-8 | at a letter the delimiter pattern fails and the identifier pattern takes the whole word |
| LexerProperties.SpanIs | trabajof.js:8-10 | the greedy run length is the unique length whose prefix lies in the class and is followed by the end or a character outside it |
| LexerProperties.DigitsEnd | trabajof.js:9 | an all-digit prefix followed by a word boundary is the whole digit run |
| LexerProperties.FractionEnds | trabajof.js:9 | a digits-dot-digits prefix followed by a word boundary is the whole integer run, a dot and the whole run of digits after it |
| LexerProperties.NumeralEnds | trabajof.js:9 | every numeral prefix followed by a word boundary ends either after the integer run or after the fraction run |
| LexerProperties.ConstantIsLongest | trabajof.js:9 | the constant pattern's backtracking yields the longest numeral prefix followed by a word boundary, and no match when there is none |
| LexerProperties.FindPairFinds | trabajof.js:19-20 | the pair search returns a given index when a pair is there and none before |
| LexerProperties.OperatorQuirk | trabajof.js:19-26 | with no keyword and no operator character at the cursor, the leftmost later pair is emitted and the cursor moves by 2 |
| LexerProperties.StepIsPrefix | trabajof.js:19-26 | without pairs, every winning step's text is exactly the prefix the cursor moves over |
| LexerProperties.NumeralHasNoSpace | trabajof.js:9 | a numeral contains no whitespace |
| LexerProperties.TextHasNoSpace | trabajof.js:5-9 | only whitespace tokens contain whitespace |
| LexerProperties.StepSqueeze | trabajof.js:23-26 | the part of the input one step moves over, with whitespace removed, is what the step emits |
| LexerProperties.TokenizeReconstructs | trabajof.js:15-35 | without the four pairs, the concatenated token texts equal the input with all whitespace removed |
| LexerProperties.ReconstructStep | trabajof.js:23-26 | one emitted step and the reconstruction of the rest give the reconstruction of the whole |
| LexerProperties.PairAfterLetter | trabajof.js:5-26 | after a one-letter word, a pair of operator characters is the first match: the operator is those two characters and the cursor moves by 2, so the letter is never emitted |
| LexerProperties.KeywordsAreLong | trabajof.js:5 | every reserved word has at least two characters and starts with a letter |
| LexerProperties.NonWordNoKeyword | trabajof.js:5 | the keyword pattern never matches before a non-word character |
| LexerProperties.DigitNoKeyword | trabajof.js:5 | the keyword pattern never matches at a digit |
| LexerProperties.SingleLetterIdentifier | trabajof.js:8 | a one-letter word is an identifier |
| LexerProperties.DigitScans | trabajof.js:5-8 | at a digit, without pairs, the four patterns before the constant pattern fail |
| LexerProperties.ConstantWins | trabajof.js:18-28 | at a digit, without pairs, a constant match wins |
| LexerProperties.WinnerIsConstant | trabajof.js:18-28 | when only the constant pattern among the first five matches, it wins |
| LexerProperties.TokenizeFailsLater | trabajof.js:32-33 | an error later in the input is the error of the whole run: no recovery |
| LexerProperties.TokenizeSkips | trabajof.js:22-26 | a whitespace match emits nothing: the tokens are those of the rest of the input |
| LexerProperties.BlankStep | trabajof.js:4-28 | at a blank, in a text holding none of `==`, `!=`, `++`, `--`, the first match is whitespace of one character |
| LexerProperties.LexBlank | trabajof.js:17-28 | one blank before a non-space character, in a text without those pairs, is skipped: the tokens are those after it (with a pair further on, the operator pattern would win instead) |
| LexerProperties.LexOperatorChar | trabajof.js:4-28 | an operator character not followed by `=` is emitted as a one-character operator, followed by the tokens of the rest |
| LexerProperties.LetterStep | trabajof.js:4-28 | a one-letter word, in a text without the pairs, is the first match, as an identifier one character long |
| LexerProperties.LexLetter | trabajof.js:17-28 | a one-letter word, in a text without the pairs, is emitted as an identifier, followed by the tokens of the rest |
| LexerProperties.LexReserved | trabajof.js:4-28 | a reserved word that ends before a non-word character is emitted as a keyword, followed by the tokens of the rest |
| LexerProperties.WordHasNoPairs | trabajof.js:6 | a run of word characters contains none of the unanchored operator pairs |
| LexerProperties.WholeWordIdentifier | trabajof.js:15-37 | an input that is one non-reserved word lexes to exactly one identifier token holding the whole input |
| LexerProperties.WholeWordKeyword | trabajof.js:15-37 | an input that is exactly one reserved word lexes to exactly that keyword token |
| LexerExamples.EqualsQuirk | trabajof.js:19-26 | at `a==b` the unanchored `==` wins and the cursor moves by 2 |
| LexerExamples.LexB | trabajof.js:8 | `b` is one identifier |
| LexerExamples.LexEqB | trabajof.js:6 | `=b` is the operator `=` then the identifier `b` |
| LexerExamples.EqualsQuirkTokens | trabajof.js:19-26 | `a==b` lexes to `==`, `=`, `b`, losing `a` |
| LexerExamples.FractionGivenUp | trabajof.js:9 | the constant pattern matches only `1` in `1.5a` |
| LexerExamples.Lex5a | trabajof.js:32-33 | `5a` is a lexical error reporting `5a` |
| LexerExamples.LexDot5a | trabajof.js:32-33 | `.5a` fails with `5a` after the delimiter `.` |
| LexerExamples.FractionThenError | trabajof.js:32-33 | `1.5a` fails with `5a`: the fraction is given up, and nothing matches at `5a` |
| LexerExamples.UnknownCharacterFails | trabajof.js:32-33 | `@` is a lexical error reporting the whole input |
| LexerExamples.ClassroomNotReserved | trabajof.js:5 | `classroom` is not a reserved word |
| LexerExamples.ClassroomIsIdentifier | trabajof.js:8 | `classroom` lexes to one identifier, not `class` followed by `room` |
| LexerExamples.LetIsKeyword | trabajof.js:5 | `let` lexes to one keyword |
| LexerExamples.CompoundAssignment | trabajof.js:6 | `+=` lexes to one operator `+=` |
| LexerExamples.LexPlus | trabajof.js:6 | `+` lexes to one operator |
| LexerExamples.IncrementSplits | trabajof.js:6 | `++` lexes to two `+` operators, since the anchored single-character alternative is tried first |
| Parser.Consume | trabajof.js:181-188 | succeeds exactly when a token is at the cursor with the expected class and, if given, the expected text; then returns it and moves by one; otherwise reports the expectation and the token found, if any |
| Parser.ParseTerm | trabajof.js:171-179 | succeeds exactly on an identifier or constant token, returning it and moving by one; otherwise reports a term expected |
| Parser.ParseExprTail | trabajof.js:163-167 | stops at the first token that is not a binary operator; keeps a left fold a left fold; the tokens of the result are the tokens of the tree so far followed by exactly the tokens consumed; fails only on a missing term |
| Parser.ParseExpression | trabajof.js:161-169 | a success starts at a term, stops before a non-operator and builds a left fold whose tokens are exactly the tokens consumed; fails only on a missing term |
| Parser.ParseTerminated | trabajof.js:81-82 | a success builds a left fold, and the tokens consumed are exactly its tokens followed by the closing delimiter |
| Parser.ParseAssignment | trabajof.js:77-84 | a success yields a valid assignment, and the tokens consumed are exactly `let`, its name, `=`, its value and `;` |
| Parser.ParseParams | trabajof.js:148-153 | a success yields identifiers only and stops at the end or at a `)`; the tokens consumed are exactly those identifiers in order, each followed by at most one comma |
| Parser.SkipComma | trabajof.js:150-152 | a comma token is consumed and anything else is left; a `,` that is not a delimiter is an error; the end of the tokens is an error |
| Parser.ParseProgram | trabajof.js:44-50 | a success is a valid program that stops at the end or at a `}`, and it is empty exactly when it consumed nothing |
| Parser.ParseDeclaration | trabajof.js:52-75 | a success is a valid declaration that opens with the token of its form and ends with its closing token |
| Parser.ParseLet | trabajof.js:53-55 | a success is an assignment declaration from `let` to `;` |
| Parser.ParseFunctionDecl | trabajof.js:68-70 | a success is a function declaration from `function` to `}` |
| Parser.ParseExprStmt | trabajof.js:71-74 | a success is an expression statement, and the tokens consumed are exactly its expression and `;` |
| Parser.ParseBlock | trabajof.js:91-93 | a success is a valid program between a `{` and a `}` |
| Parser.ParseConditional | trabajof.js:86-104 | a success is a valid conditional from `if` to `}` |
| Parser.ParseGuard | trabajof.js:87-90 | a success yields a left fold, and the tokens consumed are exactly the keyword, `(`, its tokens and `)` |
| Parser.ParseElse | trabajof.js:96-101 | an alternative is present exactly when the token at the cursor is the keyword `else`, which is also exactly when tokens were consumed; the alternative is then a valid program read from `else` up to a `}` |
| Parser.ParseWhile | trabajof.js:106-115 | a success is a valid loop from `while` to `}` |
| Parser.ParseFor | trabajof.js:117-129 | a success is a valid loop from `for` to `}` |
| Parser.ParseForInit | trabajof.js:118-120 | a success yields a valid assignment, and the tokens consumed are exactly `for`, `(` and the assignment's tokens |
| Parser.ParseForHead | trabajof.js:118-124 | a success starts at `for`, and the tokens consumed are exactly the initialiser's tokens, then the condition with its `;` and the update with its `)` |
| Parser.ParseForSteps | trabajof.js:121-124 | a success yields two left folds, and the tokens consumed are exactly the condition, `;`, the update and `)` |
| Parser.ParseNamed | trabajof.js:132-134 | a success is exactly the three tokens keyword, identifier, opening delimiter, returning the identifier |
| Parser.ParseClass | trabajof.js:131-141 | a success is a valid class from `class` to `}` |
| Parser.ParseMethods | trabajof.js:136-138 | a success is a list of valid functions that stops at the end or at a `}`, empty exactly when nothing was consumed |
| Parser.ParseFunction | trabajof.js:143-159 | a success is a valid function from `function` to `}` |
| Parser.ParseParamList | trabajof.js:147-154 | a success yields identifiers only; the tokens consumed are those identifiers in order, each followed by at most one comma, and then `)` |
| Parser.Parse | trabajof.js:190 | a successful parse is a valid program |
| ParserProperties.LeftFoldStartsWithTerm | trabajof.js:161-166 | a left fold starts with a term token |
| ParserProperties.ExprTailReads | trabajof.js:163-167 | reading a left fold's tokens rebuilds it one operator and term at a time |
| ParserProperties.ExpressionReads | trabajof.js:161-169 | a left fold's tokens followed by a non-operator parse back to that fold |
| ParserProperties.ExpressionIff | trabajof.js:161-179 | an expression parses to `e`, stopping at `q`, exactly when `e` is a left fold whose tokens are those from the cursor to `q` and no binary operator follows |
| ParserProperties.UndispatchedKeywordFails | trabajof.js:52-75 | a keyword outside the six statement keywords, such as `return`, fails with a term expected at that keyword |
| ParserProperties.EmptyProgramIff | trabajof.js:44-50 | a program is empty and consumes nothing exactly when the cursor is at the end or on a `}` |
| ParserFrame.FrameConsume | trabajof.js:181-188 | a successful consume depends only on the tokens up to one past its end |
| ParserFrame.FrameExprTail | trabajof.js:163-167 | the same for the operator loop |
| ParserFrame.FrameExpression | trabajof.js:161-169 | the same for an expression |
| ParserFrame.FrameTerminated | trabajof.js:81-82 | the same for an expression and its closer |
| ParserFrame.FrameAssignment | trabajof.js:77-84 | the same for an assignment |
| ParserFrame.FrameParams | trabajof.js:148-153 | the same for the parameter loop |
| ParserFrame.FrameExprStmt | trabajof.js:72-74 | the same for an expression statement |
| ParserFrame.FrameNamed | trabajof.js:132-134 | the same for a named head |
| ParserFrame.FrameParamList | trabajof.js:147-154 | the same for a parameter list |
| ParserFrame.FrameForInit | trabajof.js:118-120 | the same for a `for` head |
| ParserFrame.FrameProgram | trabajof.js:44-50 | the same for a program |
| ParserFrame.FrameBlock | trabajof.js:91-93 | the same for a block |
| ParserFrame.FrameDeclaration | trabajof.js:52-75 | the same for a declaration |
| ParserFrame.FrameConditional | trabajof.js:86-104 | the same for a conditional |
| ParserFrame.FrameGuard | trabajof.js:87-90 | the same for a guard |
| ParserFrame.FrameElse | trabajof.js:96-101 | the same for an optional `else` |
| ParserFrame.FrameWhile | trabajof.js:106-115 | the same for a `while` loop |
| ParserFrame.FrameFor | trabajof.js:117-129 | the same for a `for` loop |
| ParserFrame.FrameForHead | trabajof.js:118-124 | the same for the head of a `for` loop |
| ParserFrame.FrameForSteps | trabajof.js:121-124 | the same for the condition and update of a `for` loop |
| ParserFrame.FrameClass | trabajof.js:131-141 | the same for a class |
| ParserFrame.FrameMethods | trabajof.js:136-138 | the same for the method loop |
| ParserFrame.FrameFunction | trabajof.js:143-159 | the same for a function |
| ParserFrame.StrayBraceEndsParse | trabajof.js:44-50 | a top-level program that stops before the end stops at a `}`, and replacing everything after that `}` does not change the result |
| ParserFrame.StopsAtBrace | trabajof.js:190 | the result depends only on the tokens up to the one the top-level program stops on |
| ParserRoundTrip.TermText | trabajof.js:148-150 | a term the lexer can produce is never `}`, `)` or `,` |
| ParserRoundTrip.DeclOpens | trabajof.js:52-75 | a printed declaration starts with the token its form dispatches on |
| ParserRoundTrip.TerminatedReads | trabajof.js:81-82 | a printed expression and its closer parse back |
| ParserRoundTrip.AssignmentReads | trabajof.js:77-84 | a printed assignment parses back |
| ParserRoundTrip.NamedReads | trabajof.js:132-134 | a printed named head parses back |
| ParserRoundTrip.GuardReads | trabajof.js:87-90 | a printed guard parses back |
| ParserRoundTrip.ForInitReads | trabajof.js:118-120 | a printed `for` head parses back |
| ParserRoundTrip.ParamsReads | trabajof.js:148-153 | printed parameters parse back and stop at the `)` |
| ParserRoundTrip.ParamListReads | trabajof.js:147-154 | a printed parameter list parses back |
| ParserRoundTrip.BlockReads | trabajof.js:91-93 | a printed block parses back |
| ParserRoundTrip.ProgramReads | trabajof.js:44-50 | a printed program followed by the end or a `}` parses back |
| ParserRoundTrip.DeclsReads | trabajof.js:44-50 | printed declarations followed by the end or a `}` parse back |
| ParserRoundTrip.DeclFirst | trabajof.js:46 | a printed declaration made of lexer tokens does not start with `}` or `else` |
| ParserRoundTrip.DeclReads | trabajof.js:52-75 | a printed declaration parses back, provided a conditional without `else` is not followed by `else` |
| ParserRoundTrip.CompoundReads | trabajof.js:56-67 | printed compound statements parse back through their production |
| ParserRoundTrip.ConditionalReads | trabajof.js:86-104 | a printed conditional parses back |
| ParserRoundTrip.ElseReads | trabajof.js:96-101 | a printed optional `else` parses back |
| ParserRoundTrip.WhileReads | trabajof.js:106-115 | a printed `while` loop parses back |
| ParserRoundTrip.ForReads | trabajof.js:117-129 | a printed `for` loop parses back |
| ParserRoundTrip.ClassReads | trabajof.js:131-141 | a printed class parses back |
| ParserRoundTrip.MethodsReads | trabajof.js:136-138 | printed methods followed by the end or a `}` parse back |
| ParserRoundTrip.FunctionReads | trabajof.js:143-159 | a printed function parses back |
| ParserRoundTrip.RoundTrip | trabajof.js:41-191 | every valid program whose tokens are lexer tokens, once printed, parses back to itself |
| Reading.ExprCommaFree | trabajof.js:161-179 | the tokens of a left fold hold no comma |
| Reading.CommaSeparatedUncommas | trabajof.js:148-153 | parameters read with optional commas are, commas dropped, exactly the parameters kept |
| Reading.ParamsGlue | trabajof.js:148-153 | one parameter, an optional comma and the reading of the remaining parameters read the whole list |
| ParserSpans.ProgramSpans | trabajof.js:44-50 | the tokens a program consumes are, commas dropped, exactly its printed tokens |
| ParserSpans.DeclarationSpans | trabajof.js:52-75 | the same for a declaration, whichever production it dispatches to |
| ParserSpans.LetSpans | trabajof.js:53-55 | an assignment declaration consumes exactly its printed tokens |
| ParserSpans.ExprStmtSpans | trabajof.js:71-74 | an expression statement consumes exactly its printed tokens |
| ParserSpans.BlockSpans | trabajof.js:91-93 | the same for a block: `{`, the program, `}` |
| ParserSpans.ConditionalSpans | trabajof.js:86-104 | the same for a conditional: guard, block and optional `else` |
| ParserSpans.ElseSpans | trabajof.js:96-101 | the same for an optional `else`: nothing, or `else` and a block |
| ParserSpans.WhileSpans | trabajof.js:106-115 | the same for a `while` loop |
| ParserSpans.ForSpans | trabajof.js:117-129 | the same for a `for` loop: head, condition and `;`, update and `)`, block |
| ParserSpans.ClassSpans | trabajof.js:131-141 | the same for a class: head, methods, `}` |
| ParserSpans.MethodsSpans | trabajof.js:136-138 | the same for the method loop |
| ParserSpans.FunctionSpans | trabajof.js:143-159 | the same for a function: head, parameter list, block |
| ParserSpans.ParamListSpans | trabajof.js:147-154 | a parameter list consumes, commas dropped, its parameters and the `)` |
| ParserSpans.ParseSpans | trabajof.js:41-191 | a successful parse has consumed, commas dropped, exactly the printed tokens of its program, from the first token up to the end or up to a `}` |
| ParserExamples.LetParses | trabajof.js:77-84 | the tokens the lexer gives for `let x = 1;` (ProgramExamples.LetLexed) parse to one assignment of `1` to `x` |
| ParserExamples.LetWithoutSemicolonFails | trabajof.js:181-185 | `let x = 1` fails expecting `;` at the end of the tokens |
| ParserExamples.IfParses | trabajof.js:86-104 | `if (a) { let b = 2; }` is a conditional with a one-assignment consequent and no alternative |
| ParserExamples.FoldsLeft | trabajof.js:161-168 | `a+b-c;` is `Operation(-, Operation(+, a, b), c)` |
| ParserExamples.IncrementEndsExpression | trabajof.js:161-169 | on the hand-made token sequence `x`, `++`, `;` (not one the lexer produces from text) `++` does not continue the expression, and the parse fails expecting `;` at `++` |
| ParserExamples.ParamsWithComma | trabajof.js:147-154 | `a,b)` is the parameters `a`, `b` with the comma skipped |
| ParserExamples.ReturnBodyFails | trabajof.js:52-72 | the block `{ return; }` fails expecting a term at `return`, since no production dispatches on it |
| ParserExamples.ReturnFails | trabajof.js:171-178 | `function f(a,b){ return; }` fails expecting a term at `return` |
| ParserExamples.StrayBraceIgnoresRest | trabajof.js:44-50 | `a; } )` parses as the single statement `a;` |
| ParserExamples.EmptyInput | trabajof.js:44-50 | no tokens give the empty program |
| ProgramExamples.LexSemicolon | trabajof.js:7 | `;` lexes to one delimiter |
| ProgramExamples.LexPlusSemicolon | trabajof.js:6-7 | `+;` lexes to `+`, `;` |
| ProgramExamples.IncrementQuirk | trabajof.js:19-26 | at `x++;` the unanchored `++` wins and the cursor moves by 2, dropping `x` |
| ProgramExamples.IncrementLexed | trabajof.js:15-37 | the text `x++;` lexes to `++`, `+`, `;` |
| ProgramExamples.IncrementRejected | trabajof.js:171-179 | the text `x++;`, lexed and then parsed, fails expecting a term at `++` |
| ProgramExamples.LexLetBefore | trabajof.js:4-28 | `let` before a non-word character lexes to the keyword `let` followed by the tokens of the rest |
| ProgramExamples.LetLexed | trabajof.js:2-38 | the text `let x = 1;` lexes to `let`, `x`, `=`, `1`, `;` |
| ProgramExamples.LetProgram | trabajof.js:77-84 | the text `let x = 1;`, lexed and then parsed, is one assignment of `1` to `x` |

## Left out

- The browser glue (trabajof.js:193-238) is not part of this model. That covers the event
  listeners, `JSON.stringify` output, highlighting and the valid/invalid indicator.
- The Spanish error messages are replaced by structured errors: the unmatched suffix, or the
  expectation and the token found.
- The difference between a thrown `Error` and the `TypeError` raised by reading
  `tokens[cursor]` past the end is not modelled. Both become a syntax error with
  `found == None`.
- JavaScript regular-expression semantics in general are not modelled; each pattern is a
  dedicated scanner. `\s` is ASCII whitespace only: space, tab, line feed, vertical tab,
  form feed and carriage return. The Unicode space characters JavaScript also matches are
  left out. Strings are sequences of characters, so UTF-16 surrogate pairs are not modelled.
- Parser.ParseProgram: its contract states the stop rule and validity, not the tokens read;
  ParserSpans.ProgramSpans states those with every comma dropped.
- Parser.ParseDeclaration: its contract states the opening and closing tokens of each form;
  ParserSpans.DeclarationSpans states the tokens read with every comma dropped.
- Parser.ParseBlock: its contract pins `{` and `}`; ParserSpans.BlockSpans states that the
  body is read from the tokens between them, with every comma dropped.
- Parser.ParseConditional: its contract states the shape and span; the exact guard tokens
  are stated by Parser.ParseGuard, and the whole span by ParserSpans.ConditionalSpans with
  every comma dropped.
- Parser.ParseElse: its contract states when the alternative is read and pins `else` and `}`; ParserSpans.ElseSpans states the
  tokens read with every comma dropped.
- Parser.ParseWhile: its contract states the shape and span; the exact guard tokens are
  stated by Parser.ParseGuard, and the whole span by ParserSpans.WhileSpans with every comma
  dropped.
- Parser.ParseFor: its contract states the shape and span; the exact head is stated by
  Parser.ParseForHead, and the whole span by ParserSpans.ForSpans with every comma dropped.
- Parser.ParseClass: its contract states the shape and span; ParserSpans.ClassSpans states
  the tokens read with every comma dropped.
- Parser.ParseMethods: its contract states the stop rule; ParserSpans.MethodsSpans states the
  tokens read with every comma dropped.
- Parser.ParseFunction: its contract states the shape and span; ParserSpans.FunctionSpans
  states the tokens read with every comma dropped. Where a comma may stand is stated
  exactly only inside parameter lists, by Parser.ParseParams and Parser.ParseParamList.
- Parser.Parse: its contract states only validity; ParserSpans.ParseSpans states that the
  program is, commas dropped, the tokens from the start up to the end or up to a `}`.
- Parser.ParseProgram and the other productions: which error a failing parse reports is
  fixed by the definitions and shown on concrete inputs. Only Consume, ParseTerm,
  SkipComma and the expression functions state their error cases in the contract.
- ParserRoundTrip.RoundTrip: the printer writes parameter lists without commas, so the
  round trip does not cover the comma path. ParserExamples.ParamsWithComma covers it on one
  input.
- LexerProperties.TokenizeReconstructs: holds only for inputs without `==`, `!=`, `++` and
  `--`. With them, the unanchored operator alternatives lose characters, as
  LexerExamples.EqualsQuirkTokens shows.
