/** The token vocabulary shared by the lexer and the parser, and the character classes
    its patterns are built from. JavaScript regular expressions without the `u` flag are
    ASCII-only for `\w`, `\d` and `[a-zA-Z_]`; `\s` is taken as ASCII whitespace here. */
module Tokens {

  /** The six pattern classes of the lexer, in the order they are declared. Whitespace is
      matched but never emitted as a token. */
  datatype Class = Keyword | Operator | Delimiter | Identifier | Constant | Whitespace

  /** An emitted token: its class and the exact text the pattern matched. */
  datatype Token = Token(kind: Class, text: string)

  /** The number of reserved words. */
  const KeywordCount: nat := 15

  /** The `i`-th reserved word, in the order of the keyword pattern's alternation. */
  function KeywordText(i: nat): string
    requires i < KeywordCount
  {
    match i
    case 0 => "let"
    case 1 => "if"
    case 2 => "else"
    case 3 => "while"
    case 4 => "for"
    case 5 => "class"
    case 6 => "function"
    case 7 => "return"
    case 8 => "const"
    case 9 => "var"
    case 10 => "switch"
    case 11 => "case"
    case 12 => "break"
    case 13 => "default"
    case _ => "continue"
  }

  predicate IsKeyword(w: string) {
    exists i :: 0 <= i < KeywordCount && KeywordText(i) == w
  }

  /** `[a-zA-Z_]` */
  predicate IsLetter(c: char) {
    'a' <= c <= 'z' || 'A' <= c <= 'Z' || c == '_'
  }

  /** `\d` */
  predicate IsDigit(c: char) {
    '0' <= c <= '9'
  }

  /** `\w` */
  predicate IsWordChar(c: char) {
    IsLetter(c) || IsDigit(c)
  }

  /** `\s`, restricted to ASCII: space, tab, line feed, vertical tab, form feed, carriage return. */
  predicate IsSpace(c: char) {
    c == ' ' || c == '\t' || c == '\n' || c == '\U{B}' || c == '\U{C}' || c == '\r'
  }

  // The class `[+\-*/=<>!]` of single-character operators.
  predicate IsOpChar(c: char) {
    c == '+' || c == '-' || c == '*' || c == '/' || c == '=' || c == '<' || c == '>' || c == '!'
  }

  /** `[(){};,.]` */
  predicate IsDelimiterChar(c: char) {
    c == '(' || c == ')' || c == '{' || c == '}' || c == ';' || c == ',' || c == '.'
  }

  /** The two-character alternatives `==`, `!=`, `++`, `--` of the operator pattern. */
  predicate IsPair(a: char, b: char) {
    (a == '=' && b == '=') || (a == '!' && b == '=') || (a == '+' && b == '+') || (a == '-' && b == '-')
  }

  /** The character classes a run of characters can be scanned for. */
  datatype CharClass = Word | Digit | Space

  predicate InClass(c: char, k: CharClass) {
    match k
    case Word => IsWordChar(c)
    case Digit => IsDigit(c)
    case Space => IsSpace(c)
  }

  predicate All(s: string, k: CharClass) {
    forall i :: 0 <= i < |s| ==> InClass(s[i], k)
  }

  // The language `[+\-*/=<>!]=?`: the anchored alternative of the operator pattern, and
  // also the language `^[+\-*/><=!]=?$` the parser accepts as a binary operator.
  predicate IsSimpleOperator(t: string) {
    (|t| == 1 && IsOpChar(t[0])) || (|t| == 2 && IsOpChar(t[0]) && t[1] == '=')
  }

  /** Every text the operator pattern can produce: a simple operator or one of the pairs. */
  predicate IsOperatorText(t: string) {
    IsSimpleOperator(t) || (|t| == 2 && IsPair(t[0], t[1]))
  }

  /** The language `\d+(\.\d+)?`. */
  predicate IsNumeral(t: string) {
    (|t| > 0 && All(t, Digit))
    || exists i :: 0 < i < |t| - 1 && t[i] == '.' && All(t[..i], Digit) && All(t[i + 1..], Digit)
  }

  /** What the text of a token of each class looks like. */
  predicate WellFormed(t: Token) {
    match t.kind
    case Keyword => IsKeyword(t.text)
    case Operator => IsOperatorText(t.text)
    case Delimiter => |t.text| == 1 && IsDelimiterChar(t.text[0])
    case Identifier => |t.text| > 0 && IsLetter(t.text[0]) && All(t.text, Word)
    case Constant => IsNumeral(t.text)
    case Whitespace => |t.text| > 0 && All(t.text, Space)
  }
}
