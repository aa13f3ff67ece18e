/**
  Token kinds, tokens and the character classes of the calculator's lexer.
  Only ASCII is modelled: whitespace is the set Python's `str.isspace`
  accepts below 128, digits are '0'..'9'.
 */
module Tokens {

  /** The token types `INTEGER`, `PLUS`, `MINUS`, `MUL`, `DIV`, `LPAREN`, `RPAREN`, `EOF`. */
  datatype Kind = Integer | Plus | Minus | Mul | Div | LParen | RParen | Eof

  /** A token's value: the number of an INTEGER token, the character of an
      operator or parenthesis, nothing (Python's None) for EOF. */
  datatype TokenValue = Int(n: nat) | Sym(c: char) | Nothing

  datatype Token = Token(kind: Kind, value: TokenValue)

  /** The six single-character tokens. */
  predicate IsSymbol(c: char) {
    c == '+' || c == '-' || c == '*' || c == '/' || c == '(' || c == ')'
  }

  function SymbolKind(c: char): (k: Kind)
    requires IsSymbol(c)
    ensures k != Integer && k != Eof
  {
    match c
    case '+' => Plus
    case '-' => Minus
    case '*' => Mul
    case '/' => Div
    case '(' => LParen
    case _ => RParen
  }

  function SymbolChar(k: Kind): (c: char)
    requires k != Integer && k != Eof
    ensures IsSymbol(c) && SymbolKind(c) == k
  {
    match k
    case Plus => '+'
    case Minus => '-'
    case Mul => '*'
    case Div => '/'
    case LParen => '('
    case RParen => ')'
  }

  lemma SymbolRoundTrip(c: char)
    requires IsSymbol(c)
    ensures SymbolChar(SymbolKind(c)) == c
  {
  }

  /** The tokens the lexer builds: INTEGER carries a number, the symbol kinds
      carry their own character, EOF carries nothing. */
  predicate WellFormed(t: Token) {
    match t.value
    case Int(_) => t.kind == Integer
    case Sym(c) => IsSymbol(c) && SymbolKind(c) == t.kind
    case Nothing => t.kind == Eof
  }

  type WfToken = t: Token | WellFormed(t) witness Token(Eof, Nothing)

  const EofToken: WfToken := Token(Eof, Nothing)

  /** ASCII characters for which Python's `str.isspace` holds. */
  predicate IsSpace(c: char) {
    c == ' ' || ('\t' <= c <= '\r') || ('\U{1C}' <= c <= '\U{1F}')
  }

  predicate IsDigit(c: char) {
    '0' <= c <= '9'
  }

  /** The ASCII characters `str.isspace` accepts: space, tab through carriage
      return, and the separators FS, GS, RS and US. */
  const AsciiSpaces: string := [' ', '\t', '\n', '\U{0B}', '\U{0C}', '\r', '\U{1C}', '\U{1D}', '\U{1E}', '\U{1F}']

  /** Whitespace is exactly the listed characters, and is neither a digit nor a symbol. */
  lemma SpacesListed(c: char)
    ensures IsSpace(c) <==> c in AsciiSpaces
    ensures IsSpace(c) ==> !IsDigit(c) && !IsSymbol(c)
  {
  }

  /** A digit is one of `0`-`9`, and never a symbol. */
  lemma DigitsListed(c: char)
    ensures IsDigit(c) <==> c in "0123456789"
    ensures IsDigit(c) ==> !IsSymbol(c)
  {
  }

  function DigitValue(c: char): (d: nat)
    requires IsDigit(c)
    ensures d < 10
  {
    c as int - '0' as int
  }

  function DigitChar(d: nat): (c: char)
    requires d < 10
    ensures IsDigit(c) && DigitValue(c) == d
  {
    ('0' as int + d) as char
  }

  predicate AllDigits(s: string) {
    forall k :: 0 <= k < |s| ==> IsDigit(s[k])
  }

  /** Python's `int(s)` on a string of ASCII digits: its base-10 value,
      leading zeros included (`int("007") == 7`). */
  function NumeralValue(s: string): (v: nat)
    requires AllDigits(s)
    ensures v < Pow10(|s|)
    ensures |s| > 0 && s[0] != '0' ==> Pow10(|s| - 1) <= v
  {
    if s == [] then 0 else NumeralValue(s[..|s| - 1]) * 10 + DigitValue(s[|s| - 1])
  }

  /** `10` to the power `n`. */
  function Pow10(n: nat): (p: nat)
    ensures p >= 1
  {
    if n == 0 then 1 else 10 * Pow10(n - 1)
  }

  /** The canonical decimal numeral of `n`: no sign, no leading zero. */
  function Digits(n: nat): (s: string)
    ensures |s| > 0 && AllDigits(s)
    ensures n >= 10 ==> s[0] != '0'
  {
    if n < 10 then [DigitChar(n)] else Digits(n / 10) + [DigitChar(n % 10)]
  }

  /** Reading back a printed numeral gives the number. */
  lemma {:induction false} NumeralValueOfDigits(n: nat)
    ensures NumeralValue(Digits(n)) == n
  {
    if n >= 10 {
      var s := Digits(n);
      assert s[..|s| - 1] == Digits(n / 10);
      NumeralValueOfDigits(n / 10);
    }
  }
}
