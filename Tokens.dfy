/** Tokens, token kinds, scanning errors and the character classes of the
    Oberon lexer (main.cpp). */
module Tokens {

  /** Every token kind the lexer declares. Only Eof, IntDec, IntHex, Real,
      Str and StrHex are ever produced: the operator, punctuation and keyword
      kinds have no scanner, and IntExp is never assigned. */
  datatype ClassName =
    | Eof
    | Add | Sub | Mul | Divide
    | Til | Apper | Dot | Comma | Semicolon | Pipe | LefBr | LefSqBr | LefFigBr
    | Assign | Pow | Eq | NoEq | Lat | Les | Great | LesOrEq | GreatOrEq | TwoDot | Colon
    | RightBr | RightSqBr | RightFigBr
    | Arr | Import | Begin | By | Case | Const | Div | Do | Else | Elif | End | False | If | In
    | Is | Mod | Modul | Nil | Of | Or | Pointer | Proc | Rec | Rep | Return | Then | To | True
    | Type | Until | Var | While | For
    | IntDec | IntHex | IntExp | Real | Str | StrHex

  /** A token: its kind and the characters it carries. */
  datatype Token = Token(className: ClassName, value: string)

  /** The token built by Token's default constructor: Eof with an empty value. */
  const EofToken: Token := Token(Eof, "")

  /** The kinds the scanner can actually produce. */
  predicate Producible(k: ClassName) {
    k in {Eof, IntDec, IntHex, Real, Str, StrHex}
  }

  /** The four conditions on which the lexer reports an error and exits. */
  datatype LexError =
    | UnterminatedString
    | UnterminatedComment
    | MalformedHex
    | MalformedExponent

  /** The outcome of a scan: a value, or the error that aborted it. */
  datatype Result<T> = Ok(value: T) | Err(error: LexError)

  /** Decimal digit, as a range test on the character code. */
  predicate IsDigit(c: char)
    ensures IsDigit(c) ==> !IsLetter(c) && c != '"' && c != '(' && c != ' ' && c != '\n'
  {
    '0' <= c <= '9'
  }

  /** Hexadecimal digit: a decimal digit or an upper-case A to F. */
  predicate IsHexDigit(c: char)
    ensures IsDigit(c) ==> IsHexDigit(c)
    ensures IsHexDigit(c) && !IsDigit(c) ==> IsLetter(c) && c != 'H' && c != 'X'
  {
    IsDigit(c) || ('A' <= c <= 'F')
  }

  /** ASCII letter of either case. */
  predicate IsLetter(c: char)
    ensures IsLetter(c) ==> c != '"' && c != '(' && c != ' ' && c != '\n'
  {
    ('a' <= c <= 'z') || ('A' <= c <= 'Z')
  }

  /** The character classes whose maximal runs the scanner consumes. */
  datatype CharClass = Zero | Digit | HexDigit | NotQuote | NotCloseParen

  predicate InClass(k: CharClass, c: char) {
    match k
    case Zero => c == '0'
    case Digit => IsDigit(c)
    case HexDigit => IsHexDigit(c)
    case NotQuote => c != '"'
    case NotCloseParen => c != ')'
  }
}
