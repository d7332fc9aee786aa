/** Reference definitions of what each scanning routine of the Oberon lexer
    (main.cpp) consumes and produces, as functions of the source text and a
    start offset. A successful scan returns its result and the offset where
    the cursor is left: just past the characters of a token, and on the
    closing ')' for the comment scanner. The imperative routines of module
    Lexing are proved equal to these. */
module Scan {
  import opened Tokens

  /** j is the end of the maximal run of class-k characters that starts at i. */
  predicate IsRun(src: string, i: nat, j: nat, k: CharClass) {
    i <= j <= |src| &&
    (forall m :: i <= m < j ==> InClass(k, src[m])) &&
    (j == |src| || !InClass(k, src[j]))
  }

  /** The offset at which a run of class-k characters starting at i ends. */
  function RunEnd(src: string, i: nat, k: CharClass): (r: nat)
    requires i <= |src|
    ensures IsRun(src, i, r, k)
    decreases |src| - i
  {
    if i < |src| && InClass(k, src[i]) then RunEnd(src, i + 1, k) else i
  }

  /** A run has exactly one end. */
  lemma RunEndUnique(src: string, i: nat, j: nat, k: CharClass)
    requires IsRun(src, i, j, k)
    ensures RunEnd(src, i, k) == j
  {
  }

  /** Block comment opened by the "(*" at i: the offset of the first ')' after
      the '(' (a closing "*)" is not looked for). */
  function SkipComment(src: string, i: nat): (r: Result<nat>)
    requires i + 1 < |src| && src[i] == '(' && src[i + 1] == '*'
    ensures r.Ok? ==>
              i + 1 < r.value < |src| && src[r.value] == ')' &&
              forall m :: i < m < r.value ==> src[m] != ')'
    ensures r.Err? ==>
              r.error == UnterminatedComment &&
              forall m :: i < m < |src| ==> src[m] != ')'
  {
    if i + 2 == |src| then Err(UnterminatedComment)
    else
      var j := RunEnd(src, i, NotCloseParen);
      if j == |src| then Err(UnterminatedComment) else Ok(j)
  }

  /** String literal opened by the '"' at i. */
  function ScanString(src: string, i: nat): (r: Result<(Token, nat)>)
    requires i < |src| && src[i] == '"'
    ensures r.Ok? ==>
              var (t, p) := r.value;
              i + 2 <= p <= |src| && src[p - 1] == '"' &&
              t == Token(Str, src[i + 1..p - 1]) &&
              forall m :: i < m < p - 1 ==> src[m] != '"'
    ensures r.Err? ==>
              r.error == UnterminatedString &&
              forall m :: i < m < |src| ==> src[m] != '"'
  {
    var j := RunEnd(src, i + 1, NotQuote);
    if j == |src| then Err(UnterminatedString)
    else Ok((Token(Str, src[i + 1..j]), j + 1))
  }

  /** The value and cursor of a number scan whose leading zeros end at s:
      the value is exactly the characters from s up to the cursor. */
  predicate ConsumedFrom(src: string, s: nat, r: Result<(Token, nat)>)
    requires r.Ok?
  {
    s <= r.value.1 <= |src| && r.value.0.value == src[s..r.value.1]
  }

  /** The hexadecimal branch: d is at the first 'A'..'F' after the digits
      that follow the leading zeros ending at s. */
  function ScanHex(src: string, s: nat, d: nat): (r: Result<(Token, nat)>)
    requires s <= d < |src|
    ensures r.Ok? ==> ConsumedFrom(src, s, r) && d < r.value.1 &&
                      r.value.0.className in {IntHex, StrHex}
  {
    var h := RunEnd(src, d, HexDigit);
    if h < |src| && src[h] == 'H' then Ok((Token(IntHex, src[s..h + 1]), h + 1))
    else if h < |src| && src[h] == 'X' then Ok((Token(StrHex, src[s..h + 1]), h + 1))
    else Err(MalformedHex)
  }

  /** The exponent of a real: f is at the 'E' that follows the fraction. */
  function ScanExponent(src: string, s: nat, f: nat): (r: Result<(Token, nat)>)
    requires s <= f < |src| && src[f] == 'E'
    ensures r.Ok? ==> ConsumedFrom(src, s, r) && f + 1 < r.value.1 && r.value.0.className == Real
    ensures r.Err? ==> r.error == MalformedExponent
  {
    var g: nat := if f + 1 < |src| && (src[f + 1] == '+' || src[f + 1] == '-') then f + 2 else f + 1;
    if g < |src| && IsDigit(src[g]) then
      var e := RunEnd(src, g, Digit);
      Ok((Token(Real, src[s..e]), e))
    else Err(MalformedExponent)
  }

  /** The real branch: d is at the '.' that follows the digits. */
  function ScanReal(src: string, s: nat, d: nat): (r: Result<(Token, nat)>)
    requires s <= d < |src|
    ensures r.Ok? ==> ConsumedFrom(src, s, r) && d < r.value.1 && r.value.0.className == Real
  {
    var f := RunEnd(src, d + 1, Digit);
    if f < |src| && src[f] == 'E' then ScanExponent(src, s, f)
    else Ok((Token(Real, src[s..f]), f))
  }

  /** Numeric literal starting at i: leading '0's are skipped, the value is
      everything consumed after them, and a digit at i is always consumed. */
  function ScanNumber(src: string, i: nat): (r: Result<(Token, nat)>)
    requires i <= |src|
    ensures r.Ok? ==> ConsumedFrom(src, RunEnd(src, i, Zero), r) &&
                      r.value.0.className in {IntDec, IntHex, StrHex, Real}
    ensures r.Ok? && i < |src| && IsDigit(src[i]) ==> i < r.value.1
  {
    var s := RunEnd(src, i, Zero);
    var d := RunEnd(src, s, Digit);
    if d < |src| && 'A' <= src[d] <= 'F' then ScanHex(src, s, d)
    else if d < |src| && src[d] == 'H' then Ok((Token(IntHex, src[s..d + 1]), d + 1))
    else if d < |src| && src[d] == 'X' then Ok((Token(StrHex, src[s..d + 1]), d + 1))
    else if d < |src| && src[d] == '.' then ScanReal(src, s, d)
    else Ok((Token(IntDec, src[s..d]), d))
  }

  /** One call of next() with the cursor at i. */
  function ScanNext(src: string, i: nat): (r: Result<(Token, nat)>)
    requires i <= |src|
    ensures r.Ok? ==> i <= r.value.1 <= |src|
    decreases |src| - i
  {
    if i == |src| then Ok((EofToken, i))
    else
      var c := src[i];
      if c == ' ' || c == '\n' then ScanNext(src, i + 1)
      else if c == '(' then
        if i + 1 < |src| && src[i + 1] == '*' then
          match SkipComment(src, i)
          case Err(e) => Err(e)
          case Ok(j) => ScanNext(src, j + 1)
        else ScanNext(src, i + 1)
      else if IsDigit(c) then ScanNumber(src, i)
      else if IsLetter(c) then Ok((EofToken, i))
      else if c == '"' then ScanString(src, i)
      else ScanNext(src, i + 1)
  }

  /** What one call of next() can return: only a kind some scanner produces;
      Eof only as the default token, and only at the end of the input or at
      a letter; any other token moves the cursor forward. */
  lemma {:induction false} ScanNextShape(src: string, i: nat)
    requires i <= |src|
    ensures ScanNext(src, i).Ok? ==>
              var (t, p) := ScanNext(src, i).value;
              Producible(t.className) &&
              (t.className == Eof ==> t == EofToken && (p == |src| || IsLetter(src[p]))) &&
              (t.className != Eof ==> i < p)
    decreases |src| - i
  {
    if i < |src| {
      var c := src[i];
      if c == ' ' || c == '\n' {
        ScanNextShape(src, i + 1);
      } else if c == '(' {
        if i + 1 < |src| && src[i + 1] == '*' {
          if SkipComment(src, i).Ok? {
            ScanNextShape(src, SkipComment(src, i).value + 1);
          }
        } else {
          ScanNextShape(src, i + 1);
        }
      } else if !IsDigit(c) && !IsLetter(c) && c != '"' {
        ScanNextShape(src, i + 1);
      }
    }
  }

  /** The tokens a caller sees when it calls next() from offset i until it
      gets Eof (the Eof token itself is not included). */
  function Tokenize(src: string, i: nat): (r: Result<seq<Token>>)
    requires i <= |src|
    ensures r.Ok? ==> forall t :: t in r.value ==> t.className != Eof && Producible(t.className)
    decreases |src| - i
  {
    ScanNextShape(src, i);
    match ScanNext(src, i)
    case Err(e) => Err(e)
    case Ok((t, p)) =>
      if t.className == Eof then Ok([])
      else
        match Tokenize(src, p)
        case Err(e) => Err(e)
        case Ok(ts) => Ok([t] + ts)
  }
}
