/** What the Oberon lexer of main.cpp promises, stated as lemmas about the
    reference functions of module Scan (which the Lexer class is proved to
    follow). Literal shapes are given by run ends: IsRun(src, i, s, Zero)
    says the leading zeros starting at i end at s, and so on. */
module Properties {
  import opened Tokens
  import opened Scan

  /** A character that keeps a digit run going in the number scanner. */
  predicate ContinuesNumber(c: char) {
    IsDigit(c) || ('A' <= c <= 'F') || c == 'H' || c == 'X' || c == '.'
  }

  /** A character next() steps over without starting any scanner. */
  predicate Ignored(c: char) {
    !IsDigit(c) && !IsLetter(c) && c != '"' && c != '('
  }

  /** The character at m is stepped over by next(): a blank, a newline, an
      ignored character, or a '(' that does not open a comment. */
  predicate SkippedAt(src: string, m: nat)
    requires m < |src|
  {
    src[m] == ' ' || src[m] == '\n' || Ignored(src[m]) ||
    (src[m] == '(' && (m + 1 == |src| || src[m + 1] != '*'))
  }

  // ---------------------------------------------------------------- numbers

  /** A number's value is the slice that ends at the cursor; everything
      between the start and the value is a '0', and the value never starts
      with '0'. */
  lemma NumberValueIsConsumedSlice(src: string, i: nat)
    requires i <= |src|
    ensures ScanNumber(src, i).Ok? ==>
              var (t, p) := ScanNumber(src, i).value;
              i <= p - |t.value| && t.value == src[p - |t.value|..p] &&
              (forall m :: i <= m < p - |t.value| ==> src[m] == '0') &&
              (t.value == [] || t.value[0] != '0')
  {
    var s := RunEnd(src, i, Zero);
    if ScanNumber(src, i).Ok? {
      var (t, p) := ScanNumber(src, i).value;
      assert p - |t.value| == s;
      if t.value != [] {
        assert t.value[0] == src[s];
      }
    }
  }

  /** A run of digits after the leading zeros that ends at the end of input or
      at a character that cannot continue a number gives IntDec, and that is
      the only way to get IntDec. The terminator is not consumed. */
  lemma DecimalInteger(src: string, i: nat, s: nat, d: nat)
    requires IsRun(src, i, s, Zero) && IsRun(src, s, d, Digit)
    ensures (d == |src| || !ContinuesNumber(src[d])) <==>
              ScanNumber(src, i).Ok? && ScanNumber(src, i).value.0.className == IntDec
    ensures d == |src| || !ContinuesNumber(src[d]) ==>
              ScanNumber(src, i) == Ok((Token(IntDec, src[s..d]), d))
  {
    RunEndUnique(src, i, s, Zero);
    RunEndUnique(src, s, d, Digit);
  }

  /** A literal made only of zeros gives IntDec with an empty value. */
  lemma AllZeros(src: string, i: nat, s: nat)
    requires IsRun(src, i, s, Zero) && (s == |src| || !ContinuesNumber(src[s]))
    ensures ScanNumber(src, i) == Ok((Token(IntDec, ""), s))
  {
    RunEndUnique(src, s, s, Digit);
    DecimalInteger(src, i, s, s);
    assert src[s..s] == "";
  }

  /** Once an 'A'..'F' follows the digits, the maximal hex-digit run is taken
      and must be ended by 'H' (IntHex) or 'X' (StrHex), which is kept in the
      value; any other character or the end of input is an error. */
  lemma HexLiteral(src: string, i: nat, s: nat, d: nat, h: nat)
    requires IsRun(src, i, s, Zero) && IsRun(src, s, d, Digit)
    requires d < |src| && 'A' <= src[d] <= 'F'
    requires IsRun(src, d, h, HexDigit)
    ensures ScanNumber(src, i) ==
              if h < |src| && src[h] == 'H' then Ok((Token(IntHex, src[s..h + 1]), h + 1))
              else if h < |src| && src[h] == 'X' then Ok((Token(StrHex, src[s..h + 1]), h + 1))
              else Err(MalformedHex)
  {
    RunEndUnique(src, i, s, Zero);
    RunEndUnique(src, s, d, Digit);
    RunEndUnique(src, d, h, HexDigit);
  }

  /** A digit run ended directly by 'H' gives IntHex, and by 'X' StrHex; the
      terminator is consumed and kept. */
  lemma BareTerminator(src: string, i: nat, s: nat, d: nat)
    requires IsRun(src, i, s, Zero) && IsRun(src, s, d, Digit)
    requires d < |src| && (src[d] == 'H' || src[d] == 'X')
    ensures ScanNumber(src, i) ==
              Ok((Token(if src[d] == 'H' then IntHex else StrHex, src[s..d + 1]), d + 1))
  {
    RunEndUnique(src, i, s, Zero);
    RunEndUnique(src, s, d, Digit);
  }

  /** A '.' after the digits gives Real: the value runs through the
      fractional digits, and through an exponent when an 'E' follows them. */
  lemma RealWithoutExponent(src: string, i: nat, s: nat, d: nat, f: nat)
    requires IsRun(src, i, s, Zero) && IsRun(src, s, d, Digit)
    requires d < |src| && src[d] == '.'
    requires IsRun(src, d + 1, f, Digit) && (f == |src| || src[f] != 'E')
    ensures ScanNumber(src, i) == Ok((Token(Real, src[s..f]), f))
  {
    RunEndUnique(src, i, s, Zero);
    RunEndUnique(src, s, d, Digit);
    RunEndUnique(src, d + 1, f, Digit);
  }

  /** After 'E' and an optional sign, at least one digit is required;
      without it the literal is an error. g is the offset after the sign. */
  lemma RealWithExponent(src: string, i: nat, s: nat, d: nat, f: nat, g: nat)
    requires IsRun(src, i, s, Zero) && IsRun(src, s, d, Digit)
    requires d < |src| && src[d] == '.'
    requires IsRun(src, d + 1, f, Digit) && f < |src| && src[f] == 'E'
    requires g == if f + 1 < |src| && (src[f + 1] == '+' || src[f + 1] == '-') then f + 2 else f + 1
    ensures g == |src| || !IsDigit(src[g]) ==> ScanNumber(src, i) == Err(MalformedExponent)
    ensures forall e: nat :: g < |src| && IsDigit(src[g]) && IsRun(src, g, e, Digit) ==>
              ScanNumber(src, i) == Ok((Token(Real, src[s..e]), e))
  {
    RunEndUnique(src, i, s, Zero);
    RunEndUnique(src, s, d, Digit);
    RunEndUnique(src, d + 1, f, Digit);
    forall e: nat | g < |src| && IsDigit(src[g]) && IsRun(src, g, e, Digit)
      ensures ScanNumber(src, i) == Ok((Token(Real, src[s..e]), e))
    {
      RunEndUnique(src, g, e, Digit);
    }
  }

  /** An 'E' right after the integer digits is a hex digit, not an exponent:
      "12E5" is an unterminated hex literal and "12E5H" an IntHex. */
  lemma ExponentNeedsDot()
    ensures ScanNext("12E5", 0) == Err(MalformedHex)
    ensures ScanNext("12E5H", 0) == Ok((Token(IntHex, "12E5H"), 5))
  {
    var a := "12E5";
    assert a[0] == '1' && a[1] == '2' && a[2] == 'E' && a[3] == '5';
    HexLiteral(a, 0, 0, 2, 4);
    var b := "12E5H";
    assert b[0] == '1' && b[1] == '2' && b[2] == 'E' && b[3] == '5' && b[4] == 'H';
    HexLiteral(b, 0, 0, 2, 4);
    assert b[0..5] == "12E5H";
  }

  // ---------------------------------------------------------------- strings

  /** At a '"', next() returns the characters up to the next '"' and moves
      just past it. */
  lemma StringLiteral(src: string, i: nat, j: nat)
    requires i < j < |src| && src[i] == '"' && src[j] == '"'
    requires forall m :: i < m < j ==> src[m] != '"'
    ensures ScanNext(src, i) == Ok((Token(Str, src[i + 1..j]), j + 1))
  {
    RunEndUnique(src, i + 1, j, NotQuote);
  }

  /** A '"' with no closing quote after it is an error. */
  lemma UnclosedString(src: string, i: nat)
    requires i < |src| && src[i] == '"'
    requires forall m :: i < m < |src| ==> src[m] != '"'
    ensures ScanNext(src, i) == Err(UnterminatedString)
  {
    RunEndUnique(src, i + 1, |src|, NotQuote);
  }

  // --------------------------------------------------------------- comments

  /** A comment "(*" runs to the first ')' after its '(' and yields no token:
      next() goes on from just past that ')'. */
  lemma CommentSkipped(src: string, i: nat, j: nat)
    requires i + 1 < j < |src| && src[i] == '(' && src[i + 1] == '*' && src[j] == ')'
    requires forall m :: i < m < j ==> src[m] != ')'
    ensures ScanNext(src, i) == ScanNext(src, j + 1)
  {
    RunEndUnique(src, i, j, NotCloseParen);
  }

  /** "(*" with no ')' after it, including "(*" at the very end, is an error. */
  lemma UnclosedComment(src: string, i: nat)
    requires i + 1 < |src| && src[i] == '(' && src[i + 1] == '*'
    requires forall m :: i < m < |src| ==> src[m] != ')'
    ensures ScanNext(src, i) == Err(UnterminatedComment)
  {
    RunEndUnique(src, i, |src|, NotCloseParen);
  }

  /** The ')' inside "(* ) 5 *)" closes the comment, so 5 is scanned. */
  lemma CommentEndsAtFirstParen()
    ensures ScanNext("(* ) 5 *)", 0) == Ok((Token(IntDec, "5"), 6))
  {
    var src := "(* ) 5 *)";
    assert src[5..6] == "5";
    assert src[0] == '(' && src[1] == '*' && src[2] == ' ' && src[3] == ')';
    assert src[4] == ' ' && src[5] == '5' && src[6] == ' ';
    CommentSkipped(src, 0, 3);
    assert ScanNext(src, 4) == ScanNext(src, 5);
    RunEndUnique(src, 5, 5, Zero);
    RunEndUnique(src, 5, 6, Digit);
    DecimalInteger(src, 5, 5, 6);
  }

  // ------------------------------------------------------------ cursor, Eof

  /** Blanks, newlines, a '(' that opens no comment and characters no scanner
      starts on give no token: next() goes on at the following character. */
  lemma SkippedCharacter(src: string, i: nat)
    requires i < |src| && SkippedAt(src, i)
    ensures ScanNext(src, i) == ScanNext(src, i + 1)
  {
  }

  /** Input made only of characters next() steps over yields Eof at the end
      of input. */
  lemma {:induction false} SkippedSuffixGivesEof(src: string, i: nat)
    requires i <= |src|
    requires forall m :: i <= m < |src| ==> SkippedAt(src, m)
    ensures ScanNext(src, i) == Ok((EofToken, |src|))
    decreases |src| - i
  {
    if i < |src| {
      SkippedCharacter(src, i);
      SkippedSuffixGivesEof(src, i + 1);
    }
  }

  /** A letter stops next() without moving the cursor: the identifier
      scanner is a stub that returns Eof. */
  lemma LetterGivesEof(src: string, i: nat)
    requires i < |src| && IsLetter(src[i])
    ensures ScanNext(src, i) == Ok((EofToken, i))
  {
  }

  /** Once next() has returned Eof, every further call returns Eof again and
      leaves the cursor where it is. */
  lemma EofIsAbsorbing(src: string, i: nat)
    requires i <= |src| && ScanNext(src, i).Ok? && ScanNext(src, i).value.0.className == Eof
    ensures ScanNext(src, ScanNext(src, i).value.1) == ScanNext(src, i)
  {
    ScanNextShape(src, i);
    var p := ScanNext(src, i).value.1;
    if p < |src| {
      LetterGivesEof(src, p);
    }
  }

  // ----------------------------------------------------------- token stream

  /** A non-Eof token is followed by the stream from the cursor it leaves. */
  lemma TokenizeStep(src: string, i: nat, t: Token, p: nat, ts: seq<Token>)
    requires i <= |src| && ScanNext(src, i) == Ok((t, p)) && t.className != Eof
    requires p <= |src| && Tokenize(src, p) == Ok(ts)
    ensures Tokenize(src, i) == Ok([t] + ts)
  {
  }

  /** At a position where next() returns Eof the stream is empty. */
  lemma TokenizeEnd(src: string, i: nat)
    requires i <= |src| && ScanNext(src, i).Ok? && ScanNext(src, i).value.0.className == Eof
    ensures Tokenize(src, i) == Ok([])
  {
  }

  /** Calls of next() that succeed one after the other, from ps[0] through
      ps[|ts|], where the last one returns Eof (after skipping whatever
      follows the last token), produce the stream ts. */
  lemma {:induction false} StreamOfSteps(src: string, ps: seq<nat>, ts: seq<Token>)
    requires |ps| == |ts| + 1 && ps[|ts|] <= |src|
    requires forall k :: 0 <= k < |ts| ==> ps[k] <= |src| && ScanNext(src, ps[k]) == Ok((ts[k], ps[k + 1]))
    requires forall k :: 0 <= k < |ts| ==> ts[k].className != Eof
    requires ScanNext(src, ps[|ts|]).Ok? && ScanNext(src, ps[|ts|]).value.0.className == Eof
    ensures Tokenize(src, ps[0]) == Ok(ts)
    decreases |ts|
  {
    if ts == [] {
      TokenizeEnd(src, ps[0]);
    } else {
      var ps', ts' := ps[1..], ts[1..];
      forall k | 0 <= k < |ts'|
        ensures ps'[k] <= |src| && ScanNext(src, ps'[k]) == Ok((ts'[k], ps'[k + 1]))
        ensures ts'[k].className != Eof
      {
        assert ps'[k] == ps[k + 1] && ps'[k + 1] == ps[k + 2] && ts'[k] == ts[k + 1];
      }
      StreamOfSteps(src, ps', ts');
      TokenizeStep(src, ps[0], ts[0], ps[1], ts');
      assert [ts[0]] + ts' == ts;
    }
  }

  /** A blank after the last token: "5\n" gives the single token IntDec "5",
      the final next() skipping the newline before it returns Eof. */
  lemma TrailingNewline()
    ensures Tokenize("5\n", 0) == Ok([Token(IntDec, "5")])
  {
    var src := "5\n";
    assert src[0..1] == "5";
    RunEndUnique(src, 0, 0, Zero);
    RunEndUnique(src, 0, 1, Digit);
    DecimalInteger(src, 0, 0, 1);
    assert ScanNext(src, 0) == Ok((Token(IntDec, "5"), 1));
    SkippedSuffixGivesEof(src, 1);
    StreamOfSteps(src, [0, 1], [Token(IntDec, "5")]);
  }
}
