/** The input of the demonstration in main.cpp (main.cpp:231) and the token
    stream that next() yields for it, one token per lemma. */
module MainExample {
  import opened Tokens
  import opened Scan
  import opened Properties

  /** The demonstration input, written as its tokens with their separators
      (equal, character for character, to the string literal in main.cpp). */
  function DemoSource(): (s: string)
    ensures |s| == 61
  {
    "123 " + "1A123H " + "(* 123 *) " + "0123.E+10 " + "0ABCD123X " + "228X " + "\"Hey there\" " + "123"
  }

  /** "123" then a blank: IntDec "123". */
  lemma FirstDecimal(src: string)
    requires src == DemoSource()
    ensures ScanNext(src, 0) == Ok((Token(IntDec, "123"), 3))
  {
    assert src[0..3] == "123";
    assert src[0] == '1' && src[1] == '2' && src[2] == '3' && src[3] == ' ';
    assert RunEnd(src, 0, Zero) == 0 && RunEnd(src, 0, Digit) == 3;
  }

  /** "1A123H": the A starts the hexadecimal branch and H ends it. */
  lemma HexInteger(src: string)
    requires src == DemoSource()
    ensures ScanNext(src, 3) == Ok((Token(IntHex, "1A123H"), 10))
  {
    assert src[4..10] == "1A123H";
    assert src[3] == ' ' && src[4] == '1' && src[5] == 'A' && src[6] == '1' && src[7] == '2';
    assert src[8] == '3' && src[9] == 'H';
    assert RunEnd(src, 4, Zero) == 4 && RunEnd(src, 4, Digit) == 5 && RunEnd(src, 5, HexDigit) == 9;
  }

  /** "(* 123 *)" ends at its ')' and gives no token. */
  lemma CommentSkippedBeforeReal(src: string)
    requires src == DemoSource()
    ensures ScanNext(src, 10) == ScanNext(src, 21)
  {
    assert src[10] == ' ' && src[11] == '(' && src[12] == '*' && src[13] == ' ' && src[14] == '1';
    assert src[15] == '2' && src[16] == '3' && src[17] == ' ' && src[18] == '*' && src[19] == ')';
    assert src[20] == ' ';
    assert RunEnd(src, 11, NotCloseParen) == 19;
    assert ScanNext(src, 10) == ScanNext(src, 20);
  }

  /** "0123.E+10": the leading zero is dropped; E, sign and digits follow the '.'. */
  lemma RealAfterComment(src: string)
    requires src == DemoSource()
    ensures ScanNumber(src, 21) == Ok((Token(Real, "123.E+10"), 30))
  {
    assert src[22..30] == "123.E+10";
    assert src[21] == '0' && src[22] == '1' && src[23] == '2' && src[24] == '3' && src[25] == '.';
    assert src[26] == 'E' && src[27] == '+' && src[28] == '1' && src[29] == '0' && src[30] == ' ';
    assert IsRun(src, 21, 22, Zero) && IsRun(src, 22, 25, Digit) && IsRun(src, 26, 26, Digit);
    assert IsRun(src, 28, 30, Digit);
    RealWithExponent(src, 21, 22, 25, 26, 28);
  }

  /** The comment is skipped and the real after it is the third token. */
  lemma CommentThenReal(src: string)
    requires src == DemoSource()
    ensures ScanNext(src, 10) == Ok((Token(Real, "123.E+10"), 30))
  {
    CommentSkippedBeforeReal(src);
    RealAfterComment(src);
    assert src[21] == '0';
  }

  /** "0ABCD123X": leading zero dropped, hexadecimal run ended by X. */
  lemma HexString(src: string)
    requires src == DemoSource()
    ensures ScanNext(src, 30) == Ok((Token(StrHex, "ABCD123X"), 40))
  {
    assert src[32..40] == "ABCD123X";
    assert src[30] == ' ' && src[31] == '0' && src[32] == 'A' && src[33] == 'B' && src[34] == 'C';
    assert src[35] == 'D' && src[36] == '1' && src[37] == '2' && src[38] == '3' && src[39] == 'X';
    assert IsRun(src, 31, 32, Zero) && IsRun(src, 32, 32, Digit) && IsRun(src, 32, 39, HexDigit);
    HexLiteral(src, 31, 32, 32, 39);
    assert ScanNext(src, 30) == ScanNext(src, 31);
  }

  /** "228X": a digit run ended directly by X. */
  lemma BareHexString(src: string)
    requires src == DemoSource()
    ensures ScanNext(src, 40) == Ok((Token(StrHex, "228X"), 45))
  {
    assert src[41..45] == "228X";
    assert src[40] == ' ' && src[41] == '2' && src[42] == '2' && src[43] == '8' && src[44] == 'X';
    assert RunEnd(src, 41, Zero) == 41 && RunEnd(src, 41, Digit) == 44;
  }

  /** "\"Hey there\"": the characters between the quotes. */
  lemma QuotedString(src: string)
    requires src == DemoSource()
    ensures ScanNext(src, 45) == Ok((Token(Str, "Hey there"), 57))
  {
    assert src[45] == ' ' && src[46] == '"' && src[47..56] == "Hey there" && src[56] == '"';
    assert RunEnd(src, 47, NotQuote) == 56;
  }

  /** "123" at the end of input: IntDec "123". */
  lemma LastDecimal(src: string)
    requires src == DemoSource()
    ensures ScanNext(src, 57) == Ok((Token(IntDec, "123"), 61))
  {
    assert src[58..61] == "123";
    assert src[57] == ' ' && src[58] == '1' && src[59] == '2' && src[60] == '3';
    assert RunEnd(src, 58, Zero) == 58 && RunEnd(src, 58, Digit) == 61;
  }

  /** The last four calls of next(), then Eof: the stream from offset 30. */
  lemma DemoTail(src: string)
    requires |src| == 61
    requires ScanNext(src, 30) == Ok((Token(StrHex, "ABCD123X"), 40))
    requires ScanNext(src, 40) == Ok((Token(StrHex, "228X"), 45))
    requires ScanNext(src, 45) == Ok((Token(Str, "Hey there"), 57))
    requires ScanNext(src, 57) == Ok((Token(IntDec, "123"), 61))
    ensures Tokenize(src, 30) ==
            Ok([Token(StrHex, "ABCD123X"), Token(StrHex, "228X"), Token(Str, "Hey there"),
                Token(IntDec, "123")])
  {
    var t3, t4, t5, t6 := Token(StrHex, "ABCD123X"), Token(StrHex, "228X"),
                          Token(Str, "Hey there"), Token(IntDec, "123");
    TokenizeEnd(src, 61);
    TokenizeStep(src, 57, t6, 61, []);
    TokenizeStep(src, 45, t5, 57, [t6] + []);
    TokenizeStep(src, 40, t4, 45, [t5] + ([t6] + []));
    TokenizeStep(src, 30, t3, 40, [t4] + ([t5] + ([t6] + [])));
    ConsFour(t3, t4, t5, t6);
  }

  /** Four elements put in front of the empty sequence one at a time. */
  lemma ConsFour<T>(a: T, b: T, c: T, d: T)
    ensures [a] + ([b] + ([c] + ([d] + []))) == [a, b, c, d]
  {
    assert [d] + [] == [d];
    assert [c] + [d] == [c, d];
    assert [b] + [c, d] == [b, c, d];
  }

  /** Three elements in front of a four-element display. */
  lemma PrependThree<T>(a: T, b: T, c: T, d: T, e: T, f: T, g: T)
    ensures [a] + ([b] + ([c] + [d, e, f, g])) == [a, b, c, d, e, f, g]
  {
    assert [c] + [d, e, f, g] == [c, d, e, f, g];
    assert [b] + [c, d, e, f, g] == [b, c, d, e, f, g];
  }

  /** The first three calls of next(), followed by the tail. */
  lemma DemoChain(src: string)
    requires |src| == 61
    requires ScanNext(src, 0) == Ok((Token(IntDec, "123"), 3))
    requires ScanNext(src, 3) == Ok((Token(IntHex, "1A123H"), 10))
    requires ScanNext(src, 10) == Ok((Token(Real, "123.E+10"), 30))
    requires Tokenize(src, 30) ==
             Ok([Token(StrHex, "ABCD123X"), Token(StrHex, "228X"), Token(Str, "Hey there"),
                 Token(IntDec, "123")])
    ensures Tokenize(src, 0) ==
            Ok([Token(IntDec, "123"), Token(IntHex, "1A123H"), Token(Real, "123.E+10"),
                Token(StrHex, "ABCD123X"), Token(StrHex, "228X"), Token(Str, "Hey there"),
                Token(IntDec, "123")])
  {
    var t0, t1, t2 := Token(IntDec, "123"), Token(IntHex, "1A123H"), Token(Real, "123.E+10");
    var tail := [Token(StrHex, "ABCD123X"), Token(StrHex, "228X"), Token(Str, "Hey there"),
                 Token(IntDec, "123")];
    TokenizeStep(src, 10, t2, 30, tail);
    TokenizeStep(src, 3, t1, 10, [t2] + tail);
    TokenizeStep(src, 0, t0, 3, [t1] + ([t2] + tail));
    PrependThree(t0, t1, t2, tail[0], tail[1], tail[2], tail[3]);
  }

  /** Pulling next() until Eof yields exactly these seven tokens. */
  lemma DemoStream(src: string)
    requires src == DemoSource()
    ensures Tokenize(src, 0) ==
            Ok([Token(IntDec, "123"), Token(IntHex, "1A123H"), Token(Real, "123.E+10"),
                Token(StrHex, "ABCD123X"), Token(StrHex, "228X"), Token(Str, "Hey there"),
                Token(IntDec, "123")])
  {
    FirstDecimal(src);
    HexInteger(src);
    CommentThenReal(src);
    HexString(src);
    BareHexString(src);
    QuotedString(src);
    LastDecimal(src);
    DemoTail(src);
    DemoChain(src);
  }
}
