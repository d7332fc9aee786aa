# Oberon lexer model

A Dafny model of the `Lexer` class in `main.cpp`, a hand-written lexer for an
Oberon-family language. The lexer holds a source string and a cursor. Each call
of `next()` skips blanks, newlines and `(* … )` comments, then scans one token.
A token is a decimal, hexadecimal or real number, a hexadecimal string
(`…X`), or a quoted string. It carries a kind (`ClassName`) and the characters
it consumed.

The model has two layers:

- **Reference functions** (`Scan`). Each scanning routine is a pure function of
  the source text and a start offset. It returns the token and the offset where
  the cursor is left, or the error on which the program would exit. For a token
  that offset is just past its characters; the comment scanner returns the
  offset of the `)` that closes the comment.
- **The class** (`Lexing.Lexer`). It keeps the source's own form: a `src` string
  and a `pos` cursor that the methods advance in place with the same loops as
  `main.cpp`. Every method is proved to return exactly the token or error its
  reference function gives. On success it also leaves the cursor exactly where
  that function says.

The properties the lexer promises are proved about the reference functions, in
`Properties`:

- how each kind of literal is recognised and what it carries;
- the error conditions;
- the comment rule (a comment ends at its first `)`);
- the cursor moves only forward, and `Eof` repeats once reached;
- the stream a caller gets by pulling tokens until `Eof`.

`MainExample` proves that the input from `main()` yields exactly the seven tokens
the program prints.

The model follows `main.cpp` as written. The points below are where the code
does less than a full Oberon lexer would:

- a comment is closed by the first `)` after `(*`, whether or not a `*` comes
  before it. The loop at main.cpp:117-118 tests `last_char`, which is set
  to a blank and never changed;
- a character that starts no scanner (an operator, say) is skipped without an
  error;
- leading zeros are dropped, so `000` gives an `IntDec` with an empty value;
- a letter makes `next()` return the default `Eof` token without moving the
  cursor, because the identifier scanner is a stub. So `Eof`, which main.cpp:8
  describes as the last token of the source, also appears before a letter;
- there is no symbol table, and no scanner for operators or keywords.

Files:

- `Tokens.dfy`: token kinds, tokens, errors, character classes.
- `Scan.dfy`: reference functions.
- `Lexer.dfy`: the class.
- `Properties.dfy`: lemmas.
- `Demo.dfy`: the `main()` input.

## Model

| member | source | states |
|---|---|---|
| Tokens.IsDigit | main.cpp:76-78 | a digit is never a letter, a quote, a '(' or a blank, so next() dispatches a digit only to the number scanner |
| Tokens.IsHexDigit | main.cpp:80-82 | every digit is a hex digit; a hex digit that is not a digit is an upper-case letter other than H and X |
| Tokens.IsLetter | main.cpp:84-86 | a letter is never a quote, a '(' or a blank |
| Scan.RunEnd | main.cpp:133 | the result is the end of the maximal run of class characters from i: every character before it is in the class, and it is the end of input or a character outside the class |
| Scan.SkipComment | main.cpp:111-126 | on success, the first ')' after the '(' of "(*" (no ')' lies between); otherwise UnterminatedComment, exactly when no ')' follows, including "(*" at the very end |
| Scan.ScanString | main.cpp:88-109 | on success, a Str token holding exactly the characters between the opening quote and the next quote, with the cursor just past that quote; otherwise UnterminatedString, and no quote follows |
| Scan.ScanHex | main.cpp:139-161 | on success, an IntHex or StrHex whose value is the slice from after the leading zeros to the new cursor, which lies past the first hex letter |
| Scan.ScanExponent | main.cpp:187-205 | on success, a Real whose value is the consumed slice, ending past the 'E'; every failure is MalformedExponent |
| Scan.ScanReal | main.cpp:178-210 | on success, a Real whose value is the slice from after the leading zeros to the new cursor, which lies past the '.' |
| Scan.ScanNumber | main.cpp:128-221 | on success, the value is the slice from the end of the leading zeros to the new cursor, the kind is IntDec, IntHex, StrHex or Real, and a digit at the start is always consumed |
| Scan.ScanNext | main.cpp:46-72 | the cursor never moves backwards and never passes the end of the input |
| Scan.ScanNextShape | main.cpp:46-72 | next() returns only kinds some scanner produces; Eof is the default token and appears only at the end of input or at a letter; any other token moves the cursor forward |
| Scan.Tokenize | main.cpp:233-239 | the tokens pulled until Eof never include Eof, and each has a kind some scanner produces |
| Lexing.Lexer.constructor | main.cpp:41-44 | the lexer starts at offset 0 of the given source |
| Lexing.Lexer.Next | main.cpp:46-72 | the token or error is exactly what ScanNext gives at the old cursor, and on success so is the new cursor, which has not moved back, and the kind is one a scanner produces |
| Lexing.Lexer.ParseString | main.cpp:88-109 | the result is exactly what ScanString gives at the opening quote, and on success so is the new cursor |
| Lexing.Lexer.ParseComment | main.cpp:111-126 | it returns false exactly when SkipComment reports an unclosed comment, and otherwise leaves the cursor on the ')' that SkipComment finds |
| Lexing.Lexer.ParseNumber | main.cpp:128-221 | the result is exactly what ScanNumber gives at the old cursor, and on success so is the new cursor |
| Lexing.Lexer.ParseHex | main.cpp:139-161 | the result is exactly what ScanHex gives for the digits read so far, and on success so is the new cursor |
| Lexing.Lexer.ParseReal | main.cpp:178-210 | the result is exactly what ScanReal gives for the digits read so far, and on success so is the new cursor |
| Lexing.Lexer.ParseExponent | main.cpp:187-205 | the result is exactly what ScanExponent gives at the 'E', and on success so is the new cursor |
| Lexing.Lexer.ReadDigits | main.cpp:182-185 | the cursor ends at the end of the digit run and the value grows by exactly the digits passed |
| Lexing.Lexer.ParseIdentifier | main.cpp:223-226 | returns the default token: Eof with an empty value (the cursor cannot change) |
| Lexing.NextTwice | main.cpp:234-238 | the first call gives exactly ScanNext at the starting cursor; a caller that gets Eof from next() gets the same Eof again on the following call, and the cursor stays where the first call left it |
| Properties.NumberValueIsConsumedSlice | main.cpp:130-137 | a number's value is the slice ending at the cursor, everything between the start and the value is '0', and the value never starts with '0' |
| Properties.DecimalInteger | main.cpp:211-220 | IntDec results exactly when the digits after the zeros end at the end of input or at a character that cannot continue a number, and then the value is those digits and the terminator is not consumed |
| Properties.AllZeros | main.cpp:133 | a literal of zeros only gives IntDec with an empty value |
| Properties.HexLiteral | main.cpp:139-161 | after an 'A'..'F' the whole hex-digit run is taken; a following 'H' gives IntHex and 'X' gives StrHex, kept in the value; anything else, or the end of input, is MalformedHex |
| Properties.BareTerminator | main.cpp:162-177 | digits ended directly by 'H' give IntHex and by 'X' give StrHex, with the terminator consumed and kept |
| Properties.RealWithoutExponent | main.cpp:178-186 | a '.' after the digits gives Real running through the fraction digits when no 'E' follows |
| Properties.RealWithExponent | main.cpp:187-209 | after the fraction, 'E' and an optional sign need at least one digit: without it MalformedExponent, with it a Real through the last exponent digit |
| Properties.ExponentNeedsDot | main.cpp:139-161 | "12E5" is a MalformedHex error and "12E5H" an IntHex: an 'E' without a '.' is a hex digit |
| Properties.StringLiteral | main.cpp:88-109 | from a quote, next() returns the characters up to the next quote and moves past that quote |
| Properties.UnclosedString | main.cpp:99-102 | a quote with no quote after it is UnterminatedString |
| Properties.CommentSkipped | main.cpp:53-56 | a comment yields no token: next() from "(*" equals next() from just past the first ')' |
| Properties.UnclosedComment | main.cpp:112-124 | "(*" with no ')' after it, including "(*" at the very end, is UnterminatedComment |
| Properties.CommentEndsAtFirstParen | main.cpp:117-125 | in "(* ) 5 *)" the first ')' closes the comment, so next() returns IntDec "5" |
| Properties.SkippedCharacter | main.cpp:50-70 | blanks, newlines, a '(' not followed by '*' and characters no scanner starts on give no token: next() goes on at the next character |
| Properties.SkippedSuffixGivesEof | main.cpp:49-71 | input made only of such skipped characters, lone '(' included, gives Eof at the end of input |
| Properties.LetterGivesEof | main.cpp:61-63 | at a letter next() returns Eof and leaves the cursor on the letter |
| Properties.EofIsAbsorbing | main.cpp:46-72 | once next() has returned Eof, calling it again at the cursor it left returns the same Eof |
| Properties.StreamOfSteps | main.cpp:233-239 | successive successful calls of next() ending in an Eof, wherever that last call leaves the cursor, produce exactly the stream of their tokens |
| Properties.TrailingNewline | main.cpp:49-72 | "5\n" yields the single token IntDec "5": the newline after the last token is skipped before Eof |
| MainExample.DemoSource | main.cpp:231 | the demonstration input, 61 characters long |
| MainExample.CommentThenReal | main.cpp:231 | the comment is skipped and "0123.E+10" gives Real "123.E+10" |
| MainExample.DemoStream | main.cpp:231-239 | the demonstration input yields exactly IntDec "123", IntHex "1A123H", Real "123.E+10", StrHex "ABCD123X", StrHex "228X", Str "Hey there", IntDec "123" |

## Left out

- The printing loop of `main()` (main.cpp:236-239) writes to standard output. The model keeps the token sequence it prints, as `Tokenize`, and not the output.
- Output before an error: when `next()` fails part-way through the input (for example `12 "x`), `main()` has already printed the tokens before the error. `Tokenize` returns only the `Err`, so that printed prefix is not part of the model.
- The error paths print to `cerr` and call `exit(1)`. They are modelled as `Err` values. The cursor after an error is not part of any contract, because the real program stops.
- Reading at the end of input: `*src_iter` at main.cpp:136 reads past the last character when a number reaches the end. The model reads NUL there (the helper `CharAt`). NUL matches none of the tests, so the scan ends as IntDec; `Properties.DecimalInteger` states that result.
- Very long inputs are not modelled: the cursor is an unbounded `nat`, and `std::string` size limits are ignored.
- C++ `char` is modelled as a Dafny `char`. Only comparisons against ASCII ranges occur, so bytes above 0x7F fall outside every class in both.
- The token kinds for operators, punctuation, keywords and `IntExp` are declared but never produced, because the source has no scanner for them.
- There is no symbol table and no keyword classification, because the source has none.
- Scanning identifiers is not modelled, because the source's scanner is a stub.
- The state of the `Token` fields while a scan is in progress is not modelled. Only the returned token is.
- `Lexing.NextTwice`: its contract says nothing about the cursor after the first call that returns an error, because the lexer's state after an error is unspecified.
