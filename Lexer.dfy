/** The Lexer class of main.cpp: a source string and a cursor that next()
    and the scanning routines advance in place. Each routine is proved to do
    exactly what the matching reference function of module Scan says. */
module Lexing {
  import opened Tokens
  import opened Scan
  import opened Properties

  /** Pairs a routine's result with the cursor it leaves behind. After an
      error the lexer exits, so the cursor is not part of the outcome. */
  function Outcome(r: Result<Token>, p: nat): Result<(Token, nat)> {
    match r
    case Ok(t) => Ok((t, p))
    case Err(e) => Err(e)
  }

  /** The character the scanner reads at offset i of src. Reading at the end
      of the input yields NUL, which matches none of the scanner's tests. */
  function CharAt(src: string, i: nat): (c: char)
    requires i <= |src|
    ensures (i < |src| && c == src[i]) || (i == |src| && c == 0 as char)
  {
    if i < |src| then src[i] else 0 as char
  }

  /** Appending the character at p to the slice that ends at p. */
  lemma SliceStep(src: string, s: nat, p: nat)
    requires s <= p < |src|
    ensures src[s..p] + [src[p]] == src[s..p + 1]
  {
  }

  class Lexer {
    const src: string
    var pos: nat

    ghost predicate Valid()
      reads this
    {
      pos <= |src|
    }

    constructor (src: string)
      ensures Valid() && this.src == src && pos == 0
    {
      this.src := src;
      pos := 0;
    }

    /** Returns the next token, skipping blanks, newlines, comments and every
        character no scanner starts on. */
    method Next() returns (r: Result<Token>)
      requires Valid()
      modifies this`pos
      ensures Valid()
      ensures Outcome(r, pos) == ScanNext(src, old(pos))
      ensures r.Ok? ==> old(pos) <= pos && Producible(r.value.className)
    {
      while pos < |src|
        invariant old(pos) <= pos <= |src|
        invariant ScanNext(src, pos) == ScanNext(src, old(pos))
        decreases |src| - pos
      {
        var c := src[pos];
        if c == ' ' || c == '\n' {
          // blanks and newlines are skipped
        } else if c == '(' {
          if pos + 1 < |src| && src[pos + 1] == '*' {
            var closed := ParseComment();
            if !closed {
              return Err(UnterminatedComment);
            }
          }
        } else if IsDigit(c) {
          r := ParseNumber();
          return;
        } else if IsLetter(c) {
          var t := ParseIdentifier();
          return Ok(t);
        } else if c == '"' {
          r := ParseString();
          return;
        }
        pos := pos + 1;
      }
      return Ok(EofToken);
    }

    /** Scans a string literal; the cursor is on its opening quote. */
    method ParseString() returns (r: Result<Token>)
      requires Valid() && pos < |src| && src[pos] == '"'
      modifies this`pos
      ensures Valid()
      ensures Outcome(r, pos) == ScanString(src, old(pos))
    {
      var value := "";
      pos := pos + 1;
      while pos < |src| && src[pos] != '"'
        invariant old(pos) < pos <= |src|
        invariant value == src[old(pos) + 1..pos]
        invariant RunEnd(src, pos, NotQuote) == RunEnd(src, old(pos) + 1, NotQuote)
        decreases |src| - pos
      {
        value := value + [src[pos]];
        pos := pos + 1;
      }
      if pos == |src| {
        return Err(UnterminatedString);
      }
      pos := pos + 1;
      return Ok(Token(Str, value));
    }

    /** Skips a comment; the cursor is on the '(' of "(*". Returns false where
        the lexer reports an unclosed comment, and otherwise leaves the cursor
        on the first ')' after the '('. The end marker last_char is never
        updated, so the loop stops at a ')' whether or not a '*' precedes it. */
    method ParseComment() returns (closed: bool)
      requires Valid() && pos + 1 < |src| && src[pos] == '(' && src[pos + 1] == '*'
      modifies this`pos
      ensures Valid()
      ensures closed <==> SkipComment(src, old(pos)).Ok?
      ensures closed ==> pos == SkipComment(src, old(pos)).value
    {
      if pos + 2 == |src| {
        return false;
      }
      var lastChar := ' ';
      while lastChar != '*' && src[pos] != ')'
        invariant old(pos) <= pos < |src|
        invariant RunEnd(src, pos, NotCloseParen) == RunEnd(src, old(pos), NotCloseParen)
        decreases |src| - pos
      {
        pos := pos + 1;
        if pos == |src| {
          return false;
        }
      }
      return true;
    }

    /** Scans a numeric literal; the cursor is on its first digit. */
    method ParseNumber() returns (r: Result<Token>)
      requires Valid()
      modifies this`pos
      ensures Valid()
      ensures Outcome(r, pos) == ScanNumber(src, old(pos))
    {
      var value := "";
      while pos < |src| && src[pos] == '0'
        invariant old(pos) <= pos <= |src|
        invariant RunEnd(src, pos, Zero) == RunEnd(src, old(pos), Zero)
        decreases |src| - pos
      {
        pos := pos + 1;
      }
      ghost var s := pos;
      assert s == RunEnd(src, old(pos), Zero);
      ghost var d := RunEnd(src, s, Digit);
      while true
        invariant s <= pos <= d
        invariant value == src[s..pos]
        invariant RunEnd(src, pos, Digit) == d
        decreases |src| - pos
      {
        var c := CharAt(src, pos);
        if IsDigit(c) {
          SliceStep(src, s, pos);
          value := value + [c];
        } else if 'A' <= c <= 'F' {
          r := ParseHex(s, value);
          return;
        } else if c == 'H' {
          assert pos == d && c == src[d];
          SliceStep(src, s, pos);
          value := value + [c];
          pos := pos + 1;
          return Ok(Token(IntHex, value));
        } else if c == 'X' {
          assert pos == d && c == src[d];
          SliceStep(src, s, pos);
          value := value + [c];
          pos := pos + 1;
          return Ok(Token(StrHex, value));
        } else if c == '.' {
          r := ParseReal(s, value);
          return;
        } else {
          break;
        }
        pos := pos + 1;
      }
      return Ok(Token(IntDec, value));
    }

    /** The hexadecimal branch of the number scanner: the cursor is on the
        first 'A'..'F' and value holds the digits read since offset s. */
    method ParseHex(ghost s: nat, value0: string) returns (r: Result<Token>)
      requires Valid() && s <= pos < |src| && value0 == src[s..pos]
      modifies this`pos
      ensures Valid()
      ensures Outcome(r, pos) == ScanHex(src, s, old(pos))
    {
      var value := value0;
      while pos < |src| && IsHexDigit(src[pos])
        invariant old(pos) <= pos <= |src|
        invariant value == src[s..pos]
        invariant RunEnd(src, pos, HexDigit) == RunEnd(src, old(pos), HexDigit)
        decreases |src| - pos
      {
        value := value + [src[pos]];
        pos := pos + 1;
      }
      if pos == |src| || (src[pos] != 'H' && src[pos] != 'X') {
        return Err(MalformedHex);
      }
      ghost var h := pos;
      assert h == RunEnd(src, old(pos), HexDigit);
      SliceStep(src, s, pos);
      value := value + [src[pos]];
      pos := pos + 1;
      assert value[|value| - 1] == src[h];
      var kind := Eof;
      if value[|value| - 1] == 'H' {
        kind := IntHex;
      } else if value[|value| - 1] == 'X' {
        kind := StrHex;
      }
      return Ok(Token(kind, value));
    }

    /** The real branch of the number scanner: the cursor is on the '.' and
        value holds the digits read since offset s. */
    method ParseReal(ghost s: nat, value0: string) returns (r: Result<Token>)
      requires Valid() && s <= pos < |src| && value0 == src[s..pos]
      modifies this`pos
      ensures Valid()
      ensures Outcome(r, pos) == ScanReal(src, s, old(pos))
    {
      SliceStep(src, s, pos);
      var value := value0 + [src[pos]];
      pos := pos + 1;
      value := ReadDigits(s, value);
      if pos < |src| && src[pos] == 'E' {
        r := ParseExponent(s, value);
        return;
      }
      return Ok(Token(Real, value));
    }

    /** The exponent of a real: the cursor is on the 'E' and value holds the
        characters read since offset s. */
    method ParseExponent(ghost s: nat, value0: string) returns (r: Result<Token>)
      requires Valid() && s <= pos < |src| && src[pos] == 'E' && value0 == src[s..pos]
      modifies this`pos
      ensures Valid()
      ensures Outcome(r, pos) == ScanExponent(src, s, old(pos))
    {
      ghost var g: nat := if pos + 1 < |src| && (src[pos + 1] == '+' || src[pos + 1] == '-')
                          then pos + 2 else pos + 1;
      SliceStep(src, s, pos);
      var value := value0 + [src[pos]];
      pos := pos + 1;
      if pos < |src| && (src[pos] == '+' || src[pos] == '-') {
        SliceStep(src, s, pos);
        value := value + [src[pos]];
        pos := pos + 1;
      }
      assert pos == g && value == src[s..g];
      if pos == |src| || !IsDigit(src[pos]) {
        return Err(MalformedExponent);
      }
      value := ReadDigits(s, value);
      return Ok(Token(Real, value));
    }

    /** Appends the run of digits at the cursor to value, which holds the
        characters read since offset s, and moves past the run. */
    method ReadDigits(ghost s: nat, value0: string) returns (value: string)
      requires Valid() && s <= pos && value0 == src[s..pos]
      modifies this`pos
      ensures Valid()
      ensures pos == RunEnd(src, old(pos), Digit) && value == src[s..pos]
    {
      value := value0;
      ghost var e := RunEnd(src, pos, Digit);
      while pos < |src| && IsDigit(src[pos])
        invariant s <= pos <= e
        invariant value == src[s..pos]
        invariant RunEnd(src, pos, Digit) == e
        decreases |src| - pos
      {
        SliceStep(src, s, pos);
        value := value + [src[pos]];
        pos := pos + 1;
      }
    }

    /** The identifier scanner is a stub: it returns the default (Eof) token
        and leaves the cursor where it is. */
    method ParseIdentifier() returns (t: Token)
      ensures t == EofToken
    {
      t := EofToken;
    }
  }

  /** A caller that keeps pulling tokens: once next() has returned Eof, the
      following call returns Eof again and leaves the cursor where the first
      call left it (mid). */
  method NextTwice(lexer: Lexer) returns (first: Result<Token>, second: Result<Token>, ghost mid: nat)
    requires lexer.Valid()
    modifies lexer
    ensures lexer.Valid()
    ensures Outcome(first, mid) == ScanNext(lexer.src, old(lexer.pos))
    ensures first.Ok? && first.value.className == Eof ==> second == first && lexer.pos == mid
  {
    first := lexer.Next();
    mid := lexer.pos;
    second := lexer.Next();
    if first.Ok? && first.value.className == Eof {
      EofIsAbsorbing(lexer.src, old(lexer.pos));
    }
  }
}
