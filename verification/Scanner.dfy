/** The cursor-based scanner, proved against `Lexical`. */
module Scanning {
  import opened Tokens
  import opened Lexical

  /** Newlines among the first `i` characters of `s`. */
  function NewlinesBefore(s: string, i: nat): nat
    requires i <= |s|
  {
    if i == 0 then 0 else NewlinesBefore(s, i - 1) + if s[i - 1] == '\n' then 1 else 0
  }

  /** A C string does not contain its own terminator. */
  predicate IsSource(s: string) { '\0' !in s }

  class Scanner {
    const src: string
    var start: nat
    var current: nat
    var line: nat
    var lastBlock: Block

    ghost predicate Valid()
      reads this
    {
      && IsSource(src)
      && start <= current <= |src|
      && line == 1 + NewlinesBefore(src, current)
    }

    constructor (source: string)
      requires IsSource(source)
      ensures Valid() && src == source
      ensures start == current == 0 && lastBlock == NoBlock
    {
      src := source;
      start, current, line, lastBlock := 0, 0, 1, NoBlock;
    }

    predicate IsAtEnd()
      reads this
    {
      current >= |src|
    }

    function Peek(): char
      reads this
    {
      At(src, current)
    }

    function PeekNext(): char
      reads this
    {
      if IsAtEnd() then '\0' else At(src, current + 1)
    }

    /** Consumes one character, counting the line it may end. */
    method Advance()
      requires Valid() && current < |src|
      modifies this`current, this`line
      ensures Valid() && current == old(current) + 1
    {
      if src[current] == '\n' { line := line + 1; }
      current := current + 1;
    }

    /** `match`: consumes the next character if it is `expected`. */
    method Match(expected: char) returns (matched: bool)
      requires Valid() && expected != '\0'
      modifies this`current, this`line
      ensures Valid()
      ensures matched == (At(src, old(current)) == expected)
      ensures current == if matched then old(current) + 1 else old(current)
    {
      if IsAtEnd() || src[current] != expected {
        return false;
      }
      Advance();
      return true;
    }

    method TakeLastBlockComment() returns (b: Block)
      requires Valid()
      modifies this`lastBlock
      ensures Valid()
      ensures b == old(lastBlock) && lastBlock == NoBlock
    {
      b := lastBlock;
      lastBlock := NoBlock;
    }

    /** Moves to the first character outside `p`, counting the lines crossed. */
    method SkipWhile(p: char -> bool)
      requires Valid()
      modifies this`current, this`line
      ensures Valid() && current == SpanEnd(src, old(current), p)
    {
      ghost var from := current;
      while current < |src| && p(src[current])
        invariant Valid() && from <= current
        invariant SpanEnd(src, current, p) == SpanEnd(src, from, p)
      {
        Advance();
      }
    }

    /** Moves to the closing comment delimiter, or to the end when there is none. */
    method SkipToClose() returns (found: bool)
      requires Valid()
      modifies this`current, this`line
      ensures Valid() && current == CloseAt(src, old(current))
      ensures found == (current < |src|)
    {
      ghost var from := current;
      while !IsAtEnd()
        invariant Valid() && from <= current
        invariant CloseAt(src, current) == CloseAt(src, from)
        decreases |src| - current
      {
        if Peek() == '*' && PeekNext() == '/' {
          return true;
        }
        Advance();
      }
      return false;
    }

    /** The block-comment arm of the trivia loop. */
    method SkipBlockComment()
      requires Valid() && OpensBlock(src, current)
      modifies this`current, this`line, this`lastBlock
      ensures Valid() && current == BlockEnd(src, old(current))
      ensures lastBlock == Block(BlockBody(src, old(current)))
    {
      Advance();
      Advance();
      var bodyStart, bodyEnd := current, current;
      var found := SkipToClose();
      if found {
        bodyEnd := current;
        Advance();
        Advance();
      }
      lastBlock := Block(src[bodyStart..bodyEnd]);
    }

    method SkipWhitespace()
      requires Valid()
      modifies this`current, this`line, this`lastBlock
      ensures Valid() && current == TriviaEnd(src, old(current))
      ensures lastBlock == LastBlock(src, old(current), NoBlock)
    {
      lastBlock := NoBlock;
      ghost var from := current;
      while true
        invariant Valid() && from <= current
        invariant TriviaEnd(src, current) == TriviaEnd(src, from)
        invariant LastBlock(src, current, lastBlock) == LastBlock(src, from, NoBlock)
        decreases |src| - current
      {
        var c := Peek();
        if c == ' ' || c == '\r' || c == '\t' || c == '\n' {
          Advance();
        } else if c == '/' && PeekNext() == '/' {
          SkipWhile(NotNewline);
        } else if c == '/' && PeekNext() == '*' {
          if At(src, current + 2) == '*' && At(src, current + 3) != '/' {
            return;
          }
          SkipBlockComment();
        } else {
          return;
        }
      }
    }

    /** `identifier`: the first character of the word, at `start`, is already consumed. */
    method Identifier() returns (t: Token)
      requires Valid() && current == start + 1 && IsWordChar(src[start])
      modifies this`current, this`line
      ensures Valid() && current == SpanEnd(src, start, IsWordChar)
      ensures t == WordToken(src[start..current])
    {
      SkipWhile(IsWordChar);
      t := WordToken(src[start..current]);
    }

    /** `number`: the first digit, at `start`, is already consumed. */
    method NumberLiteral() returns (t: Token)
      requires Valid() && current == start + 1 && IsDigit(src[start])
      modifies this`current, this`line
      ensures Valid() && current == NumberEnd(src, start)
      ensures t == Number(src[start..current])
    {
      SkipWhile(IsDigit);
      if Peek() == '.' && IsDigit(PeekNext()) {
        Advance();
        SkipWhile(IsDigit);
      }
      t := Number(src[start..current]);
    }

    /** `string`: the opening quote, at `start`, is already consumed. */
    method StringLiteral() returns (t: Token)
      requires Valid() && current == start + 1
      modifies this`current, this`line
      ensures Valid() && Scan(t, current) == ScanText(src, start)
    {
      SkipWhile(NotQuote);
      if IsAtEnd() {
        return Bad(UNTERMINATED_STRING);
      }
      Advance();
      t := Text(src[start..current]);
    }

    /** `quotedName`: the opening apostrophe, at `start`, is already consumed. */
    method QuotedName() returns (t: Token)
      requires Valid() && current == start + 1
      modifies this`current, this`line
      ensures Valid() && Scan(t, current) == ScanQuotedName(src, start)
    {
      var interiorStart := current;
      SkipWhile(NotApostrophe);
      if IsAtEnd() {
        return Bad(UNTERMINATED_NAME);
      }
      t := Name(src[interiorStart..current]);
      Advance();
    }

    /** `captureCommentInterior`: the opener is already consumed. */
    method CaptureCommentInterior() returns (t: Token)
      requires Valid()
      modifies this`current, this`line
      ensures Valid() && Scan(t, current) == ScanInterior(src, old(current))
    {
      var bodyStart := current;
      var found := SkipToClose();
      if !found {
        return Bad(UNTERMINATED_DOC);
      }
      t := DocBody(src[bodyStart..current]);
      Advance();
      Advance();
    }

    /** `scanDocBody`: the entry point the parser uses right after the keyword `doc`. */
    method ScanDocBody() returns (t: Token)
      requires Valid()
      modifies this`start, this`current, this`line
      ensures Valid() && Scan(t, current) == ScanDoc(src, old(current))
    {
      ghost var from := current;
      while true
        invariant Valid() && from <= current
        invariant DocLead(src, current) == DocLead(src, from)
        decreases |src| - current
      {
        var c := Peek();
        if c == ' ' || c == '\r' || c == '\t' || c == '\n' {
          Advance();
        } else if c == '/' && PeekNext() == '/' {
          SkipWhile(NotNewline);
        } else {
          break;
        }
      }
      start := current;
      if Peek() != '/' || PeekNext() != '*' {
        return Bad(EXPECTED_DOC);
      }
      Advance();
      Advance();
      if Peek() == '*' && PeekNext() != '/' { Advance(); }
      t := CaptureCommentInterior();
    }

    /** A one- or two-character operator whose first character is already consumed. */
    method Operator(next: char, double: Kind, single: Kind) returns (t: Token)
      requires Valid() && next != '\0'
      modifies this`current, this`line
      ensures Valid()
      ensures At(src, old(current)) == next ==> t == Sym(double) && current == old(current) + 1
      ensures At(src, old(current)) != next ==> t == Sym(single) && current == old(current)
    {
      var m := Match(next);
      t := Sym(if m then double else single);
    }

    method ColonToken() returns (t: Token)
      requires Valid() && current == start + 1
      modifies this`current, this`line
      ensures Valid() && Scan(t, current) == ScanColon(src, start)
    {
      var m := Match(':');
      if m {
        t := Operator('>', COLON_GREATER, COLON_COLON);
        return;
      }
      m := Match('>');
      if m {
        t := Operator('>', COLON_GREATER_GREATER, COLON_GREATER);
        return;
      }
      t := Sym(COLON);
    }

    /** The final switch of `scanToken`; the character at `start` is already consumed. */
    method Punctuation() returns (t: Token)
      requires Valid() && current == start + 1
      modifies this`current, this`line
      ensures Valid() && Scan(t, current) == ScanPunctuation(src, start)
    {
      match src[start]
      case '.' =>
        if IsDigit(Peek()) {
          SkipWhile(IsDigit);
          t := Number(src[start..current]);
        } else {
          t := Operator('.', DOT_DOT, PERIOD);
        }
      case '*' => t := Operator('*', STAR_STAR, STAR);
      case '=' => t := Operator('=', EQUAL_EQUAL, EQUAL);
      case '!' => t := Operator('=', BANG_EQUAL, BANG);
      case '<' => t := Operator('=', LESS_EQUAL, LESS);
      case '>' => t := Operator('=', GREATER_EQUAL, GREATER);
      case ':' => t := ColonToken();
      case '"' => t := StringLiteral();
      case '\'' => t := QuotedName();
      case c => t := SingleToken(c);
    }

    /** `scanToken`: skips trivia and reads one token, `Sym(EOF)` at the end of the text. */
    method ScanToken() returns (t: Token)
      requires Valid()
      modifies this`start, this`current, this`line, this`lastBlock
      ensures Valid()
      ensures lastBlock == LastBlock(src, old(current), NoBlock)
      ensures start == TriviaEnd(src, old(current))
      ensures if start == |src| then t == Sym(EOF) && current == start
              else Scan(t, current) == ScanOne(src, start)
    {
      hide LastBlock, TriviaEnd, TriviaUnit, ScanPunctuation, ScanInterior, WordToken, NumberEnd, NewlinesBefore;
      SkipWhitespace();
      start := current;
      if IsAtEnd() {
        return Sym(EOF);
      }
      if Peek() == '/' && PeekNext() == '*' && At(src, current + 2) == '*' && At(src, current + 3) != '/' {
        Advance();
        Advance();
        Advance();
        t := CaptureCommentInterior();
        return;
      }
      var c := src[current];
      Advance();
      if IsAlpha(c) {
        t := Identifier();
      } else if IsDigit(c) {
        t := NumberLiteral();
      } else {
        t := Punctuation();
      }
    }
  }
}
