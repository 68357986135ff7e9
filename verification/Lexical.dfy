/** What the scanner recognises at a position of the source text.  The text ends where the
    C string's terminating NUL would be. */
module Lexical {
  import opened Tokens

  /** The character at position `i`, NUL past the end. */
  function At(s: string, i: nat): char {
    if i < |s| then s[i] else '\0'
  }

  /** First position at or after `i` whose character does not satisfy `p`. */
  function SpanEnd(s: string, i: nat, p: char -> bool): (j: nat)
    requires i <= |s|
    ensures i <= j <= |s|
    decreases |s| - i
  {
    if i < |s| && p(s[i]) then SpanEnd(s, i + 1, p) else i
  }

  lemma {:induction false} SpanIsMaximal(s: string, i: nat, p: char -> bool)
    requires i <= |s|
    ensures forall k | i <= k < SpanEnd(s, i, p) :: p(s[k])
    ensures SpanEnd(s, i, p) < |s| ==> !p(s[SpanEnd(s, i, p)])
    decreases |s| - i
  {
    if i < |s| && p(s[i]) { SpanIsMaximal(s, i + 1, p); }
  }

  lemma {:induction false} SpanPrefix(s: string, i: nat, j: nat, p: char -> bool)
    requires i <= j <= |s| && forall k | i <= k < j :: p(s[k])
    ensures SpanEnd(s, i, p) == SpanEnd(s, j, p)
    decreases j - i
  {
    if i < j { SpanPrefix(s, i + 1, j, p); }
  }

  /** A span is determined by where it stops. */
  lemma SpanExact(s: string, i: nat, j: nat, p: char -> bool)
    requires i <= j <= |s| && forall k | i <= k < j :: p(s[k])
    requires j < |s| ==> !p(s[j])
    ensures SpanEnd(s, i, p) == j
  {
    SpanPrefix(s, i, j, p);
  }

  /** Position of the first closing comment delimiter at or after `i`, |s| if there is none. */
  function CloseAt(s: string, i: nat): (j: nat)
    requires i <= |s|
    ensures i <= j <= |s|
    ensures j < |s| ==> j + 1 < |s|
    decreases |s| - i
  {
    if i == |s| then i
    else if s[i] == '*' && At(s, i + 1) == '/' then i
    else CloseAt(s, i + 1)
  }

  lemma {:induction false} CloseIsFirst(s: string, i: nat)
    requires i <= |s|
    ensures var j := CloseAt(s, i);
      && (j < |s| ==> s[j] == '*' && s[j + 1] == '/')
      && forall k | i <= k < j :: !(s[k] == '*' && At(s, k + 1) == '/')
    decreases |s| - i
  {
    if i < |s| && !(s[i] == '*' && At(s, i + 1) == '/') { CloseIsFirst(s, i + 1); }
  }

  // ---- whitespace and comments ------------------------------------------------

  predicate IsBlank(c: char) { c == ' ' || c == '\r' || c == '\t' || c == '\n' }

  /** A slash-star-star opener that is not the empty block comment. */
  predicate OpensDoc(s: string, i: nat) {
    At(s, i) == '/' && At(s, i + 1) == '*' && At(s, i + 2) == '*' && At(s, i + 3) != '/'
  }

  predicate OpensBlock(s: string, i: nat) {
    At(s, i) == '/' && At(s, i + 1) == '*' && !OpensDoc(s, i)
  }

  predicate OpensLine(s: string, i: nat) { At(s, i) == '/' && At(s, i + 1) == '/' }

  /** End of the block comment that opens at `i`; an unterminated one runs to the end. */
  function BlockEnd(s: string, i: nat): (j: nat)
    requires OpensBlock(s, i)
    ensures i + 2 <= j <= |s|
  {
    var close := CloseAt(s, i + 2);
    if close < |s| then close + 2 else |s|
  }

  /** Interior of the block comment that opens at `i`; empty when it is unterminated. */
  function BlockBody(s: string, i: nat): string
    requires OpensBlock(s, i)
  {
    var close := CloseAt(s, i + 2);
    if close < |s| then s[i + 2..close] else ""
  }

  /** End of the blank, line comment or block comment at `i`; `i` itself if there is none. */
  function TriviaUnit(s: string, i: nat): (j: nat)
    requires i <= |s|
    ensures i <= j <= |s|
  {
    if i == |s| then i
    else if IsBlank(s[i]) then i + 1
    else if OpensLine(s, i) then SpanEnd(s, i, NotNewline)
    else if OpensBlock(s, i) then BlockEnd(s, i)
    else i
  }

  /** End of the whole run of trivia at `i`. */
  function TriviaEnd(s: string, i: nat): (j: nat)
    requires i <= |s|
    ensures i <= j <= |s|
    ensures TriviaUnit(s, j) == j
    decreases |s| - i
  {
    var j := TriviaUnit(s, i);
    if j == i then i else TriviaEnd(s, j)
  }

  datatype Block = NoBlock | Block(body: string)

  /** The last block comment of the run of trivia at `i`, or `seen` if it has none. */
  function LastBlock(s: string, i: nat, seen: Block): Block
    requires i <= |s|
    decreases |s| - i
  {
    var j := TriviaUnit(s, i);
    if j == i then seen
    else LastBlock(s, j, if OpensBlock(s, i) then Block(BlockBody(s, i)) else seen)
  }

  // ---- tokens -------------------------------------------------------------------

  /** A token together with the position right after it. */
  datatype Scan = Scan(token: Token, end: nat)

  function WordToken(w: string): Token {
    if IsKeyword(w) then Sym(KeywordKind(w)) else Name(w)
  }

  function NumberEnd(s: string, i: nat): (j: nat)
    requires i <= |s|
    ensures i <= j <= |s|
  {
    var d := SpanEnd(s, i, IsDigit);
    if At(s, d) == '.' && IsDigit(At(s, d + 1)) then SpanEnd(s, d + 1, IsDigit) else d
  }

  const UNTERMINATED_STRING := "Unterminated string."
  const UNTERMINATED_NAME := "Unterminated quoted name."
  const UNTERMINATED_DOC := "Unterminated doc comment."
  const UNEXPECTED := "Unexpected character."
  const EXPECTED_DOC := "Expected '/* description */' after 'doc'."

  /** A string literal whose opening quote is at `i`; its token keeps both quotes. */
  function ScanText(s: string, i: nat): (r: Scan)
    requires i < |s|
    ensures i < r.end <= |s|
  {
    var j := SpanEnd(s, i + 1, NotQuote);
    if j == |s| then Scan(Bad(UNTERMINATED_STRING), j) else Scan(Text(s[i..j + 1]), j + 1)
  }

  /** A quoted name whose opening apostrophe is at `i`; its token drops the apostrophes. */
  function ScanQuotedName(s: string, i: nat): (r: Scan)
    requires i < |s|
    ensures i < r.end <= |s|
  {
    var j := SpanEnd(s, i + 1, NotApostrophe);
    if j == |s| then Scan(Bad(UNTERMINATED_NAME), j) else Scan(Name(s[i + 1..j]), j + 1)
  }

  /** Comment interior that begins at `i`, its opener already read. */
  function ScanInterior(s: string, i: nat): (r: Scan)
    requires i <= |s|
    ensures i <= r.end <= |s|
  {
    var close := CloseAt(s, i);
    if close < |s| then Scan(DocBody(s[i..close]), close + 2) else Scan(Bad(UNTERMINATED_DOC), close)
  }

  /** Characters that are always a token by themselves; any other one is an error. */
  function SingleToken(c: char): Token {
    match c
    case '(' => Sym(LEFT_PAREN)
    case ')' => Sym(RIGHT_PAREN)
    case '{' => Sym(LEFT_BRACE)
    case '}' => Sym(RIGHT_BRACE)
    case '[' => Sym(LEFT_BRACKET)
    case ']' => Sym(RIGHT_BRACKET)
    case ';' => Sym(SEMICOLON)
    case ',' => Sym(COMMA)
    case '+' => Sym(PLUS)
    case '-' => Sym(MINUS)
    case '/' => Sym(SLASH)
    case '~' => Sym(TILDE)
    case '@' => Sym(AT_SIGN)
    case '#' => Sym(HASH)
    case _ => Bad(UNEXPECTED)
  }

  /** A one- or two-character operator: `double` when `next` follows the character at `i`. */
  function ScanPair(s: string, i: nat, next: char, double: Kind, single: Kind): (r: Scan)
    requires i < |s| && next != '\0'
    ensures i < r.end <= |s|
  {
    if At(s, i + 1) == next then Scan(Sym(double), i + 2) else Scan(Sym(single), i + 1)
  }

  function ScanColon(s: string, i: nat): (r: Scan)
    requires i < |s|
    ensures i < r.end <= |s|
  {
    if At(s, i + 1) == ':' then ScanPair(s, i + 1, '>', COLON_GREATER, COLON_COLON)
    else if At(s, i + 1) == '>' then ScanPair(s, i + 1, '>', COLON_GREATER_GREATER, COLON_GREATER)
    else Scan(Sym(COLON), i + 1)
  }

  function ScanPunctuation(s: string, i: nat): (r: Scan)
    requires i < |s|
    ensures i < r.end <= |s|
  {
    match s[i]
    case '.' =>
      if IsDigit(At(s, i + 1)) then
        var j := SpanEnd(s, i + 1, IsDigit);
        Scan(Number(s[i..j]), j)
      else ScanPair(s, i, '.', DOT_DOT, PERIOD)
    case '*' => ScanPair(s, i, '*', STAR_STAR, STAR)
    case '=' => ScanPair(s, i, '=', EQUAL_EQUAL, EQUAL)
    case '!' => ScanPair(s, i, '=', BANG_EQUAL, BANG)
    case '<' => ScanPair(s, i, '=', LESS_EQUAL, LESS)
    case '>' => ScanPair(s, i, '=', GREATER_EQUAL, GREATER)
    case ':' => ScanColon(s, i)
    case '"' => ScanText(s, i)
    case '\'' => ScanQuotedName(s, i)
    case c => Scan(SingleToken(c), i + 1)
  }

  /** The token at `i`, where no trivia starts. */
  function ScanOne(s: string, i: nat): (r: Scan)
    requires i < |s| && TriviaUnit(s, i) == i
    ensures i < r.end <= |s|
  {
    if OpensDoc(s, i) then ScanInterior(s, i + 3)
    else if IsAlpha(s[i]) then
      var j := SpanEnd(s, i, IsWordChar);
      Scan(WordToken(s[i..j]), j)
    else if IsDigit(s[i]) then
      var j := NumberEnd(s, i);
      Scan(Number(s[i..j]), j)
    else ScanPunctuation(s, i)
  }

  /** End of the blanks and line comments (but not block comments) at `i`. */
  function DocLead(s: string, i: nat): (j: nat)
    requires i <= |s|
    ensures i <= j <= |s|
    decreases |s| - i
  {
    if i == |s| then i
    else if IsBlank(s[i]) then DocLead(s, i + 1)
    else if OpensLine(s, i) then DocLead(s, SpanEnd(s, i, NotNewline))
    else i
  }

  /** The body that follows the keyword `doc`; on error nothing past the lead is read. */
  function ScanDoc(s: string, i: nat): (r: Scan)
    requires i <= |s|
    ensures i <= r.end <= |s|
  {
    var j := DocLead(s, i);
    if At(s, j) != '/' || At(s, j + 1) != '*' then Scan(Bad(EXPECTED_DOC), j)
    else ScanInterior(s, if At(s, j + 2) == '*' && At(s, j + 3) != '/' then j + 3 else j + 2)
  }

  /** The tokens the parser receives from position `i` on; `afterDoc` when the previous one
      was the keyword `doc`.  The end of input is the end of the sequence. */
  function Lex(s: string, i: nat, afterDoc: bool): seq<Token>
    requires i <= |s|
    decreases |s| - i, afterDoc
  {
    if afterDoc then
      var r := ScanDoc(s, i);
      [r.token] + Lex(s, r.end, false)
    else
      var j := TriviaEnd(s, i);
      if j == |s| then []
      else
        var r := ScanOne(s, j);
        [r.token] + Lex(s, r.end, r.token == Sym(KW_DOC))
  }
}
