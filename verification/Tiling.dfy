/** Scanner runs tile the source: trivia and longest lexemes, with nothing in between. */
module Tiling {
  import opened Tokens
  import opened Lexical
  import opened Sequences

  // ---- how tokens are written, independently of the scanner ---------------------------

  predicate AllSatisfy(w: string, lo: nat, hi: nat, p: char -> bool) {
    hi <= |w| && forall k | lo <= k < hi :: p(w[k])
  }

  /** Digits, digits with a fraction, or a fraction alone. */
  ghost predicate IsNumeral(w: string) {
    || (w != "" && AllSatisfy(w, 0, |w|, IsDigit))
    || exists d | 0 <= d < |w| - 1 :: w[d] == '.' && AllSatisfy(w, 0, d, IsDigit) && AllSatisfy(w, d + 1, |w|, IsDigit)
  }

  /** Text between two delimiters `q` that does not contain one. */
  predicate IsQuoted(w: string, q: char) {
    |w| >= 2 && w[0] == q && w[|w| - 1] == q && forall k | 0 < k < |w| - 1 :: w[k] != q
  }

  /** Slash-star-star, a body up to the first star-slash. */
  predicate IsDocComment(w: string) {
    |w| >= 5 && w[0] == '/' && w[1] == '*' && w[2] == '*' && w[3] != '/' && CloseAt(w, 3) == |w| - 2
  }

  predicate IsOperator(w: string) {
    || (|w| == 1 && w[0] in "(){}[];,+-/~@#.*=!<>:")
    || (|w| == 2 && w[0] == w[1] && w[0] in ".*=:")
    || (|w| == 2 && w[0] in "!<>" && w[1] == '=')
    || (|w| == 2 && w[0] == ':' && w[1] == '>')
    || (|w| == 3 && w[0] == ':' && w[1] in ":>" && w[2] == '>')
  }

  /** The texts that are one token. */
  ghost predicate IsLexeme(w: string) {
    || IsBareIdentifier(w)
    || IsNumeral(w)
    || IsQuoted(w, '"')
    || IsQuoted(w, '\'')
    || IsDocComment(w)
    || IsOperator(w)
  }

  /** The operator spelled `w`, or `EOF`. */
  function OperatorKind(w: string): Kind {
    if |w| == 1 && w == "(" then LEFT_PAREN
    else if |w| == 1 && w == ")" then RIGHT_PAREN
    else if |w| == 1 && w == "{" then LEFT_BRACE
    else if |w| == 1 && w == "}" then RIGHT_BRACE
    else if |w| == 1 && w == "[" then LEFT_BRACKET
    else if |w| == 1 && w == "]" then RIGHT_BRACKET
    else if |w| == 1 && w == ";" then SEMICOLON
    else if |w| == 1 && w == "," then COMMA
    else if |w| == 1 && w == "+" then PLUS
    else if |w| == 1 && w == "-" then MINUS
    else if |w| == 1 && w == "/" then SLASH
    else if |w| == 1 && w == "~" then TILDE
    else if |w| == 1 && w == "@" then AT_SIGN
    else if |w| == 1 && w == "#" then HASH
    else if |w| == 1 && w == "." then PERIOD
    else if |w| == 1 && w == "*" then STAR
    else if |w| == 1 && w == "=" then EQUAL
    else if |w| == 1 && w == "!" then BANG
    else if |w| == 1 && w == "<" then LESS
    else if |w| == 1 && w == ">" then GREATER
    else if |w| == 1 && w == ":" then COLON
    else if |w| == 2 && w == ".." then DOT_DOT
    else if |w| == 2 && w == "**" then STAR_STAR
    else if |w| == 2 && w == "==" then EQUAL_EQUAL
    else if |w| == 2 && w == "!=" then BANG_EQUAL
    else if |w| == 2 && w == "<=" then LESS_EQUAL
    else if |w| == 2 && w == ">=" then GREATER_EQUAL
    else if |w| == 2 && w == "::" then COLON_COLON
    else if |w| == 2 && w == ":>" then COLON_GREATER
    else if |w| == 3 && w == ":>>" then COLON_GREATER_GREATER
    else if |w| == 3 && w == "::>" then COLON_GREATER
    else EOF
  }

  /** The keyword that a word of some length is, or `EOF`. */
  function KeywordOf(w: string): Kind {
    if |w| == 2 then Word2(w)
    else if |w| == 3 then Word3(w)
    else if |w| == 4 then Word4(w)
    else if |w| == 5 then Word5(w)
    else if |w| == 6 then Word6(w)
    else if |w| == 7 then Word7(w)
    else if |w| == 8 then Word8(w)
    else if |w| == 9 then Word9(w)
    else if |w| == 10 then Word10(w)
    else if |w| == 11 then Word11(w)
    else if |w| == 12 then Word12(w)
    else EOF
  }

  function Word2(w: string): Kind {
    if w == "do" then KW_DO
    else if w == "if" then KW_IF
    else if w == "in" then KW_IN
    else if w == "of" then KW_OF
    else if w == "or" then KW_OR
    else if w == "to" then KW_TO
    else EOF
  }

  function Word3(w: string): Kind {
    if w == "and" then KW_AND
    else if w == "def" then KW_DEF
    else if w == "doc" then KW_DOC
    else if w == "end" then KW_END
    else if w == "for" then KW_FOR
    else if w == "out" then KW_OUT
    else if w == "ref" then KW_REF
    else if w == "use" then KW_USE
    else if w == "xor" then KW_XOR
    else EOF
  }

  function Word4(w: string): Kind {
    if w == "bind" then KW_BIND
    else if w == "calc" then KW_CALC
    else if w == "done" then KW_DONE
    else if w == "enum" then KW_ENUM
    else if w == "exit" then KW_EXIT
    else if w == "flow" then KW_FLOW
    else if w == "from" then KW_FROM
    else if w == "item" then KW_ITEM
    else if w == "meta" then KW_META
    else if w == "part" then KW_PART
    else if w == "port" then KW_PORT
    else if w == "then" then KW_THEN
    else if w == "true" then KW_TRUE
    else if w == "view" then KW_VIEW
    else EOF
  }

  function Word5(w: string): Kind {
    if w == "about" then KW_ABOUT
    else if w == "actor" then KW_ACTOR
    else if w == "alias" then KW_ALIAS
    else if w == "entry" then KW_ENTRY
    else if w == "event" then KW_EVENT
    else if w == "false" then KW_FALSE
    else if w == "first" then KW_FIRST
    else if w == "inout" then KW_INOUT
    else if w == "start" then KW_START
    else if w == "state" then KW_STATE
    else EOF
  }

  function Word6(w: string): Kind {
    if w == "accept" then KW_ACCEPT
    else if w == "action" then KW_ACTION
    else if w == "assert" then KW_ASSERT
    else if w == "assume" then KW_ASSUME
    else if w == "filter" then KW_FILTER
    else if w == "import" then KW_IMPORT
    else if w == "public" then KW_PUBLIC
    else if w == "return" then KW_RETURN
    else EOF
  }

  function Word7(w: string): Kind {
    if w == "comment" then KW_COMMENT
    else if w == "concern" then KW_CONCERN
    else if w == "connect" then KW_CONNECT
    else if w == "default" then KW_DEFAULT
    else if w == "derived" then KW_DERIVED
    else if w == "exhibit" then KW_EXHIBIT
    else if w == "include" then KW_INCLUDE
    else if w == "message" then KW_MESSAGE
    else if w == "ordered" then KW_ORDERED
    else if w == "package" then KW_PACKAGE
    else if w == "perform" then KW_PERFORM
    else if w == "private" then KW_PRIVATE
    else if w == "require" then KW_REQUIRE
    else if w == "satisfy" then KW_SATISFY
    else if w == "subject" then KW_SUBJECT
    else if w == "subsets" then KW_SUBSETS
    else if w == "variant" then KW_VARIANT
    else EOF
  }

  function Word8(w: string): Kind {
    if w == "abstract" then KW_ABSTRACT
    else if w == "allocate" then KW_ALLOCATE
    else if w == "analysis" then KW_ANALYSIS
    else if w == "constant" then KW_CONSTANT
    else if w == "metadata" then KW_METADATA
    else if w == "snapshot" then KW_SNAPSHOT
    else EOF
  }

  function Word9(w: string): Kind {
    if w == "attribute" then KW_ATTRIBUTE
    else if w == "interface" then KW_INTERFACE
    else if w == "nonunique" then KW_NONUNIQUE
    else if w == "objective" then KW_OBJECTIVE
    else if w == "protected" then KW_PROTECTED
    else if w == "redefines" then KW_REDEFINES
    else if w == "rendering" then KW_RENDERING
    else if w == "timeslice" then KW_TIMESLICE
    else if w == "variation" then KW_VARIATION
    else if w == "viewpoint" then KW_VIEWPOINT
    else EOF
  }

  function Word10(w: string): Kind {
    if w == "allocation" then KW_ALLOCATION
    else if w == "connection" then KW_CONNECTION
    else if w == "constraint" then KW_CONSTRAINT
    else if w == "dependency" then KW_DEPENDENCY
    else if w == "individual" then KW_INDIVIDUAL
    else if w == "occurrence" then KW_OCCURRENCE
    else if w == "succession" then KW_SUCCESSION
    else if w == "transition" then KW_TRANSITION
    else EOF
  }

  function Word11(w: string): Kind {
    if w == "requirement" then KW_REQUIREMENT
    else if w == "specializes" then KW_SPECIALIZES
    else EOF
  }

  function Word12(w: string): Kind {
    if w == "verification" then KW_VERIFICATION
    else EOF
  }

  /** The words the scanner takes for keywords. */
  lemma Length2(w: string)
    requires |w| == 2
    ensures KeywordKind(w) == Word2(w)
  {
  }

  lemma Length3(w: string)
    requires |w| == 3
    ensures KeywordKind(w) == Word3(w)
  {
  }

  lemma Length4(w: string)
    requires |w| == 4
    ensures KeywordKind(w) == Word4(w)
  {
  }

  lemma Length5(w: string)
    requires |w| == 5
    ensures KeywordKind(w) == Word5(w)
  {
  }

  lemma Length6(w: string)
    requires |w| == 6
    ensures KeywordKind(w) == Word6(w)
  {
  }

  lemma Length7(w: string)
    requires |w| == 7
    ensures KeywordKind(w) == Word7(w)
  {
  }

  lemma Length8(w: string)
    requires |w| == 8
    ensures KeywordKind(w) == Word8(w)
  {
  }

  lemma Length9(w: string)
    requires |w| == 9
    ensures KeywordKind(w) == Word9(w)
  {
  }

  lemma Length10(w: string)
    requires |w| == 10
    ensures KeywordKind(w) == Word10(w)
  {
  }

  lemma Length11(w: string)
    requires |w| == 11
    ensures KeywordKind(w) == Word11(w)
  {
  }

  lemma Length12(w: string)
    requires |w| == 12
    ensures KeywordKind(w) == Word12(w)
  {
  }

  lemma KeywordRule(w: string)
    ensures KeywordKind(w) == KeywordOf(w)
  {
    hide KeywordKind, Word2, Word3, Word4, Word5, Word6, Word7, Word8, Word9, Word10, Word11, Word12;
    if |w| == 2 { Length2(w); }
    if |w| == 3 { Length3(w); }
    if |w| == 4 { Length4(w); }
    if |w| == 5 { Length5(w); }
    if |w| == 6 { Length6(w); }
    if |w| == 7 { Length7(w); }
    if |w| == 8 { Length8(w); }
    if |w| == 9 { Length9(w); }
    if |w| == 10 { Length10(w); }
    if |w| == 11 { Length11(w); }
    if |w| == 12 { Length12(w); }
    if |w| < 2 || |w| > 12 { OtherLengths(w); }
  }

  lemma OtherLengths(w: string)
    requires |w| < 2 || |w| > 12
    ensures KeywordKind(w) == EOF
  {
  }

  /** `w` is a way to write the token `t`. */
  predicate Writes(w: string, t: Token) {
    match t
    case Sym(k) => if IsBareIdentifier(w) then KeywordOf(w) == k != EOF else OperatorKind(w) == k != EOF
    case Name(x) => (w == x && IsBareIdentifier(x) && KeywordOf(x) == EOF) || (w == "'" + x + "'" && '\'' !in x)
    case Number(x) => w == x
    case Text(x) => w == x
    case DocBody(x) => w == "/**" + x + "*/"
    case Bad(_) => false
  }

  // ---- the scanner reads the longest lexeme --------------------------------------------

  function Piece(s: string, i: nat, k: nat): string
    requires i <= k <= |s|
  {
    s[i..k]
  }

  lemma PieceAt(s: string, i: nat, k: nat, j: nat)
    requires i <= k <= |s| && j < k - i
    ensures Piece(s, i, k)[j] == s[i + j]
  {
  }

  /** The first character tells the kinds of lexeme apart. */
  lemma LexemeByFirst(w: string)
    requires IsLexeme(w)
    ensures w != ""
    ensures IsAlpha(w[0]) ==> IsBareIdentifier(w)
    ensures IsDigit(w[0]) ==> IsNumeral(w)
    ensures w[0] == '"' || w[0] == '\'' ==> IsQuoted(w, w[0])
    ensures w[0] == '/' ==> IsDocComment(w) || IsOperator(w)
    ensures w[0] == '.' ==> IsNumeral(w) || IsOperator(w)
    ensures w[0] !in "\"'/." && !IsWordChar(w[0]) ==> IsOperator(w)
  {
  }

  /** From position `i` no lexeme extends beyond `j`. */
  ghost predicate Longest(s: string, i: nat, j: nat)
    requires i <= |s|
  {
    forall k | i <= k <= |s| && j < k :: !IsLexeme(Piece(s, i, k))
  }

  lemma WordIsLongest(s: string, i: nat)
    requires i < |s| && IsAlpha(s[i])
    ensures var j := SpanEnd(s, i, IsWordChar); i < j && IsBareIdentifier(Piece(s, i, j)) && Longest(s, i, j)
  {
    hide IsLexeme, IsNumeral, IsQuoted, IsDocComment, IsOperator;
    var j := SpanEnd(s, i, IsWordChar);
    SpanIsMaximal(s, i, IsWordChar);
    forall k | i <= k <= |s| && j < k ensures !IsLexeme(Piece(s, i, k)) {
      LongerThanWord(s, i, j, k);
    }
  }

  lemma LongerThanWord(s: string, i: nat, j: nat, k: nat)
    requires i < j < k <= |s| && IsAlpha(s[i]) && !IsWordChar(s[j])
    ensures !IsLexeme(Piece(s, i, k))
  {
    hide IsLexeme, IsNumeral, IsQuoted, IsDocComment, IsOperator;
    var w := Piece(s, i, k);
    PieceAt(s, i, k, 0);
    PieceAt(s, i, k, j - i);
    if IsLexeme(w) {
      LexemeByFirst(w);
      WordEverywhere(w, j - i);
    }
  }

  lemma WordEverywhere(w: string, n: nat)
    requires IsBareIdentifier(w) && n < |w|
    ensures IsWordChar(w[n])
  {
  }

  /** Where a numeral that starts at `i` can end, given where its leading digits end. */
  lemma NumeralEnd(s: string, i: nat, k: nat, d: nat)
    requires i <= d < k <= |s| && IsNumeral(Piece(s, i, k))
    requires d == SpanEnd(s, i, IsDigit)
    ensures s[d] == '.' && d + 1 < k <= SpanEnd(s, d + 1, IsDigit) && IsDigit(s[d + 1])
  {
    var w := Piece(s, i, k);
    SpanIsMaximal(s, i, IsDigit);
    PieceAt(s, i, k, d - i);
    assert !AllSatisfy(w, 0, |w|, IsDigit) by { assert !IsDigit(w[d - i]); }
    var e :| 0 <= e < |w| - 1 && w[e] == '.' && AllSatisfy(w, 0, e, IsDigit) && AllSatisfy(w, e + 1, |w|, IsDigit);
    PieceAt(s, i, k, e);
    assert e == d - i;
    forall q | d + 1 <= q < k ensures IsDigit(s[q]) {
      PieceAt(s, i, k, q - i);
    }
    SpanPrefix(s, d + 1, k, IsDigit);
  }

  lemma DigitsArePiece(s: string, i: nat, j: nat, p: char -> bool)
    requires i <= j <= |s| && forall k | i <= k < j :: p(s[k])
    ensures AllSatisfy(Piece(s, i, j), 0, j - i, p)
  {
  }

  lemma NumberIsLongest(s: string, i: nat)
    requires i < |s| && IsDigit(s[i])
    ensures var j := NumberEnd(s, i); i < j && IsNumeral(Piece(s, i, j)) && Longest(s, i, j)
  {
    hide IsLexeme;
    var d, j := SpanEnd(s, i, IsDigit), NumberEnd(s, i);
    SpanIsMaximal(s, i, IsDigit);
    assert j == d || (s[d] == '.' && j == SpanEnd(s, d + 1, IsDigit) && IsDigit(s[d + 1]));
    var w := Piece(s, i, j);
    if j == d {
      DigitsArePiece(s, i, j, IsDigit);
    } else {
      SpanIsMaximal(s, d + 1, IsDigit);
      PieceAt(s, i, j, d - i);
      assert AllSatisfy(w, 0, d - i, IsDigit) && AllSatisfy(w, d - i + 1, |w|, IsDigit);
    }
    forall k | i <= k <= |s| && j < k ensures !IsLexeme(Piece(s, i, k)) {
      PieceAt(s, i, k, 0);
      if IsLexeme(Piece(s, i, k)) {
        LexemeByFirst(Piece(s, i, k));
        NumeralEnd(s, i, k, d);
      }
    }
  }

  lemma QuotedEndsAtQuote(w: string, q: char, k: nat)
    requires 0 < k < |w| - 1 && w[k] == q
    ensures !IsQuoted(w, q)
  {
  }

  lemma QuotedPiece(s: string, i: nat, j: nat, q: char)
    requires i < j < |s| && s[i] == s[j] == q && forall k | i < k < j :: s[k] != q
    ensures IsQuoted(Piece(s, i, j + 1), q)
  {
  }

  lemma QuotedIsLongest(s: string, i: nat, p: char -> bool, q: char)
    requires i < |s| && s[i] == q && (q == '"' || q == '\'') && forall c :: p(c) <==> c != q
    ensures var j := SpanEnd(s, i + 1, p);
      if j == |s| then Longest(s, i, j) else IsQuoted(Piece(s, i, j + 1), q) && Longest(s, i, j + 1)
  {
    hide IsLexeme, IsQuoted, Piece, IsNumeral, IsOperator, IsDocComment, IsBareIdentifier;
    var j := SpanEnd(s, i + 1, p);
    SpanIsMaximal(s, i + 1, p);
    if j < |s| { QuotedPiece(s, i, j, q); }
    forall k | i <= k <= |s| && j + 1 < k ensures !IsLexeme(Piece(s, i, k)) {
      LongerThanQuoted(s, i, j, k, q);
    }
  }

  lemma LongerThanQuoted(s: string, i: nat, j: nat, k: nat, q: char)
    requires i < j && j + 1 < k <= |s| && s[i] == s[j] == q && (q == '"' || q == '\'')
    ensures !IsLexeme(Piece(s, i, k))
  {
    hide IsLexeme, IsQuoted, IsNumeral, IsOperator, IsDocComment, IsBareIdentifier;
    PieceAt(s, i, k, 0);
    PieceAt(s, i, k, j - i);
    QuotedEndsAtQuote(Piece(s, i, k), q, j - i);
    if IsLexeme(Piece(s, i, k)) { LexemeByFirst(Piece(s, i, k)); }
  }

  lemma {:induction false} CloseOfPiece(s: string, i: nat, k: nat, j: nat)
    requires i <= j <= k <= |s|
    ensures var c := CloseAt(s, j);
      if c < |s| && c + 2 <= k then CloseAt(Piece(s, i, k), j - i) == c - i
      else CloseAt(Piece(s, i, k), j - i) == k - i
    decreases k - j
  {
    var w := Piece(s, i, k);
    if j < k {
      PieceAt(s, i, k, j - i);
      assert At(w, j + 1 - i) == if j + 1 < k then s[j + 1] else '\0';
      if !(w[j - i] == '*' && At(w, j - i + 1) == '/') {
        CloseOfPiece(s, i, k, j + 1);
      }
    }
  }

  lemma DocIsLongest(s: string, i: nat)
    requires i < |s| && OpensDoc(s, i)
    ensures var c := CloseAt(s, i + 3);
      if c < |s| then IsDocComment(Piece(s, i, c + 2)) && Longest(s, i, c + 2) else Longest(s, i, c)
  {
    hide IsLexeme;
    var c := CloseAt(s, i + 3);
    if c < |s| {
      var w := Piece(s, i, c + 2);
      CloseIsFirst(s, i + 3);
      CloseOfPiece(s, i, c + 2, i + 3);
      assert w[0] == s[i] && w[1] == s[i + 1] && w[2] == s[i + 2] && w[3] == s[i + 3];
      forall k | i <= k <= |s| && c + 2 < k ensures !IsLexeme(Piece(s, i, k)) {
        PieceAt(s, i, k, 0);
        CloseOfPiece(s, i, k, i + 3);
        if IsLexeme(Piece(s, i, k)) {
          LexemeByFirst(Piece(s, i, k));
          OperatorIsShort(Piece(s, i, k));
        }
      }
    }
  }

  lemma OperatorIsShort(w: string)
    requires IsOperator(w)
    ensures |w| <= 3 && (w[0] == '/' ==> |w| == 1)
  {
  }

  /** A longer piece than `j - i` is no operator unless its characters say so. */
  lemma SingleIsLongest(s: string, i: nat)
    requires i < |s| && s[i] in "(){}[];,+-~@#"
    ensures IsOperator(Piece(s, i, i + 1)) && Longest(s, i, i + 1)
  {
    hide IsLexeme;
    forall k | i <= k <= |s| && i + 1 < k ensures !IsLexeme(Piece(s, i, k)) {
      PieceAt(s, i, k, 0);
      if IsLexeme(Piece(s, i, k)) { LexemeByFirst(Piece(s, i, k)); }
    }
  }

  /** What an operator longer than one character consists of. */
  lemma LongOperator(w: string)
    requires IsOperator(w) && |w| > 1
    ensures w[0] in "*=." ==> |w| == 2 && w[1] == w[0]
    ensures w[0] in "!<>" ==> |w| == 2 && w[1] == '='
    ensures w[0] == ':' ==> w[1] in ":>" && (|w| > 2 ==> |w| == 3 && w[2] == '>')
  {
  }

  lemma PairIsLongest(s: string, i: nat, next: char)
    requires i < |s| && ((s[i] in "*=" && next == s[i]) || (s[i] in "!<>" && next == '='))
    ensures var j := if At(s, i + 1) == next then i + 2 else i + 1;
      j <= |s| && IsOperator(Piece(s, i, j)) && Longest(s, i, j)
  {
    hide IsLexeme;
    var j := if At(s, i + 1) == next then i + 2 else i + 1;
    forall k | i <= k <= |s| && j < k ensures !IsLexeme(Piece(s, i, k)) {
      PieceAt(s, i, k, 0);
      PieceAt(s, i, k, 1);
      if IsLexeme(Piece(s, i, k)) {
        LexemeByFirst(Piece(s, i, k));
        LongOperator(Piece(s, i, k));
      }
    }
  }

  lemma DotIsLongest(s: string, i: nat)
    requires i < |s| && s[i] == '.'
    ensures var j := if IsDigit(At(s, i + 1)) then SpanEnd(s, i + 1, IsDigit) else if At(s, i + 1) == '.' then i + 2 else i + 1;
      i < j <= |s| && (IsNumeral(Piece(s, i, j)) || IsOperator(Piece(s, i, j))) && Longest(s, i, j)
  {
    hide IsLexeme, IsNumeral, SpanEnd;
    if IsDigit(At(s, i + 1)) { FractionPiece(s, i); }
    var j := if IsDigit(At(s, i + 1)) then SpanEnd(s, i + 1, IsDigit) else if At(s, i + 1) == '.' then i + 2 else i + 1;
    forall k | i <= k <= |s| && j < k ensures !IsLexeme(Piece(s, i, k)) {
      LongerThanDot(s, i, j, k);
    }
  }

  lemma FractionPiece(s: string, i: nat)
    requires i < |s| && s[i] == '.' && IsDigit(At(s, i + 1))
    ensures var j := SpanEnd(s, i + 1, IsDigit); i + 1 < j && IsNumeral(Piece(s, i, j))
  {
    var j := SpanEnd(s, i + 1, IsDigit);
    SpanIsMaximal(s, i + 1, IsDigit);
    var w := Piece(s, i, j);
    assert w[0] == '.' && AllSatisfy(w, 0, 0, IsDigit) && AllSatisfy(w, 1, |w|, IsDigit);
  }

  lemma LongerThanDot(s: string, i: nat, j: nat, k: nat)
    requires i < j < k <= |s| && s[i] == '.'
    requires j == if IsDigit(At(s, i + 1)) then SpanEnd(s, i + 1, IsDigit) else if At(s, i + 1) == '.' then i + 2 else i + 1
    ensures !IsLexeme(Piece(s, i, k))
  {
    hide IsLexeme, IsNumeral;
    PieceAt(s, i, k, 0);
    PieceAt(s, i, k, 1);
    assert SpanEnd(s, i, IsDigit) == i;
    if IsLexeme(Piece(s, i, k)) {
      LexemeByFirst(Piece(s, i, k));
      if IsNumeral(Piece(s, i, k)) {
        NumeralEnd(s, i, k, i);
      } else {
        LongOperator(Piece(s, i, k));
      }
    }
  }

  lemma ColonIsLongest(s: string, i: nat)
    requires i < |s| && s[i] == ':'
    ensures var j := ScanColon(s, i).end; IsOperator(Piece(s, i, j)) && Longest(s, i, j)
  {
    hide IsLexeme;
    var j := ScanColon(s, i).end;
    forall k | i <= k <= |s| && j < k ensures !IsLexeme(Piece(s, i, k)) {
      PieceAt(s, i, k, 0);
      PieceAt(s, i, k, 1);
      if k > i + 2 { PieceAt(s, i, k, 2); }
      if IsLexeme(Piece(s, i, k)) {
        LexemeByFirst(Piece(s, i, k));
        LongOperator(Piece(s, i, k));
      }
    }
  }

  lemma SlashIsLongest(s: string, i: nat)
    requires i < |s| && s[i] == '/' && At(s, i + 1) != '*'
    ensures IsOperator(Piece(s, i, i + 1)) && Longest(s, i, i + 1)
  {
    hide IsLexeme;
    forall k | i <= k <= |s| && i + 1 < k ensures !IsLexeme(Piece(s, i, k)) {
      PieceAt(s, i, k, 0);
      PieceAt(s, i, k, 1);
      if IsLexeme(Piece(s, i, k)) {
        LexemeByFirst(Piece(s, i, k));
        if IsOperator(Piece(s, i, k)) { OperatorIsShort(Piece(s, i, k)); }
      }
    }
  }

  /** A character that starts no lexeme at all. */
  lemma NothingStartsHere(s: string, i: nat)
    requires i < |s| && !IsWordChar(s[i]) && s[i] !in "(){}[];,+-/~@#.*=!<>:\"'"
    ensures Longest(s, i, i)
  {
    hide IsLexeme;
    forall k | i <= k <= |s| && i < k ensures !IsLexeme(Piece(s, i, k)) {
      PieceAt(s, i, k, 0);
      if IsLexeme(Piece(s, i, k)) { LexemeByFirst(Piece(s, i, k)); }
    }
  }

  /** The punctuation arm of the scanner. */
  lemma PunctuationIsLongest(s: string, i: nat)
    requires i < |s| && !IsWordChar(s[i]) && (s[i] == '/' ==> At(s, i + 1) != '*')
    ensures var r := ScanPunctuation(s, i); Longest(s, i, r.end) && (r.token.Bad? || IsLexeme(Piece(s, i, r.end)))
  {
    hide Longest, Piece, IsNumeral, IsOperator, IsQuoted, IsDocComment, IsBareIdentifier, SpanEnd, ScanColon;
    match s[i]
    case '.' => DotIsLongest(s, i);
    case '*' => PairIsLongest(s, i, '*');
    case '=' => PairIsLongest(s, i, '=');
    case '!' => PairIsLongest(s, i, '=');
    case '<' => PairIsLongest(s, i, '=');
    case '>' => PairIsLongest(s, i, '=');
    case ':' => ColonIsLongest(s, i);
    case '"' => QuotedIsLongest(s, i, NotQuote, '"');
    case '\'' => QuotedIsLongest(s, i, NotApostrophe, '\'');
    case '/' => SlashIsLongest(s, i);
    case c =>
      if c in "(){}[];,+-~@#" {
        SingleIsLongest(s, i);
      } else {
        NothingStartsHere(s, i);
        LongestWeaken(s, i);
      }
  }

  lemma LongestWeaken(s: string, i: nat)
    requires i < |s| && Longest(s, i, i)
    ensures Longest(s, i, i + 1)
  {
  }

  /** Where no trivia starts, the scanner reads a longest lexeme, or reports an error at a
      place where no longer lexeme starts either. */
  lemma TokenIsLongest(s: string, i: nat)
    requires i < |s| && TriviaUnit(s, i) == i
    ensures var r := ScanOne(s, i); Longest(s, i, r.end) && (r.token.Bad? || IsLexeme(Piece(s, i, r.end)))
  {
    hide Longest, Piece, IsNumeral, IsOperator, IsQuoted, IsDocComment, IsBareIdentifier, ScanPunctuation, NumberEnd,
         KeywordKind;
    if OpensDoc(s, i) {
      DocIsLongest(s, i);
    } else if IsAlpha(s[i]) {
      WordIsLongest(s, i);
    } else if IsDigit(s[i]) {
      NumberIsLongest(s, i);
    } else {
      PunctuationIsLongest(s, i);
    }
  }

  lemma OperatorIsWritten(s: string, i: nat)
    requires i < |s| && !IsWordChar(s[i]) && s[i] !in "\"'" && !(s[i] == '.' && IsDigit(At(s, i + 1)))
    ensures var r := ScanPunctuation(s, i); r.token.Bad? || Writes(Piece(s, i, r.end), r.token)
  {
    hide SpanEnd;
    var r := ScanPunctuation(s, i);
    var w := Piece(s, i, r.end);
    if r.end == i + 1 { assert w == [s[i]]; }
    if r.end == i + 2 { assert w == [s[i], s[i + 1]]; }
    if r.end == i + 3 { assert w == [s[i], s[i + 1], s[i + 2]]; }
  }

  lemma EndsOfSlice(s: string, i: nat, j: nat)
    requires i < j < |s|
    ensures s[i..j + 1] == [s[i]] + s[i + 1..j] + [s[j]]
  {
  }

  lemma QuotedNameIsWritten(s: string, i: nat)
    requires i < |s| && s[i] == '\''
    ensures var r := ScanQuotedName(s, i); r.token.Bad? || Writes(Piece(s, i, r.end), r.token)
  {
    var j := SpanEnd(s, i + 1, NotApostrophe);
    SpanIsMaximal(s, i + 1, NotApostrophe);
    if j < |s| {
      EndsOfSlice(s, i, j);
      assert "'" == ['\''] && s[j] == '\'';
    }
  }

  lemma DocIsWritten(s: string, i: nat)
    requires i < |s| && OpensDoc(s, i)
    ensures var r := ScanInterior(s, i + 3); r.token.Bad? || Writes(Piece(s, i, r.end), r.token)
  {
    var c := CloseAt(s, i + 3);
    CloseIsFirst(s, i + 3);
    if c < |s| { assert Piece(s, i, c + 2) == "/**" + s[i + 3..c] + "*/"; }
  }

  /** The token is one that the text it is read from writes. */
  lemma TokenIsWritten(s: string, i: nat)
    requires i < |s| && TriviaUnit(s, i) == i
    ensures var r := ScanOne(s, i); r.token.Bad? || Writes(Piece(s, i, r.end), r.token)
  {
    hide KeywordKind, KeywordOf, OperatorKind, NumberEnd, ScanInterior, ScanQuotedName, IsBareIdentifier;
    if OpensDoc(s, i) {
      DocIsWritten(s, i);
    } else if IsAlpha(s[i]) {
      WordIsLongest(s, i);
      KeywordRule(Piece(s, i, SpanEnd(s, i, IsWordChar)));
    } else if !IsDigit(s[i]) {
      if s[i] == '\'' {
        QuotedNameIsWritten(s, i);
      } else if s[i] != '"' && !(s[i] == '.' && IsDigit(At(s, i + 1))) {
        OperatorIsWritten(s, i);
      }
    }
  }

  // ---- a whole run ------------------------------------------------------------------------

  /** One call of the scanner: trivia `[from, start)`, then the text `[start, end)`. */
  datatype Tile = Tile(from: nat, start: nat, end: nat, token: Token)

  /** The calls the parser makes from position `i` on, as for `Lex`. */
  function Run(s: string, i: nat, afterDoc: bool): seq<Tile>
    requires i <= |s|
    decreases |s| - i, afterDoc
  {
    if afterDoc then
      var r := ScanDoc(s, i);
      [Tile(i, DocLead(s, i), r.end, r.token)] + Run(s, r.end, false)
    else
      var j := TriviaEnd(s, i);
      if j == |s| then []
      else
        var r := ScanOne(s, j);
        [Tile(i, j, r.end, r.token)] + Run(s, r.end, r.token == Sym(KW_DOC))
  }

  /** The text of consecutive tiles, trivia included. */
  function TextOf(s: string, tiles: seq<Tile>): string
  {
    if tiles == [] then ""
    else
      var t := tiles[0];
      (if t.from <= t.start <= t.end <= |s| then s[t.from..t.start] + s[t.start..t.end] else "") + TextOf(s, tiles[1..])
  }

  function RunEnd(i: nat, tiles: seq<Tile>): nat {
    if tiles == [] then i else tiles[|tiles| - 1].end
  }

  /** The tiles of a run and the trivia after them make up the source. */
  lemma {:induction false} RunTilesTheSource(s: string, i: nat, afterDoc: bool)
    requires i <= |s|
    ensures var tiles := Run(s, i, afterDoc);
      && i <= RunEnd(i, tiles) <= |s|
      && TextOf(s, tiles) + s[RunEnd(i, tiles)..] == s[i..]
      && TriviaEnd(s, RunEnd(i, tiles)) == |s|
    decreases |s| - i, afterDoc
  {
    hide ScanOne, ScanDoc, TriviaEnd, DocLead, Run, TextOf;
    var tiles := Run(s, i, afterDoc);
    if tiles == [] {
      NoTile(s, i, afterDoc);
    } else {
      var t := tiles[0];
      var next := !afterDoc && t.token == Sym(KW_DOC);
      FirstTile(s, i, afterDoc);
      RunTilesTheSource(s, t.end, next);
      var rest := Run(s, t.end, next);
      FirstText(s, t, rest);
      assert s[i..] == (s[t.from..t.start] + s[t.start..t.end]) + s[t.end..];
      Regroup3(s[t.from..t.start] + s[t.start..t.end], TextOf(s, rest), s[RunEnd(i, tiles)..]);
    }
  }

  lemma NoTile(s: string, i: nat, afterDoc: bool)
    requires i <= |s| && Run(s, i, afterDoc) == []
    ensures TriviaEnd(s, i) == |s| && TextOf(s, []) == ""
  {
    hide TriviaEnd;
  }

  lemma FirstText(s: string, t: Tile, rest: seq<Tile>)
    requires t.from <= t.start <= t.end <= |s|
    ensures TextOf(s, [t] + rest) == (s[t.from..t.start] + s[t.start..t.end]) + TextOf(s, rest)
    ensures forall i :: RunEnd(i, [t] + rest) == RunEnd(t.end, rest)
  {
    assert ([t] + rest)[1..] == rest;
  }

  /** Their tokens are those the parser receives. */
  lemma {:induction false} RunTokens(s: string, i: nat, afterDoc: bool)
    requires i <= |s|
    ensures |Run(s, i, afterDoc)| == |Lex(s, i, afterDoc)|
    ensures forall k | 0 <= k < |Run(s, i, afterDoc)| :: Run(s, i, afterDoc)[k].token == Lex(s, i, afterDoc)[k]
    decreases |s| - i, afterDoc
  {
    hide ScanOne, ScanDoc, TriviaEnd, DocLead;
    if afterDoc {
      RunTokens(s, ScanDoc(s, i).end, false);
    } else if TriviaEnd(s, i) < |s| {
      var r := ScanOne(s, TriviaEnd(s, i));
      RunTokens(s, r.end, r.token == Sym(KW_DOC));
    }
  }

  lemma FirstTile(s: string, i: nat, afterDoc: bool)
    requires i <= |s| && Run(s, i, afterDoc) != []
    ensures var tiles := Run(s, i, afterDoc);
      var t := tiles[0];
      && i == t.from <= t.start <= t.end <= |s| && (i < t.end || afterDoc)
      && tiles == [t] + Run(s, t.end, !afterDoc && t.token == Sym(KW_DOC))
  {
    hide ScanOne, TriviaEnd, DocLead;
  }
}
