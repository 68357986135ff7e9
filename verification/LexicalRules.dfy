/** Letters, trivia and scanner errors, in terms of the characters alone. */
module LexicalRules {
  import opened Tokens
  import opened Lexical
  import opened Tiling

  // ---- characters ---------------------------------------------------------------------------------------------

  const LOWER := "abcdefghijklmnopqrstuvwxyz"
  const UPPER := "ABCDEFGHIJKLMNOPQRSTUVWXYZ"
  const DIGITS := "0123456789"

  lemma LowerRule(c: char)
    ensures 'a' <= c <= 'z' <==> c in LOWER
  {
    if 'a' <= c <= 'z' { assert LOWER[c as int - 'a' as int] == c; }
  }

  lemma UpperRule(c: char)
    ensures 'A' <= c <= 'Z' <==> c in UPPER
  {
    if 'A' <= c <= 'Z' { assert UPPER[c as int - 'A' as int] == c; }
  }

  lemma DigitRule(c: char)
    ensures IsDigit(c) <==> c in DIGITS
  {
    if '0' <= c <= '9' { assert DIGITS[c as int - '0' as int] == c; }
  }

  predicate IsLetter(c: char) { c in LOWER || c in UPPER || c == '_' }

  lemma LetterRule(c: char)
    ensures IsAlpha(c) <==> IsLetter(c)
  {
    LowerRule(c);
    UpperRule(c);
  }

  /** A bare name is written with letters, digits and underscores, no digit first. */
  lemma BareNameRule(w: string)
    ensures IsBareIdentifier(w) <==>
      w != "" && w[0] !in DIGITS && forall i | 0 <= i < |w| :: IsLetter(w[i]) || w[i] in DIGITS
  {
    forall i | 0 <= i < |w| ensures (IsAlpha(w[i]) <==> IsLetter(w[i])) && (IsDigit(w[i]) <==> w[i] in DIGITS) {
      LetterRule(w[i]);
      DigitRule(w[i]);
    }
  }

  // ---- trivia ---------------------------------------------------------------------------------------------------

  predicate Begins(s: string, i: nat, w: string) { i + |w| <= |s| && s[i..i + |w|] == w }

  /** A comment for documentation, which is a token. */
  predicate BeginsDoc(s: string, i: nat) { Begins(s, i, "/**") && !Begins(s, i, "/**/") }

  predicate ClosesAt(s: string, k: nat) { Begins(s, k, "*/") }

  /** From `i` to `j` there is a line comment. */
  predicate IsLine(s: string, i: nat, j: nat) {
    i <= j <= |s| && Begins(s, i, "//") && '\n' !in s[i..j] && (j == |s| || s[j] == '\n')
  }

  /** From `i` to `j` there is a block comment, which ends with its first closing delimiter or with the source. */
  predicate IsBlock(s: string, i: nat, j: nat) {
    && i < j <= |s| && Begins(s, i, "/*") && !BeginsDoc(s, i)
    && if exists k | i + 2 <= k < |s| :: ClosesAt(s, k)
       then i + 4 <= j && ClosesAt(s, j - 2) && forall k | i + 2 <= k < j - 2 :: !ClosesAt(s, k)
       else j == |s|
  }

  /** From `i` to `j` there is one piece of trivia. */
  predicate IsUnit(s: string, i: nat, j: nat) {
    || (i < |s| && s[i] in {' ', '\t', '\r', '\n'} && j == i + 1)
    || IsLine(s, i, j)
    || IsBlock(s, i, j)
  }

  lemma BeginsAt(s: string, i: nat)
    requires i <= |s|
    ensures Begins(s, i, "//") <==> OpensLine(s, i)
    ensures Begins(s, i, "/*") <==> At(s, i) == '/' && At(s, i + 1) == '*'
    ensures BeginsDoc(s, i) <==> OpensDoc(s, i)
    ensures ClosesAt(s, i) <==> At(s, i) == '*' && At(s, i + 1) == '/'
  {
    if i + 2 <= |s| { assert s[i..i + 2] == [s[i], s[i + 1]]; }
    if i + 3 <= |s| { assert s[i..i + 3] == [s[i], s[i + 1], s[i + 2]]; }
    if i + 4 <= |s| { assert s[i..i + 4] == [s[i], s[i + 1], s[i + 2], s[i + 3]]; }
  }

  lemma CloseIs(s: string, i: nat)
    requires i <= |s|
    ensures var c := CloseAt(s, i);
      (c < |s| ==> ClosesAt(s, c)) && (forall k | i <= k <= |s| && k < c + 1 :: ClosesAt(s, k) ==> k == c < |s|)
  {
    hide ClosesAt;
    CloseIsFirst(s, i);
    var c := CloseAt(s, i);
    BeginsAt(s, c);
    forall k | i <= k <= |s| && k < c + 1 && ClosesAt(s, k) ensures k == c < |s| {
      BeginsAt(s, k);
    }
  }

  lemma LineRule(s: string, i: nat, j: nat)
    requires i < |s| && OpensLine(s, i)
    ensures IsLine(s, i, j) <==> j == SpanEnd(s, i, NotNewline)
  {
    BeginsAt(s, i);
    SpanIsMaximal(s, i, NotNewline);
    if IsLine(s, i, j) {
      forall k | i <= k < j ensures NotNewline(s[k]) { assert s[k] in s[i..j]; }
      SpanExact(s, i, j, NotNewline);
    }
  }

  lemma BlockRule(s: string, i: nat, j: nat)
    requires i < |s| && OpensBlock(s, i)
    ensures IsBlock(s, i, j) <==> j == BlockEnd(s, i)
  {
    BeginsAt(s, i);
    hide ClosesAt, BeginsDoc, OpensDoc, Begins;
    CloseIs(s, i + 2);
  }

  /** The trivia the scanner passes at `i` in one step. */
  lemma UnitRule(s: string, i: nat, j: nat)
    requires i <= |s|
    ensures IsUnit(s, i, j) <==> j == TriviaUnit(s, i) && j != i
  {
    hide Begins, BeginsDoc, OpensDoc, ClosesAt, BlockEnd;
    BeginsAt(s, i);
    if i < |s| && OpensLine(s, i) { LineRule(s, i, j); SpanStarts(s, i); }
    if i < |s| && OpensBlock(s, i) { BlockRule(s, i, j); }
  }

  lemma SpanStarts(s: string, i: nat)
    requires i < |s| && NotNewline(s[i])
    ensures i < SpanEnd(s, i, NotNewline)
  {
  }

  /** The ends of consecutive pieces of trivia, the first of which starts at `from`. */
  ghost predicate AreUnits(s: string, from: nat, ends: seq<nat>)
    decreases |ends|
  {
    ends == [] || (IsUnit(s, from, ends[0]) && AreUnits(s, ends[0], ends[1..]))
  }

  /** `j` is where the trivia at `i` ends: pieces fill the text up to it and none starts there. */
  ghost predicate IsTrivia(s: string, i: nat, j: nat) {
    && (exists ends: seq<nat> :: AreUnits(s, i, ends) && j == if ends == [] then i else ends[|ends| - 1])
    && forall k: nat :: !IsUnit(s, j, k)
  }

  lemma {:induction false} TriviaIsUnits(s: string, i: nat) returns (ends: seq<nat>)
    requires i <= |s|
    ensures AreUnits(s, i, ends) && TriviaEnd(s, i) == if ends == [] then i else ends[|ends| - 1]
    decreases |s| - i
  {
    hide IsUnit, TriviaUnit;
    var j := TriviaUnit(s, i);
    UnitRule(s, i, j);
    if j == i { return []; }
    var rest := TriviaIsUnits(s, j);
    ends := [j] + rest;
  }

  lemma {:induction false} UnitsAreTrivia(s: string, i: nat, ends: seq<nat>)
    requires i <= |s| && AreUnits(s, i, ends)
    ensures var j := if ends == [] then i else ends[|ends| - 1]; j <= |s| && TriviaEnd(s, i) == TriviaEnd(s, j)
    decreases |ends|
  {
    hide IsUnit, TriviaUnit;
    if ends != [] {
      UnitRule(s, i, ends[0]);
      UnitsAreTrivia(s, ends[0], ends[1..]);
    }
  }

  /** The trivia between tokens. */
  lemma TriviaRule(s: string, i: nat, j: nat)
    requires i <= |s|
    ensures IsTrivia(s, i, j) <==> j == TriviaEnd(s, i)
  {
    hide IsUnit, TriviaUnit, AreUnits;
    if IsTrivia(s, i, j) {
      var ends: seq<nat> :| AreUnits(s, i, ends) && j == if ends == [] then i else ends[|ends| - 1];
      UnitsAreTrivia(s, i, ends);
      UnitRule(s, j, TriviaUnit(s, j));
    }
    var e := TriviaEnd(s, i);
    var ends := TriviaIsUnits(s, i);
    forall k: nat ensures !IsUnit(s, e, k) { UnitRule(s, e, k); }
  }

  // ---- the saved block comment -------------------------------------------------------------------------------

  /** The text inside the block comment from `i` to `j`, nothing when it is not closed. */
  function Interior(s: string, i: nat, j: nat): string
    requires IsBlock(s, i, j)
  {
    if i + 4 <= j && ClosesAt(s, j - 2) then s[i + 2..j - 2] else ""
  }

  /** `saved` is the text of the last block comment among the pieces that end at `ends`. */
  ghost predicate IsSaved(s: string, from: nat, ends: seq<nat>, seen: Block, saved: Block)
    decreases |ends|
  {
    if ends == [] then saved == seen
    else
      var last := |ends| - 1;
      var start := if last == 0 then from else ends[last - 1];
      if IsBlock(s, start, ends[last]) then saved == Block(Interior(s, start, ends[last]))
      else IsSaved(s, from, ends[..last], seen, saved)
  }

  lemma InteriorIs(s: string, i: nat)
    requires i < |s| && OpensBlock(s, i)
    ensures IsBlock(s, i, BlockEnd(s, i)) && Interior(s, i, BlockEnd(s, i)) == BlockBody(s, i)
  {
    hide ClosesAt, BeginsDoc, OpensDoc, Begins;
    BlockRule(s, i, BlockEnd(s, i));
    CloseIs(s, i + 2);
  }

  lemma {:induction false} SavedAfterOne(s: string, from: nat, first: nat, ends: seq<nat>, seen: Block, saved: Block)
    requires IsUnit(s, from, first)
    ensures IsSaved(s, from, [first] + ends, seen, saved) <==>
      IsSaved(s, first, ends, if IsBlock(s, from, first) then Block(Interior(s, from, first)) else seen, saved)
    decreases |ends|
  {
    hide IsUnit, IsBlock, Interior;
    if ends != [] {
      assert ([first] + ends)[..|ends|] == [first] + ends[..|ends| - 1];
      SavedAfterOne(s, from, first, ends[..|ends| - 1], seen, saved);
    } else {
      assert ([first] + ends)[..0] == [];
    }
  }

  /** The comment kept for a declaration that follows is the last block comment before it. */
  lemma {:induction false} SavedRule(s: string, i: nat, ends: seq<nat>, seen: Block)
    requires i <= |s| && AreUnits(s, i, ends) && TriviaEnd(s, i) == if ends == [] then i else ends[|ends| - 1]
    ensures IsSaved(s, i, ends, seen, LastBlock(s, i, seen))
    decreases |ends|
  {
    hide IsUnit, IsBlock, TriviaUnit, OpensBlock, Interior, BlockBody;
    if ends == [] {
      LastOfNone(s, i, seen);
    } else {
      UnitRule(s, i, ends[0]);
      UnitIsBlock(s, i);
      var next := if OpensBlock(s, i) then Block(BlockBody(s, i)) else seen;
      SavedRule(s, ends[0], ends[1..], next);
      SavedAfterOne(s, i, ends[0], ends[1..], seen, LastBlock(s, i, seen));
      assert ends == [ends[0]] + ends[1..];
    }
  }

  lemma LastOfNone(s: string, i: nat, seen: Block)
    requires i <= |s| && TriviaEnd(s, i) == i
    ensures LastBlock(s, i, seen) == seen
  {
  }

  lemma UnitIsBlock(s: string, i: nat)
    requires i <= |s|
    ensures IsBlock(s, i, TriviaUnit(s, i)) <==> OpensBlock(s, i)
    ensures OpensBlock(s, i) ==> Interior(s, i, TriviaUnit(s, i)) == BlockBody(s, i)
  {
    hide Begins, BeginsDoc, OpensDoc, ClosesAt, BlockEnd, Interior, BlockBody;
    BeginsAt(s, i);
    if OpensBlock(s, i) { InteriorIs(s, i); }
  }

  // ---- the text after the word `doc` -------------------------------------------------------------------------

  ghost predicate IsLead(s: string, i: nat, j: nat) { IsUnit(s, i, j) && !IsBlock(s, i, j) }

  /** `j` is where the blanks and line comments at `i` end. */
  ghost predicate LeadsTo(s: string, i: nat, j: nat)
    requires i <= |s|
    decreases |s| - i
  {
    if exists k: nat :: IsLead(s, i, k) then exists k: nat :: IsLead(s, i, k) && LeadsTo(s, k, j) else j == i
  }

  lemma LeadIs(s: string, i: nat, j: nat)
    requires i <= |s|
    ensures IsLead(s, i, j) <==> j == TriviaUnit(s, i) != i && !OpensBlock(s, i)
  {
    hide IsUnit, IsBlock, TriviaUnit;
    UnitRule(s, i, j);
    UnitIsBlock(s, i);
  }

  lemma {:induction false} LeadRule(s: string, i: nat, j: nat)
    requires i <= |s|
    ensures LeadsTo(s, i, j) <==> j == DocLead(s, i)
    decreases |s| - i
  {
    hide IsLead, SpanEnd, LeadsTo, OpensDoc;
    var u := TriviaUnit(s, i);
    LeadStep(s, i, j);
    if OpensLine(s, i) { SpanStarts(s, i); }
    if u != i && !OpensBlock(s, i) { LeadRule(s, u, j); }
  }

  lemma LeadStep(s: string, i: nat, j: nat)
    requires i <= |s|
    ensures var u := TriviaUnit(s, i); LeadsTo(s, i, j) <==> if u != i && !OpensBlock(s, i) then LeadsTo(s, u, j) else j == i
  {
    hide IsLead, OpensBlock, TriviaUnit;
    forall k: nat ensures IsLead(s, i, k) <==> k == TriviaUnit(s, i) != i && !OpensBlock(s, i) { LeadIs(s, i, k); }
    var u := TriviaUnit(s, i);
    assert u != i && !OpensBlock(s, i) ==> IsLead(s, i, u);
  }

  /** At `j` there is a comment around `x`. */
  predicate Describes(s: string, j: nat, x: string) {
    var o := if BeginsDoc(s, j) then j + 3 else j + 2;
    Begins(s, j, "/*") && Begins(s, o, x) && ClosesAt(s, o + |x|) && forall k | o <= k < o + |x| :: !ClosesAt(s, k)
  }

  /** After `doc` the scanner returns the text of a comment of either form, or an error. */
  lemma DocBodyRule(s: string, i: nat, x: string)
    requires i <= |s|
    ensures var r := ScanDoc(s, i).token; (r == DocBody(x) <==> Describes(s, DocLead(s, i), x)) && (r.DocBody? || r.Bad?)
  {
    hide Begins, BeginsDoc, ClosesAt, DocLead;
    var j := DocLead(s, i);
    BeginsAt(s, j);
    if Begins(s, j, "/*") { BodyRule(s, if BeginsDoc(s, j) then j + 3 else j + 2, x); }
  }

  lemma BodyRule(s: string, o: nat, x: string)
    requires o <= |s|
    ensures ScanInterior(s, o).token == DocBody(x) <==>
      Begins(s, o, x) && ClosesAt(s, o + |x|) && forall k | o <= k < o + |x| :: !ClosesAt(s, k)
  {
    hide ClosesAt;
    CloseIs(s, o);
    assert ClosesAt(s, o + |x|) ==> o + |x| <= |s| by { hide *; CloseInside(s, o + |x|); }
  }

  lemma CloseInside(s: string, k: nat)
    ensures ClosesAt(s, k) ==> k + 2 <= |s|
  {
  }

  // ---- scanner errors ------------------------------------------------------------------------------------------

  /** Nothing that is a token starts at `i`. */
  ghost predicate NoLexeme(s: string, i: nat) {
    forall k | i <= k <= |s| :: !IsLexeme(s[i..k])
  }

  ghost predicate IsOpenDoc(s: string, i: nat) {
    BeginsDoc(s, i) && forall k | i + 3 <= k <= |s| :: !ClosesAt(s, k)
  }

  lemma OpenDocRule(s: string, i: nat)
    requires i < |s| && OpensDoc(s, i)
    ensures ScanInterior(s, i + 3).token.Bad? <==> IsOpenDoc(s, i)
  {
    hide Begins, BeginsDoc, ClosesAt;
    BeginsAt(s, i);
    CloseIs(s, i + 3);
  }

  lemma OpenQuote(s: string, i: nat, p: char -> bool, q: char)
    requires i < |s| && s[i] == q && (q == '"' || q == '\'') && (forall c :: p(c) <==> c != q)
    requires SpanEnd(s, i + 1, p) == |s|
    ensures NoLexeme(s, i)
  {
    hide IsLexeme, IsNumeral, IsDocComment, IsOperator;
    SpanIsMaximal(s, i + 1, p);
    forall k | i <= k <= |s| ensures !IsLexeme(s[i..k]) {
      if IsLexeme(s[i..k]) { LexemeByFirst(s[i..k]); }
    }
  }

  /** Where no trivia starts the scanner reports an error exactly if no token starts there, or a documentation
      comment that is never closed. */
  lemma BadExactly(s: string, i: nat)
    requires i < |s| && TriviaUnit(s, i) == i
    ensures ScanOne(s, i).token.Bad? <==> NoLexeme(s, i) || IsOpenDoc(s, i)
  {
    hide NoLexeme, IsOpenDoc, ScanOne;
    if OpensDoc(s, i) {
      DocErrors(s, i);
    } else {
      OtherErrors(s, i);
    }
  }

  lemma DocErrors(s: string, i: nat)
    requires i < |s| && TriviaUnit(s, i) == i && OpensDoc(s, i)
    ensures ScanOne(s, i).token.Bad? <==> NoLexeme(s, i) || IsOpenDoc(s, i)
  {
    hide NoLexeme, IsOpenDoc, ScanInterior;
    OpenDocRule(s, i);
    SlashIsLexeme(s, i);
  }

  lemma OtherErrors(s: string, i: nat)
    requires i < |s| && TriviaUnit(s, i) == i && !OpensDoc(s, i)
    ensures ScanOne(s, i).token.Bad? <==> NoLexeme(s, i) || IsOpenDoc(s, i)
  {
    hide IsLexeme, ScanOne, BeginsDoc, ClosesAt;
    BeginsAt(s, i);
    TokenIsLongest(s, i);
    var r := ScanOne(s, i);
    if r.token.Bad? {
      ErrorStarts(s, i);
    } else {
      assert Piece(s, i, r.end) == s[i..r.end];
    }
  }

  lemma ErrorStarts(s: string, i: nat)
    requires i < |s| && TriviaUnit(s, i) == i && !OpensDoc(s, i) && ScanOne(s, i).token.Bad?
    ensures NoLexeme(s, i)
  {
    hide NoLexeme, Longest, SpanEnd, KeywordKind, NumberEnd, SingleToken, ScanPair, ScanColon;
    if s[i] == '"' {
      OpenQuote(s, i, NotQuote, '"');
    } else if s[i] == '\'' {
      OpenQuote(s, i, NotApostrophe, '\'');
    } else {
      OddCharacter(s, i);
      NothingStartsHere(s, i);
      NothingAtAll(s, i);
    }
  }

  lemma OddCharacter(s: string, i: nat)
    requires i < |s| && TriviaUnit(s, i) == i && !OpensDoc(s, i) && ScanOne(s, i).token.Bad?
    requires s[i] != '"' && s[i] != '\''
    ensures !IsWordChar(s[i]) && s[i] !in "(){}[];,+-/~@#.*=!<>:\"'"
  {
    hide SpanEnd, KeywordKind, NumberEnd, SingleToken, TriviaUnit;
    var c := s[i];
    assert c != '.' && c != '*' && c != '=' && c != '!' && c != '<' && c != '>' && c != ':';
    NoSingle(c);
  }

  lemma NoSingle(c: char)
    requires SingleToken(c).Bad? && c != '"' && c != '\''
    requires c != '.' && c != '*' && c != '=' && c != '!' && c != '<' && c != '>' && c != ':'
    ensures c !in "(){}[];,+-/~@#.*=!<>:\"'"
  {
  }

  lemma SlashIsLexeme(s: string, i: nat)
    requires i < |s| && s[i] == '/'
    ensures !NoLexeme(s, i)
  {
    assert s[i..i + 1] == ['/'];
    assert IsOperator(s[i..i + 1]);
  }

  lemma NothingAtAll(s: string, i: nat)
    requires i < |s| && Longest(s, i, i)
    ensures NoLexeme(s, i)
  {
    hide IsNumeral, IsDocComment;
    forall k | i <= k <= |s| ensures !IsLexeme(s[i..k]) {
      assert Piece(s, i, k) == s[i..k];
      if k == i { EmptyIsNoLexeme(); }
    }
  }

  lemma EmptyIsNoLexeme()
    ensures !IsLexeme("")
  {
  }
}
