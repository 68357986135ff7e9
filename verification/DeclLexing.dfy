/** Scanning the printed text of declarations gives their tokens. */
module DeclLexing {
  import opened Basics
  import opened Tokens
  import opened Lexical
  import opened Syntax
  import opened Outline
  import opened Sequences
  import opened Pratt
  import opened Printing
  import opened TextLexing
  import opened DeclGrammar
  import opened DeclSpelling
  import opened DeclReading
  import opened DeclPrinting

  // ---- tails of the text --------------------------------------------------------------

  predicate IsTail(s: string, t: string) {
    |t| <= |s| && s[|s| - |t|..] == t
  }

  /** The tokens of the tail `t`. */
  function LexAt(s: string, t: string): seq<Token>
    requires |t| <= |s|
  {
    Lex(s, |s| - |t|, false)
  }

  lemma TailFits(s: string, t: string)
    requires IsTail(s, t)
    ensures |t| <= |s|
  {
  }

  function First(t: string): char { At(t, 0) }

  /** The text starts with a character that ends names, numbers and expressions. */
  predicate Sep(t: string) {
    t != "" && t[0] in " ;,]\n}:"
  }

  lemma TailSplit(s: string, w: string, t: string)
    requires IsTail(s, w + t)
    ensures IsTail(s, t) && Occurs(s, |s| - |w + t|, w)
    ensures |s| - |t| == |s| - |w + t| + |w|
  {
    var i := |s| - |w + t|;
    assert s[i..] == w + t;
    assert s[i..i + |w|] == (w + t)[..|w|];
    assert s[i + |w|..] == (w + t)[|w|..];
  }

  lemma TailChars(s: string, t: string)
    requires IsTail(s, t)
    ensures At(s, |s| - |t|) == At(t, 0) && At(s, |s| - |t| + 1) == At(t, 1)
  {
    var i := |s| - |t|;
    if t != "" { assert s[i..][0] == t[0]; }
    if |t| > 1 { assert s[i..][1] == t[1]; }
  }

  /** From a statement about positions to one about tails. */
  lemma TailLexes(s: string, w: string, t: string, ts: seq<Token>)
    requires IsTail(s, w + t) && Lexes(s, |s| - |w + t|, |s| - |w + t| + |w|, ts)
    ensures IsTail(s, t) && LexAt(s, w + t) == ts + LexAt(s, t)
  {
    hide Lex;
    TailSplit(s, w, t);
  }

  // ---- single pieces -----------------------------------------------------------------------

  lemma TailBlank(s: string, c: char, t: string)
    requires IsTail(s, [c] + t) && IsBlank(c)
    ensures IsTail(s, t) && LexAt(s, [c] + t) == LexAt(s, t)
  {
    hide ScanOne;
    TailSplit(s, [c], t);
    var i := |s| - |[c] + t|;
    OccursChars(s, i, [c]);
    assert TriviaUnit(s, i) == i + 1;
    assert TriviaEnd(s, i) == TriviaEnd(s, i + 1);
  }

  lemma TailChar(s: string, c: char, t: string)
    requires IsTail(s, [c] + t) && c in "(),;{}[]~+-"
    ensures IsTail(s, t) && LexAt(s, [c] + t) == [SingleToken(c)] + LexAt(s, t)
  {
    hide Lex;
    TailSplit(s, [c], t);
    LexChar(s, |s| - |[c] + t|, c);
    TailLexes(s, [c], t, [SingleToken(c)]);
  }

  lemma TailWord(s: string, w: string, t: string)
    requires IsTail(s, w + t) && IsBareIdentifier(w) && WordToken(w) != Sym(KW_DOC) && !IsWordChar(First(t))
    ensures IsTail(s, t) && LexAt(s, w + t) == [WordToken(w)] + LexAt(s, t)
  {
    hide Lex, WordToken;
    TailSplit(s, w, t);
    TailChars(s, t);
    LexBareWord(s, |s| - |w + t|, w);
    TailLexes(s, w, t, [WordToken(w)]);
  }

  lemma SepEnds(s: string, t: string)
    requires IsTail(s, t) && Sep(t)
    ensures SafeEnd(s, |s| - |t|) && !IsWordChar(At(s, |s| - |t|))
  {
    TailChars(s, t);
  }

  lemma TailName(s: string, w: string, t: string)
    requires IsTail(s, NameText(w) + t) && PrintableName(w) && Sep(t)
    ensures IsTail(s, t) && LexAt(s, NameText(w) + t) == [Name(w)] + LexAt(s, t)
  {
    hide Lex, KeywordKind, NameText, Sep, SafeEnd, Occurs, Lexes, IsWordChar;
    TailSplit(s, NameText(w), t);
    SepEnds(s, t);
    LexName(s, |s| - |NameText(w) + t|, w);
    TailLexes(s, NameText(w), t, [Name(w)]);
  }

  predicate GoodParts(parts: seq<string>) {
    parts != [] && forall k | 0 <= k < |parts| :: PrintableName(parts[k])
  }

  lemma PathAt(s: string, i: nat, parts: seq<string>)
    requires GoodParts(parts) && Occurs(s, i, PathText(parts)) && !IsWordChar(At(s, i + |PathText(parts)|))
    ensures Lexes(s, i, i + |PathText(parts)|, NamesYield(parts))
  {
    hide Lex, KeywordKind, PathText, Occurs, Lexes, IsWordChar, NamesYield;
    LexPath(s, i, parts);
  }

  lemma TailPath(s: string, parts: seq<string>, t: string)
    requires IsTail(s, PathText(parts) + t) && Sep(t) && GoodParts(parts)
    ensures IsTail(s, t) && LexAt(s, PathText(parts) + t) == NamesYield(parts) + LexAt(s, t)
  {
    hide Lex, PathText, GoodParts, Sep, SafeEnd, Occurs, Lexes, IsWordChar, NamesYield;
    TailSplit(s, PathText(parts), t);
    SepEnds(s, t);
    PathAt(s, |s| - |PathText(parts) + t|, parts);
    TailLexes(s, PathText(parts), t, NamesYield(parts));
  }

  lemma TailExpr(s: string, e: Expr, t: string)
    requires IsTail(s, ExprText(e) + t) && Sep(t) && Shaped(e) && Named(e)
    ensures IsTail(s, t) && LexAt(s, ExprText(e) + t) == Spell(e) + LexAt(s, t)
  {
    hide Lex, ExprText, Shaped, Named, Spell, Sep, SafeEnd, Occurs, Lexes, IsWordChar;
    TailSplit(s, ExprText(e), t);
    SepEnds(s, t);
    LexExpr(s, |s| - |ExprText(e) + t|, e);
    TailLexes(s, ExprText(e), t, Spell(e));
  }

  lemma TailNumber(s: string, n: nat, t: string)
    requires IsTail(s, Decimal(n) + t) && t != "" && (t[0] == ']' || (t[0] == '.' && At(t, 1) == '.'))
    ensures IsTail(s, t) && LexAt(s, Decimal(n) + t) == [Number(Decimal(n))] + LexAt(s, t)
  {
    hide Lex, Decimal;
    TailSplit(s, Decimal(n), t);
    TailChars(s, t);
    DecimalDigits(n);
    assert AllDigits(Decimal(n));
    LexDigits(s, |s| - |Decimal(n) + t|, Decimal(n));
    TailLexes(s, Decimal(n), t, [Number(Decimal(n))]);
  }

  /** A one- or two-character operator that the next character does not extend. */
  lemma TailOperator(s: string, w: string, t: string, k: Kind)
    requires IsTail(s, w + t)
    requires (w == ":" && k == COLON && First(t) == ' ') || (w == ":>" && k == COLON_GREATER && First(t) == ' ')
          || (w == ":>>" && k == COLON_GREATER_GREATER) || (w == "=" && k == EQUAL && First(t) == ' ')
          || (w == "::" && k == COLON_COLON && First(t) == '*')
          || (w == ".." && k == DOT_DOT) || (w == "*" && k == STAR && (First(t) == ']' || First(t) == ';' || First(t) == '.'))
    ensures IsTail(s, t) && LexAt(s, w + t) == [Sym(k)] + LexAt(s, t)
  {
    hide Lex, WordToken, NumberEnd;
    TailSplit(s, w, t);
    TailChars(s, t);
    var i := |s| - |w + t|;
    OccursChars(s, i, w);
    FirstCharacter(s, i);
    OperatorScan(s, i, w, k);
    LexOne(s, i, Sym(k));
    TailLexes(s, w, t, [Sym(k)]);
  }

  lemma OperatorScan(s: string, i: nat, w: string, k: Kind)
    requires i + |w| <= |s| && forall j | 0 <= j < |w| :: s[i + j] == w[j]
    requires (w == ":" && k == COLON && At(s, i + 1) == ' ') || (w == ":>" && k == COLON_GREATER && At(s, i + 2) == ' ')
          || (w == ":>>" && k == COLON_GREATER_GREATER) || (w == "=" && k == EQUAL && At(s, i + 1) == ' ')
          || (w == "::" && k == COLON_COLON && At(s, i + 2) == '*')
          || (w == ".." && k == DOT_DOT) || (w == "*" && k == STAR && At(s, i + 1) in "];.")
    ensures ScanPunctuation(s, i) == Scan(Sym(k), i + |w|)
  {
    hide SpanEnd;
    assert s[i + 0] == w[0];
    if |w| > 1 { assert s[i + 1] == w[1]; }
    if |w| > 2 { assert s[i + 2] == w[2]; }
  }

  // ---- phrases ---------------------------------------------------------------------------------

  /** The word is written like a keyword and is the keyword `k`. */
  predicate Writes(w: string, k: Kind) {
    IsBareIdentifier(w) && WordToken(w) == Sym(k) && k != KW_DOC
  }

  /** A keyword before something that does not continue it. */
  lemma Keyword(s: string, w: string, t: string, k: Kind)
    requires IsTail(s, w + t) && Writes(w, k) && !IsWordChar(First(t))
    ensures IsTail(s, t) && LexAt(s, w + t) == [Sym(k)] + LexAt(s, t)
  {
    hide Lex, WordToken, IsBareIdentifier;
    TailWord(s, w, t);
  }

  /** A keyword and a blank. */
  lemma KeywordBlank(s: string, w: string, t: string, k: Kind)
    requires IsTail(s, (w + " ") + t) && Writes(w, k)
    ensures IsTail(s, t) && LexAt(s, (w + " ") + t) == [Sym(k)] + LexAt(s, t)
  {
    hide Lex, Writes;
    Regroup3(w, " ", t);
    Keyword(s, w, " " + t, k);
    TailBlank(s, ' ', t);
  }

  /** A keyword between blanks. */
  lemma SpacedKeyword(s: string, w: string, t: string, k: Kind)
    requires IsTail(s, (" " + w + " ") + t) && Writes(w, k)
    ensures IsTail(s, t) && LexAt(s, (" " + w + " ") + t) == [Sym(k)] + LexAt(s, t)
  {
    hide Lex, Writes;
    Regroup4(" ", w, " ", t);
    Regroup3(w, " ", t);
    TailBlank(s, ' ', (w + " ") + t);
    KeywordBlank(s, w, t, k);
  }

  /** A clause operator between blanks. */
  lemma SpacedOperator(s: string, w: string, t: string, k: Kind)
    requires IsTail(s, (" " + w + " ") + t)
    requires (w == ":" && k == COLON) || (w == ":>" && k == COLON_GREATER)
          || (w == ":>>" && k == COLON_GREATER_GREATER) || (w == "=" && k == EQUAL)
    ensures IsTail(s, t) && LexAt(s, (" " + w + " ") + t) == [Sym(k)] + LexAt(s, t)
  {
    hide Lex;
    Regroup4(" ", w, " ", t);
    Regroup3(w, " ", t);
    TailBlank(s, ' ', (w + " ") + t);
    TailOperator(s, w, " " + t, k);
    TailBlank(s, ' ', t);
  }

  /** A punctuation character and a blank or newline. */
  lemma CharBlank(s: string, c: char, b: char, t: string)
    requires IsTail(s, [c, b] + t) && c in "(),;{}[]~+-" && IsBlank(b)
    ensures IsTail(s, t) && LexAt(s, [c, b] + t) == [SingleToken(c)] + LexAt(s, t)
  {
    hide Lex;
    assert [c, b] + t == [c] + ([b] + t);
    TailChar(s, c, [b] + t);
    TailBlank(s, b, t);
  }

  lemma Semicolon(s: string, t: string)
    requires IsTail(s, ";\n" + t)
    ensures IsTail(s, t) && LexAt(s, ";\n" + t) == [Sym(SEMICOLON)] + LexAt(s, t) && Sep(";\n" + t)
  {
    hide Lex;
    CharBlank(s, ';', '\n', t);
  }

  lemma OpenBrace(s: string, t: string)
    requires IsTail(s, " {\n" + t)
    ensures IsTail(s, t) && LexAt(s, " {\n" + t) == [Sym(LEFT_BRACE)] + LexAt(s, t)
  {
    hide Lex;
    assert " {\n" + t == [' '] + ("{\n" + t);
    TailBlank(s, ' ', "{\n" + t);
    CharBlank(s, '{', '\n', t);
  }

  lemma EmptyBraces(s: string, t: string)
    requires IsTail(s, " { }\n" + t)
    ensures IsTail(s, t) && LexAt(s, " { }\n" + t) == [Sym(LEFT_BRACE)] + ([Sym(RIGHT_BRACE)] + LexAt(s, t))
  {
    hide Lex;
    assert " { }\n" + t == [' '] + ("{ " + ("}\n" + t));
    TailBlank(s, ' ', "{ " + ("}\n" + t));
    CharBlank(s, '{', ' ', "}\n" + t);
    CharBlank(s, '}', '\n', t);
  }

  lemma CommaBlank(s: string, t: string)
    requires IsTail(s, ", " + t)
    ensures IsTail(s, t) && LexAt(s, ", " + t) == [Sym(COMMA)] + LexAt(s, t)
  {
    hide Lex;
    CharBlank(s, ',', ' ', t);
  }

  // the keyword table, few words at a time, as their proofs are costly together

  lemma VisibilityWords()
    ensures Writes("public", KW_PUBLIC) && Writes("private", KW_PRIVATE) && Writes("protected", KW_PROTECTED)
  {
  }

  lemma ModifierWords()
    ensures Writes("derived", KW_DERIVED) && Writes("abstract", KW_ABSTRACT) && Writes("constant", KW_CONSTANT)
      && Writes("ref", KW_REF)
  {
  }

  lemma DirectionWords()
    ensures Writes("in", KW_IN) && Writes("out", KW_OUT) && Writes("inout", KW_INOUT)
  {
  }

  lemma DeclarationWords()
    ensures Writes("package", KW_PACKAGE) && Writes("import", KW_IMPORT) && Writes("def", KW_DEF)
      && Writes("attribute", KW_ATTRIBUTE)
  {
  }

  lemma PathWords()
    ensures Writes("alias", KW_ALIAS) && Writes("for", KW_FOR) && Writes("from", KW_FROM) && Writes("to", KW_TO)
  {
  }

  lemma ClauseWords()
    ensures Writes("connect", KW_CONNECT) && Writes("dependency", KW_DEPENDENCY)
  {
  }

  lemma EnumWord()
    ensures Writes("enum", KW_ENUM)
  {
  }

  lemma SuccessionWords()
    ensures Writes("succession", KW_SUCCESSION) && Writes("transition", KW_TRANSITION)
  {
  }

  lemma ActionWords()
    ensures Writes("action", KW_ACTION) && Writes("first", KW_FIRST)
  {
  }

  lemma ThenWords()
    ensures Writes("then", KW_THEN) && Writes("accept", KW_ACCEPT)
  {
  }

  lemma EndWords()
    ensures Writes("start", KW_START) && Writes("done", KW_DONE)
  {
  }

  lemma GuardWords()
    ensures Writes("if", KW_IF) && Writes("do", KW_DO)
  {
  }

  lemma PartKinds()
    ensures Writes("part", KW_PART) && Writes("port", KW_PORT) && Writes("interface", KW_INTERFACE)
  {
  }

  lemma ItemKinds()
    ensures Writes("item", KW_ITEM) && Writes("connection", KW_CONNECTION) && Writes("flow", KW_FLOW)
  {
  }

  lemma EndKinds()
    ensures Writes("end", KW_END) && Writes("requirement", KW_REQUIREMENT)
  {
  }

  lemma StateKind()
    ensures Writes("state", KW_STATE)
  {
  }

  lemma OccurrenceKind()
    ensures Writes("occurrence", KW_OCCURRENCE)
  {
  }

  lemma IndividualKind()
    ensures Writes("individual", KW_INDIVIDUAL)
  {
  }

  lemma SnapshotKind()
    ensures Writes("snapshot", KW_SNAPSHOT)
  {
  }

  lemma TimesliceKind()
    ensures Writes("timeslice", KW_TIMESLICE)
  {
  }

  lemma AllocationKind()
    ensures Writes("allocation", KW_ALLOCATION)
  {
  }

  lemma ViewKind()
    ensures Writes("view", KW_VIEW)
  {
  }

  lemma ViewpointKind()
    ensures Writes("viewpoint", KW_VIEWPOINT)
  {
  }

  lemma RenderingKind()
    ensures Writes("rendering", KW_RENDERING)
  {
  }

  lemma ConcernKind()
    ensures Writes("concern", KW_CONCERN)
  {
  }

  lemma ActorKind()
    ensures Writes("actor", KW_ACTOR)
  {
  }

  lemma MessageKind()
    ensures Writes("message", KW_MESSAGE)
  {
  }

  lemma MetadataKind()
    ensures Writes("metadata", KW_METADATA)
  {
  }

  lemma VerificationKind()
    ensures Writes("verification", KW_VERIFICATION)
  {
  }

  lemma ObjectiveKind()
    ensures Writes("objective", KW_OBJECTIVE)
  {
  }

  lemma AnalysisKind()
    ensures Writes("analysis", KW_ANALYSIS)
  {
  }

  lemma Keywords()
    ensures Writes("public", KW_PUBLIC) && Writes("private", KW_PRIVATE) && Writes("protected", KW_PROTECTED)
    ensures Writes("derived", KW_DERIVED) && Writes("abstract", KW_ABSTRACT) && Writes("constant", KW_CONSTANT)
      && Writes("ref", KW_REF)
    ensures Writes("in", KW_IN) && Writes("out", KW_OUT) && Writes("inout", KW_INOUT)
    ensures Writes("package", KW_PACKAGE) && Writes("import", KW_IMPORT) && Writes("def", KW_DEF)
      && Writes("attribute", KW_ATTRIBUTE)
    ensures Writes("alias", KW_ALIAS) && Writes("for", KW_FOR) && Writes("from", KW_FROM) && Writes("to", KW_TO)
    ensures Writes("connect", KW_CONNECT) && Writes("dependency", KW_DEPENDENCY) && Writes("enum", KW_ENUM)
    ensures Writes("succession", KW_SUCCESSION) && Writes("transition", KW_TRANSITION)
    ensures Writes("action", KW_ACTION) && Writes("first", KW_FIRST)
    ensures Writes("then", KW_THEN) && Writes("accept", KW_ACCEPT)
    ensures Writes("start", KW_START) && Writes("done", KW_DONE)
    ensures Writes("if", KW_IF) && Writes("do", KW_DO)
  {
    hide Writes;
    VisibilityWords();
    ModifierWords();
    DirectionWords();
    DeclarationWords();
    PathWords();
    ClauseWords();
    EnumWord();
    SuccessionWords();
    ActionWords();
    ThenWords();
    EndWords();
    GuardWords();
  }

  /** The printed keyword of a kind is scanned as that kind. */
  lemma KindIsWritten(k: Kind)
    requires k in PLAIN_KINDS || k == KW_ATTRIBUTE
    ensures Writes(KindText(k), k)
  {
    hide Writes;
    Keywords();
    PartKinds();
    ItemKinds();
    EndKinds();
    StateKind();
    OccurrenceKind();
    IndividualKind();
    SnapshotKind();
    TimesliceKind();
    AllocationKind();
    ViewKind();
    ViewpointKind();
    RenderingKind();
    ConcernKind();
    ActorKind();
    MessageKind();
    MetadataKind();
    VerificationKind();
    ObjectiveKind();
    AnalysisKind();
  }

  // ---- parts of declarations --------------------------------------------------------------------

  lemma {:induction false} LexIndent(s: string, depth: nat, rest: string)
    requires IsTail(s, IndentText(depth, rest))
    ensures IsTail(s, rest) && LexAt(s, IndentText(depth, rest)) == LexAt(s, rest)
  {
    hide Lex;
    if depth > 0 {
      var t := IndentText(depth - 1, rest);
      assert "    " + t == [' '] + ("   " + t) && "   " + t == [' '] + ("  " + t) && "  " + t == [' '] + (" " + t);
      TailBlank(s, ' ', "   " + t);
      TailBlank(s, ' ', "  " + t);
      TailBlank(s, ' ', " " + t);
      TailBlank(s, ' ', t);
      LexIndent(s, depth - 1, rest);
    }
  }

  lemma LexVisibility(s: string, v: Visibility, rest: string)
    requires IsTail(s, VisibilityText(v, rest))
    ensures IsTail(s, rest) && LexAt(s, VisibilityText(v, rest)) == VisibilityToks(v, LexAt(s, rest))
  {
    hide Lex, Writes;
    Keywords();
    match v
    case DefaultVisibility =>
    case Public => assert "public" + " " == "public "; KeywordBlank(s, "public", rest, KW_PUBLIC);
    case Private => assert "private" + " " == "private "; KeywordBlank(s, "private", rest, KW_PRIVATE);
    case Protected => assert "protected" + " " == "protected "; KeywordBlank(s, "protected", rest, KW_PROTECTED);
  }

  lemma LexDirection(s: string, d: Direction, rest: string)
    requires IsTail(s, DirectionText(d, rest))
    ensures IsTail(s, rest) && LexAt(s, DirectionText(d, rest)) == DirectionToks(d, LexAt(s, rest))
  {
    hide Lex, Writes;
    Keywords();
    match d
    case Undirected =>
    case In => assert "in" + " " == "in "; KeywordBlank(s, "in", rest, KW_IN);
    case Out => assert "out" + " " == "out "; KeywordBlank(s, "out", rest, KW_OUT);
    case InOut => assert "inout" + " " == "inout "; KeywordBlank(s, "inout", rest, KW_INOUT);
  }

  /** An optional keyword and its blank. */
  lemma LexFlag(s: string, flag: bool, w: string, rest: string, k: Kind)
    requires IsTail(s, FlagText(flag, w + " ", rest)) && Writes(w, k)
    ensures IsTail(s, rest) && LexAt(s, FlagText(flag, w + " ", rest)) == FlagToks(flag, k, LexAt(s, rest))
  {
    hide Lex, Writes;
    if flag { KeywordBlank(s, w, rest, k); }
  }

  lemma LexModifiers(s: string, m: Modifiers, rest: string)
    requires IsTail(s, ModifiersText(m, rest))
    ensures IsTail(s, rest) && LexAt(s, ModifiersText(m, rest)) == ModifiersToks(m, LexAt(s, rest))
  {
    hide Lex, Writes, FlagText, FlagToks;
    Keywords();
    assert "derived" + " " == "derived " && "abstract" + " " == "abstract ";
    assert "constant" + " " == "constant " && "ref" + " " == "ref ";
    var t3 := FlagText(m.isReference, "ref ", rest);
    var t2 := FlagText(m.isConstant, "constant ", t3);
    var t1 := FlagText(m.isAbstract, "abstract ", t2);
    LexFlag(s, m.isDerived, "derived", t1, KW_DERIVED);
    LexFlag(s, m.isAbstract, "abstract", t2, KW_ABSTRACT);
    LexFlag(s, m.isConstant, "constant", t3, KW_CONSTANT);
    LexFlag(s, m.isReference, "ref", rest, KW_REF);
  }

  // ---- names

  lemma {:induction false} YieldParts(parts: seq<string>, ts: seq<Token>)
    requires parts != []
    ensures NamesYield(parts) + ts == [Name(parts[0])] + PartsToks(parts[1..], ts)
    decreases |parts|
  {
    if |parts| > 1 {
      var front, last := parts[..|parts| - 1], parts[|parts| - 1];
      var end := [Sym(COLON_COLON), Name(last)] + ts;
      YieldParts(front, end);
      Regroup3(NamesYield(front), [Sym(COLON_COLON), Name(last)], ts);
      PartsAppend(front[1..], last, ts);
      assert front[1..] + [last] == parts[1..];
    }
  }

  lemma {:induction false} PartsAppend(parts: seq<string>, last: string, ts: seq<Token>)
    ensures PartsToks(parts + [last], ts) == PartsToks(parts, [Sym(COLON_COLON), Name(last)] + ts)
    decreases |parts|
  {
    if parts == [] {
      assert [] + [last] == [last] && [last][1..] == [];
      assert [Sym(COLON_COLON)] + ([Name(last)] + ts) == [Sym(COLON_COLON), Name(last)] + ts;
    } else {
      assert (parts + [last])[1..] == parts[1..] + [last];
      PartsAppend(parts[1..], last, ts);
    }
  }

  lemma LexQName(s: string, q: QName, rest: string)
    requires IsTail(s, QNameText(q, rest)) && GoodQName(q) && Sep(rest)
    ensures IsTail(s, rest) && LexAt(s, QNameText(q, rest)) == QNameToks(q, LexAt(s, rest))
  {
    hide Lex, PathText, NamesYield, Sep;
    if q.conjugated { TailChar(s, '~', PathText(q.parts) + rest); }
    TailPath(s, q.parts, rest);
    YieldParts(q.parts, LexAt(s, rest));
  }

  lemma LexAction(s: string, q: QName, rest: string)
    requires IsTail(s, QNameText(q, rest)) && GoodAction(q) && Sep(rest)
    ensures IsTail(s, rest) && LexAt(s, QNameText(q, rest)) == ActionToks(q, LexAt(s, rest))
  {
    hide Lex, Writes, GoodQName, QNameToks;
    if q.parts == ["start"] || q.parts == ["done"] {
      Keywords();
      BuiltinText(q.parts[0]);
      assert "start"[0] != "done"[0];
      Keyword(s, q.parts[0], rest, if q.parts == ["start"] then KW_START else KW_DONE);
    } else {
      LexQName(s, q, rest);
    }
  }

  lemma BuiltinText(w: string)
    requires w == "start" || w == "done"
    ensures PathText([w]) == w
  {
  }

  lemma {:induction false} LexNames(s: string, qs: seq<QName>, rest: string)
    requires IsTail(s, NamesText(qs, rest)) && GoodQNames(qs) && Sep(rest)
    ensures IsTail(s, rest) && LexAt(s, NamesText(qs, rest)) == QNamesToks(qs, LexAt(s, rest))
    decreases |qs|
  {
    hide Lex, QNameText, QNameToks, GoodQName;
    if |qs| == 1 {
      LexQName(s, qs[0], rest);
    } else if |qs| > 1 {
      var more := NamesText(qs[1..], rest);
      LexQName(s, qs[0], ", " + more);
      CommaBlank(s, more);
      LexNames(s, qs[1..], rest);
    }
  }

  lemma LexClause(s: string, w: string, k: Kind, qs: seq<QName>, rest: string)
    requires IsTail(s, ClauseText(" " + w + " ", qs, rest)) && GoodQNames(qs) && Sep(rest)
    requires (w == ":" && k == COLON) || (w == ":>" && k == COLON_GREATER) || (w == ":>>" && k == COLON_GREATER_GREATER)
    ensures IsTail(s, rest) && LexAt(s, ClauseText(" " + w + " ", qs, rest)) == ClauseToks(k, qs, LexAt(s, rest))
    ensures Sep(ClauseText(" " + w + " ", qs, rest))
  {
    hide Lex, NamesText, QNamesToks, GoodQNames;
    if qs != [] {
      SpacedOperator(s, w, NamesText(qs, rest), k);
      LexNames(s, qs, rest);
    }
  }

  lemma LexBound(s: string, b: Bound, rest: string)
    requires IsTail(s, BoundText(b) + rest) && rest != "" && (rest[0] == ']' || (rest[0] == '.' && At(rest, 1) == '.'))
    ensures IsTail(s, rest) && LexAt(s, BoundText(b) + rest) == [BoundTok(b)] + LexAt(s, rest)
  {
    hide Lex, Decimal;
    match b
    case Star => TailOperator(s, "*", rest, STAR);
    case Count(n) => TailNumber(s, n, rest);
  }

  lemma OpenBracket(s: string, t: string)
    requires IsTail(s, " [" + t)
    ensures IsTail(s, t) && LexAt(s, " [" + t) == [Sym(LEFT_BRACKET)] + LexAt(s, t)
  {
    hide Lex;
    assert " [" == " " + "[";
    Regroup3(" ", "[", t);
    TailBlank(s, ' ', "[" + t);
    TailChar(s, '[', t);
  }

  lemma LexUpper(s: string, b: Bound, end: string)
    requires IsTail(s, ".." + (BoundText(b) + end)) && end != "" && end[0] == ']'
    ensures IsTail(s, end) && LexAt(s, ".." + (BoundText(b) + end)) == [Sym(DOT_DOT)] + ([BoundTok(b)] + LexAt(s, end))
  {
    hide Lex, BoundText, BoundTok, IsTail, LexAt;
    TailOperator(s, "..", BoundText(b) + end, DOT_DOT);
    LexBound(s, b, end);
  }

  lemma LexMultiplicity(s: string, m: Option<Multiplicity>, rest: string)
    requires IsTail(s, MultiplicityText(m, rest)) && Sep(rest)
    ensures IsTail(s, rest) && LexAt(s, MultiplicityText(m, rest)) == MultiplicityToks(m, LexAt(s, rest))
    ensures Sep(MultiplicityText(m, rest))
  {
    hide Lex, BoundText, BoundTok, IsTail, LexAt;
    if m.Some? {
      var x := m.value;
      var end := "]" + rest;
      match x.upper {
        case None =>
          OpenBracket(s, BoundText(x.lower) + end);
          LexBound(s, x.lower, end);
        case Some(b) =>
          OpenBracket(s, BoundText(x.lower) + (".." + (BoundText(b) + end)));
          LexBound(s, x.lower, ".." + (BoundText(b) + end));
          LexUpper(s, b, end);
      }
      TailChar(s, ']', rest);
    }
  }

  lemma LexFeatures(s: string, f: Features, rest: string)
    requires IsTail(s, FeaturesText(f, rest)) && GoodFeatures(f) && Sep(rest)
    ensures IsTail(s, rest) && LexAt(s, FeaturesText(f, rest)) == FeaturesToks(f, LexAt(s, rest))
    ensures Sep(FeaturesText(f, rest))
  {
    hide Lex, ClauseText, ClauseToks, MultiplicityText, MultiplicityToks, GoodQNames, Sep;
    assert " " + ":" + " " == " : " && " " + ":>" + " " == " :> " && " " + ":>>" + " " == " :>> ";
    var t3 := MultiplicityText(f.multiplicity, rest);
    var t2 := ClauseText(" :>> ", f.redefines, t3);
    var t1 := ClauseText(" :> ", f.supers, t2);
    ClauseSep(" :>> ", f.redefines, t3);
    ClauseSep(" :> ", f.supers, t2);
    MultiplicitySep(f.multiplicity, rest);
    LexClause(s, ":", COLON, f.types, t1);
    LexClause(s, ":>", COLON_GREATER, f.supers, t2);
    LexClause(s, ":>>", COLON_GREATER_GREATER, f.redefines, t3);
    LexMultiplicity(s, f.multiplicity, rest);
  }

  lemma ClauseSep(prefix: string, qs: seq<QName>, rest: string)
    requires prefix != "" && prefix[0] == ' '
    ensures Sep(rest) ==> Sep(ClauseText(prefix, qs, rest))
  {
  }

  lemma MultiplicitySep(m: Option<Multiplicity>, rest: string)
    ensures Sep(rest) ==> Sep(MultiplicityText(m, rest))
  {
  }

  /** A value after `=`, or a guard after `if`. */
  lemma LexValue(s: string, v: Option<Expr>, rest: string)
    requires GoodValue(v) && Sep(rest)
    ensures IsTail(s, ValueText(" = ", v, rest)) ==>
      IsTail(s, rest) && LexAt(s, ValueText(" = ", v, rest)) == ValueToks(v, LexAt(s, rest))
    ensures IsTail(s, ValueText(" if ", v, rest)) ==>
      IsTail(s, rest) && LexAt(s, ValueText(" if ", v, rest)) == GuardToks(v, LexAt(s, rest))
    ensures Sep(ValueText(" = ", v, rest)) && Sep(ValueText(" if ", v, rest))
  {
    hide Lex, ExprText, Spell, Shaped, Named, Writes;
    if v.Some? {
      Keywords();
      assert " " + "=" + " " == " = " && " " + "if" + " " == " if ";
      var t := ExprText(v.value) + rest;
      if IsTail(s, " = " + t) {
        SpacedOperator(s, "=", t, EQUAL);
        TailExpr(s, v.value, rest);
      }
      if IsTail(s, " if " + t) {
        SpacedKeyword(s, "if", t, KW_IF);
        TailExpr(s, v.value, rest);
      }
    }
  }

  lemma LexSpacedName(s: string, name: string, rest: string)
    requires IsTail(s, SpacedName(name, rest)) && OptionalNameOk(name) && Sep(rest)
    ensures IsTail(s, rest) && LexAt(s, SpacedName(name, rest)) == NameToks(name, LexAt(s, rest))
    ensures Sep(SpacedName(name, rest))
  {
    hide Lex, NameText, PrintableName;
    if name != "" {
      TailBlank(s, ' ', NameText(name) + rest);
      TailName(s, name, rest);
    }
  }

  lemma LexOptional(s: string, w: string, k: Kind, q: Option<QName>, rest: string)
    requires IsTail(s, OptionalText(" " + w + " ", q, rest)) && GoodOption(q) && Sep(rest) && Writes(w, k)
    ensures IsTail(s, rest) && LexAt(s, OptionalText(" " + w + " ", q, rest)) == OptionalToks(k, q, LexAt(s, rest))
  {
    hide Lex, QNameText, QNameToks, Writes, GoodQName;
    if q.Some? {
      SpacedKeyword(s, w, QNameText(q.value, rest), k);
      LexQName(s, q.value, rest);
    }
  }

  lemma OptionalSep(prefix: string, q: Option<QName>, rest: string)
    requires prefix != "" && prefix[0] == ' ' && Sep(rest)
    ensures Sep(OptionalText(prefix, q, rest))
  {
  }

  lemma EndsWords()
    ensures " " + "from" + " " == " from " && " " + "connect" + " " == " connect " && " " + "to" + " " == " to "
  {
  }

  /** Two ends, between their keywords. */
  lemma EndsTwo(k: Kind, a: QName, b: QName, rest: string)
    ensures EndsText(k, [a, b], rest)
      == (if IsFlow(k) then " from " else " connect ") + QNameText(a, " to " + QNameText(b, rest))
  {
    hide QNameText;
    assert [a, b][1..] == [b] && [b][1..] == [];
    assert MoreEndsText([b], " to ", rest) == " to " + QNameText(b, MoreEndsText([], ", ", rest));
  }

  lemma LexEnds(s: string, k: Kind, ends: seq<QName>, rest: string)
    requires IsTail(s, EndsText(k, ends, rest)) && GoodEnds(k, ends) && Sep(rest)
    ensures IsTail(s, rest) && LexAt(s, EndsText(k, ends, rest)) == EndsToks(k, ends, LexAt(s, rest))
    ensures Sep(EndsText(k, ends, rest))
  {
    hide Lex, QNameText, QNameToks, Writes, GoodQName, IsTail, LexAt, MoreEndsText;
    if ends != [] {
      var a, b := ends[0], ends[1];
      assert ends == [a, b];
      EndsTwo(k, a, b, rest);
      EndsWords();
      Keywords();
      var target := QNameText(b, rest);
      var more := QNameText(a, " to " + target);
      if IsFlow(k) { SpacedKeyword(s, "from", more, KW_FROM); } else { SpacedKeyword(s, "connect", more, KW_CONNECT); }
      LexQName(s, a, " to " + target);
      SpacedKeyword(s, "to", target, KW_TO);
      LexQName(s, b, rest);
    }
  }

  // ---- whole declarations -----------------------------------------------------------------------

  lemma {:induction false} FirstClose(s: string, i: nat, j: nat)
    requires i <= j && j + 1 < |s|
    ensures CloseAt(s, i) == j <==> s[j] == '*' && s[j + 1] == '/' && forall k | i <= k < j :: !(s[k] == '*' && s[k + 1] == '/')
    decreases j - i
  {
    if i < j { FirstClose(s, i + 1, j); }
  }

  /** Where the characters of a printed comment are. */
  lemma DocChars(s: string, i: nat, body: string)
    requires Occurs(s, i, "/**" + body + "*/")
    ensures i + |body| + 5 <= |s| && s[i..i + 3] == "/**" && s[i + 3..i + |body| + 3] == body
    ensures s[i + |body| + 3] == '*' && s[i + |body| + 4] == '/'
  {
    OccursSplit(s, i, "/**" + body, "*/");
    OccursSplit(s, i, "/**", body);
    OccursChars(s, i + |body| + 3, "*/");
    assert s[i + |body| + 3 + 0] == "*/"[0] && s[i + |body| + 3 + 1] == "*/"[1];
  }

  /** The body can stand there exactly when the comment opens and closes around it. */
  lemma DocCloses(s: string, i: nat, body: string)
    requires Occurs(s, i, "/**" + body + "*/")
    ensures i + |body| + 5 <= |s|
    ensures GoodDoc(body) <==> s[i + 3] != '/' && CloseAt(s, i + 3) == i + |body| + 3
  {
    hide Occurs, CloseAt;
    DocChars(s, i, body);
    var last := i + |body| + 3;
    FirstClose(s, i + 3, last);
    assert forall j | 0 <= j < |body| :: s[i + 3 + j] == s[i + 3..last][j] == body[j];
    if GoodDoc(body) {
      forall k | i + 3 <= k < last ensures !(s[k] == '*' && s[k + 1] == '/') {
        assert s[k] == body[k - i - 3];
        if k + 1 < last { assert s[k + 1] == body[k + 1 - i - 3]; }
      }
    }
    if CloseAt(s, i + 3) == last {
      forall j | 0 <= j < |body| - 1 ensures !(body[j] == '*' && body[j + 1] == '/') {
        assert s[i + 3 + j] == body[j] && s[i + 3 + (j + 1)] == body[j + 1];
      }
    }
  }

  /** A printed comment is scanned to its own body exactly when the body can stand there. */
  lemma DocScans(s: string, i: nat, body: string)
    requires Occurs(s, i, "/**" + body + "*/")
    ensures GoodDoc(body)
       <==> i < |s| && TriviaUnit(s, i) == i && ScanOne(s, i) == Scan(DocBody(body), i + |body| + 5)
  {
    hide GoodDoc, CloseAt, Occurs, SpanEnd, ScanPunctuation, NumberEnd;
    DocChars(s, i, body);
    DocCloses(s, i, body);
    assert s[i..i + 3][0] == s[i] && s[i..i + 3][1] == s[i + 1] && s[i..i + 3][2] == s[i + 2];
    assert OpensDoc(s, i) <==> s[i + 3] != '/';
  }

  lemma LexDoc(s: string, body: string, rest: string)
    requires IsTail(s, "/**" + (body + ("*/\n" + rest))) && GoodDoc(body)
    ensures IsTail(s, rest) && LexAt(s, "/**" + (body + ("*/\n" + rest))) == [DocBody(body)] + LexAt(s, rest)
  {
    hide Lex, GoodDoc, ScanOne;
    var text := "/**" + body + "*/";
    var t := "\n" + rest;
    assert "*/\n" + rest == "*/" + t;
    Regroup4("/**", body, "*/", t);
    TailSplit(s, text, t);
    DocScans(s, |s| - |text + t|, body);
    LexOne(s, |s| - |text + t|, DocBody(body));
    TailLexes(s, text, t, [DocBody(body)]);
    TailBlank(s, '\n', rest);
  }

  /** The members of a body and its closing brace. */
  lemma {:induction false} LexBraced(s: string, members: seq<Decl>, depth: nat, rest: string)
    requires IsTail(s, BracedText(members, depth, rest))
    requires forall i | 0 <= i < |members| :: !members[i].Link? && Printable(members[i])
    ensures IsTail(s, rest)
    ensures LexAt(s, BracedText(members, depth, rest))
      == [Sym(LEFT_BRACE)] + MembersToks(members, [Sym(RIGHT_BRACE)] + LexAt(s, rest))
    decreases members, 3
  {
    hide Lex, Printable, MembersToks, MembersText;
    var end := IndentText(depth, "}" + rest);
    OpenBrace(s, MembersText(members, depth + 1, end));
    LexMembers(s, members, depth + 1, end);
    LexIndent(s, depth, "}" + rest);
    TailChar(s, '}', rest);
  }

  lemma {:induction false} LexMembers(s: string, ds: seq<Decl>, depth: nat, rest: string)
    requires IsTail(s, MembersText(ds, depth, rest))
    requires forall i | 0 <= i < |ds| :: !ds[i].Link? && Printable(ds[i])
    ensures IsTail(s, rest) && LexAt(s, MembersText(ds, depth, rest)) == MembersToks(ds, LexAt(s, rest))
    decreases ds, 2
  {
    hide Lex, Printable, DeclText, DeclToks;
    if ds != [] {
      LexDecl(s, ds[0], depth, MembersText(ds[1..], depth, rest));
      LexMembers(s, ds[1..], depth, rest);
    }
  }

  /** The end of a package or definition. */
  function ScopeEnd(members: seq<Decl>, depth: nat, rest: string): string {
    if members == [] then " { }\n" + rest else BracedText(members, depth, "\n" + rest)
  }

  lemma {:induction false} LexScope(s: string, members: seq<Decl>, depth: nat, rest: string)
    requires IsTail(s, ScopeEnd(members, depth, rest))
    requires forall i | 0 <= i < |members| :: !members[i].Link? && Printable(members[i])
    ensures IsTail(s, rest)
    ensures LexAt(s, ScopeEnd(members, depth, rest))
      == [Sym(LEFT_BRACE)] + MembersToks(members, [Sym(RIGHT_BRACE)] + LexAt(s, rest))
    ensures Sep(ScopeEnd(members, depth, rest))
    decreases members, 5
  {
    hide Lex, Printable, DeclToks;
    if members == [] {
      EmptyBraces(s, rest);
    } else {
      BracedSep(members, depth, "\n" + rest);
      LexBracedLine(s, members, depth, rest);
    }
  }

  lemma {:induction false} LexBracedLine(s: string, members: seq<Decl>, depth: nat, rest: string)
    requires IsTail(s, BracedText(members, depth, "\n" + rest))
    requires forall i | 0 <= i < |members| :: !members[i].Link? && Printable(members[i])
    ensures IsTail(s, rest)
    ensures LexAt(s, BracedText(members, depth, "\n" + rest))
      == [Sym(LEFT_BRACE)] + MembersToks(members, [Sym(RIGHT_BRACE)] + LexAt(s, rest))
    decreases members, 4
  {
    hide Lex, Printable, MembersToks, BracedText;
    LexBraced(s, members, depth, "\n" + rest);
    TailBlank(s, '\n', rest);
  }

  lemma BracedSep(members: seq<Decl>, depth: nat, rest: string)
    ensures Sep(BracedText(members, depth, rest))
  {
    hide MembersText;
  }

  lemma LexImport(s: string, d: Decl, depth: nat, rest: string)
    requires d.Import? && Printable(d) && IsTail(s, DeclText(d, depth, rest))
    ensures IsTail(s, rest) && LexAt(s, DeclText(d, depth, rest)) == DeclToks(d, LexAt(s, rest))
  {
    hide Lex, Writes, PathText, NamesYield, PartsToks, IsTail, LexAt, IndentText, VisibilityText, VisibilityToks;
    Keywords();
    var end := ";\n" + rest;
    var tail := FlagText(d.wildcard, "::*", end);
    LexIndent(s, depth, VisibilityText(d.visibility, "import " + (PathText(d.parts) + tail)));
    LexVisibility(s, d.visibility, "import " + (PathText(d.parts) + tail));
    assert "import" + " " == "import ";
    KeywordBlank(s, "import", PathText(d.parts) + tail, KW_IMPORT);
    TailPath(s, d.parts, tail);
    TailFits(s, tail);
    YieldParts(d.parts, LexAt(s, tail));
    if d.wildcard {
      assert "::*" + end == "::" + ("*" + end);
      TailOperator(s, "::", "*" + end, COLON_COLON);
      TailOperator(s, "*", end, STAR);
    }
    Semicolon(s, rest);
  }

  lemma LexAlias(s: string, d: Decl, depth: nat, rest: string)
    requires d.Alias? && Printable(d) && IsTail(s, DeclText(d, depth, rest))
    ensures IsTail(s, rest) && LexAt(s, DeclText(d, depth, rest)) == DeclToks(d, LexAt(s, rest))
  {
    hide Lex, Writes, QNameText, QNameToks, NameText, GoodQName, PrintableName;
    Keywords();
    var end := ";\n" + rest;
    var target := QNameText(d.target, end);
    assert "alias" + " " == "alias " && " " + "for" + " " == " for ";
    LexIndent(s, depth, VisibilityText(d.visibility, "alias " + (NameText(d.name) + (" for " + target))));
    LexVisibility(s, d.visibility, "alias " + (NameText(d.name) + (" for " + target)));
    KeywordBlank(s, "alias", NameText(d.name) + (" for " + target), KW_ALIAS);
    TailName(s, d.name, " for " + target);
    SpacedKeyword(s, "for", target, KW_FOR);
    LexQName(s, d.target, end);
    Semicolon(s, rest);
  }

  lemma LexDependency(s: string, d: Decl, depth: nat, rest: string)
    requires d.Dependency? && Printable(d) && IsTail(s, DeclText(d, depth, rest))
    ensures IsTail(s, rest) && LexAt(s, DeclText(d, depth, rest)) == DeclToks(d, LexAt(s, rest))
  {
    hide Lex, Writes, NamesText, QNamesToks, GoodQNames, NameToks, SpacedName, OptionalNameOk;
    Keywords();
    var end := ";\n" + rest;
    var targets := NamesText(d.targets, end);
    var sources := NamesText(d.sources, " to " + targets);
    assert " " + "from" + " " == " from " && " " + "to" + " " == " to ";
    LexIndent(s, depth, VisibilityText(d.visibility, "dependency" + SpacedName(d.name, " from " + sources)));
    LexVisibility(s, d.visibility, "dependency" + SpacedName(d.name, " from " + sources));
    SpacedNameSep(d.name, " from " + sources);
    Keyword(s, "dependency", SpacedName(d.name, " from " + sources), KW_DEPENDENCY);
    LexSpacedName(s, d.name, " from " + sources);
    SpacedKeyword(s, "from", sources, KW_FROM);
    LexNames(s, d.sources, " to " + targets);
    SpacedKeyword(s, "to", targets, KW_TO);
    LexNames(s, d.targets, end);
    Semicolon(s, rest);
  }

  lemma SpacedNameSep(name: string, rest: string)
    requires Sep(rest)
    ensures Sep(SpacedName(name, rest)) && !IsWordChar(First(SpacedName(name, rest)))
  {
  }

  lemma LexAttribute(s: string, d: Decl, depth: nat, rest: string)
    requires d.Attribute? && Printable(d) && IsTail(s, DeclText(d, depth, rest))
    ensures IsTail(s, rest) && LexAt(s, DeclText(d, depth, rest)) == DeclToks(d, LexAt(s, rest))
  {
    hide Lex, Writes, FeaturesText, FeaturesToks, ValueText, ValueToks, GoodFeatures, GoodValue, NameText, PrintableName,
         ModifiersText, ModifiersToks;
    Keywords();
    var end := ";\n" + rest;
    var value := ValueText(" = ", d.value, end);
    var tail := FeaturesText(d.features, value);
    var word := "attribute " + (NameText(d.name) + tail);
    assert "attribute" + " " == "attribute ";
    LexIndent(s, depth, VisibilityText(d.visibility, ModifiersText(d.modifiers, word)));
    LexVisibility(s, d.visibility, ModifiersText(d.modifiers, word));
    LexModifiers(s, d.modifiers, word);
    KeywordBlank(s, "attribute", NameText(d.name) + tail, KW_ATTRIBUTE);
    LexValue(s, d.value, end);
    FeaturesSep(d.features, value);
    LexOptionalName(s, d.name, tail);
    LexFeatures(s, d.features, value);
    Semicolon(s, rest);
  }

  lemma FeaturesSep(f: Features, rest: string)
    requires Sep(rest)
    ensures Sep(FeaturesText(f, rest))
  {
    hide ClauseText, MultiplicityText, Sep;
    var t3 := MultiplicityText(f.multiplicity, rest);
    var t2 := ClauseText(" :>> ", f.redefines, t3);
    MultiplicitySep(f.multiplicity, rest);
    ClauseSep(" :>> ", f.redefines, t3);
    ClauseSep(" :> ", f.supers, t2);
    ClauseSep(" : ", f.types, ClauseText(" :> ", f.supers, t2));
  }

  lemma LexOptionalName(s: string, name: string, rest: string)
    requires IsTail(s, NameText(name) + rest) && OptionalNameOk(name) && Sep(rest)
    ensures IsTail(s, rest) && LexAt(s, NameText(name) + rest) == NameToks(name, LexAt(s, rest))
  {
    hide Lex, PrintableName;
    if name == "" { assert NameText(name) + rest == rest; } else { TailName(s, name, rest); }
  }

  lemma LexEnumValue(s: string, d: Decl, depth: nat, rest: string)
    requires d.EnumValue? && Printable(d) && IsTail(s, DeclText(d, depth, rest))
    ensures IsTail(s, rest) && LexAt(s, DeclText(d, depth, rest)) == DeclToks(d, LexAt(s, rest))
  {
    hide Lex, Writes, ValueText, ValueToks, GoodValue, NameText, PrintableName;
    Keywords();
    var end := ";\n" + rest;
    var value := ValueText(" = ", d.value, end);
    LexIndent(s, depth, (if d.name == "" then "enum" else NameText(d.name)) + value);
    LexValue(s, d.value, end);
    if d.name == "" { Keyword(s, "enum", value, KW_ENUM); } else { TailName(s, d.name, value); }
    Semicolon(s, rest);
  }

  lemma {:induction false} LexPackage(s: string, d: Decl, depth: nat, rest: string)
    requires d.Package? && Printable(d) && IsTail(s, DeclText(d, depth, rest))
    ensures IsTail(s, rest) && LexAt(s, DeclText(d, depth, rest)) == DeclToks(d, LexAt(s, rest))
    decreases d, 0
  {
    hide Lex, Writes, NameText, PrintableName, BracedText, MembersToks;
    Keywords();
    var scope := ScopeEnd(d.members, depth, rest);
    var named := NameText(d.name) + scope;
    assert "package" + " " == "package ";
    LexIndent(s, depth, VisibilityText(d.visibility, "package " + named));
    LexVisibility(s, d.visibility, "package " + named);
    KeywordBlank(s, "package", named, KW_PACKAGE);
    ScopeSep(d.members, depth, rest);
    TailName(s, d.name, scope);
    LexScope(s, d.members, depth, rest);
  }

  lemma ScopeSep(members: seq<Decl>, depth: nat, rest: string)
    ensures Sep(ScopeEnd(members, depth, rest))
  {
    if members != [] { BracedSep(members, depth, "\n" + rest); }
  }

  lemma {:induction false} LexDefinition(s: string, d: Decl, depth: nat, rest: string)
    requires d.Definition? && Printable(d) && IsTail(s, DeclText(d, depth, rest))
    ensures IsTail(s, rest) && LexAt(s, DeclText(d, depth, rest)) == DeclToks(d, LexAt(s, rest))
    decreases d, 0
  {
    hide Lex, Writes, NameText, PrintableName, BracedText, MembersToks, ClauseText, ClauseToks, KindText, GoodQNames,
         FlagText, FlagToks;
    Keywords();
    var scope := ScopeEnd(d.members, depth, rest);
    var redefines := ClauseText(" :>> ", d.redefines, scope);
    var clauses := ClauseText(" :> ", d.supers, redefines);
    var kind := KindText(d.kind) + (" def " + (NameText(d.name) + clauses));
    assert " " + "def" + " " == " def " && "abstract" + " " == "abstract ";
    assert " " + ":>" + " " == " :> " && " " + ":>>" + " " == " :>> ";
    LexIndent(s, depth, VisibilityText(d.visibility, FlagText(d.isAbstract, "abstract ", kind)));
    LexVisibility(s, d.visibility, FlagText(d.isAbstract, "abstract ", kind));
    LexFlag(s, d.isAbstract, "abstract", kind, KW_ABSTRACT);
    KindIsWritten(d.kind);
    Keyword(s, KindText(d.kind), " def " + (NameText(d.name) + clauses), d.kind);
    SpacedKeyword(s, "def", NameText(d.name) + clauses, KW_DEF);
    ScopeSep(d.members, depth, rest);
    ClauseSep(" :>> ", d.redefines, scope);
    ClauseSep(" :> ", d.supers, redefines);
    TailName(s, d.name, clauses);
    LexClause(s, ":>", COLON_GREATER, d.supers, redefines);
    LexClause(s, ":>>", COLON_GREATER_GREATER, d.redefines, scope);
    LexScope(s, d.members, depth, rest);
  }

  /** The end of a usage. */
  function UsageClose(members: seq<Decl>, depth: nat, rest: string): string {
    if members == [] then ";\n" + rest else BracedText(members, depth, "\n" + rest)
  }

  lemma {:induction false} LexUsageClose(s: string, d: Decl, depth: nat, rest: string)
    requires d.Usage? && Printable(d) && IsTail(s, UsageClose(d.members, depth, rest))
    ensures IsTail(s, rest) && LexAt(s, UsageClose(d.members, depth, rest)) == UsageEnd(d.members, LexAt(s, rest))
    decreases d, 0
  {
    hide Lex, BracedText, MembersToks, GoodUsage;
    if d.members == [] { Semicolon(s, rest); } else { LexBracedLine(s, d.members, depth, rest); }
  }

  lemma UsageCloseSep(members: seq<Decl>, depth: nat, rest: string)
    ensures Sep(UsageClose(members, depth, rest))
  {
    if members != [] { BracedSep(members, depth, "\n" + rest); }
  }

  /** The printed parts of a usage after its name. */
  function UsageParts(d: Decl, depth: nat, rest: string): string
    requires d.Usage?
  {
    FeaturesText(d.features, EndsText(d.kind, d.ends, ValueText(" = ", d.value, UsageClose(d.members, depth, rest))))
  }

  lemma EndsSep(k: Kind, ends: seq<QName>, rest: string)
    requires Sep(rest)
    ensures Sep(EndsText(k, ends, rest))
  {
  }

  lemma ValueSep(v: Option<Expr>, rest: string)
    requires Sep(rest)
    ensures Sep(ValueText(" = ", v, rest)) && Sep(ValueText(" if ", v, rest))
  {
  }

  lemma UsagePartsSep(d: Decl, depth: nat, rest: string)
    requires d.Usage?
    ensures Sep(UsageParts(d, depth, rest))
  {
    hide FeaturesText, EndsText, ValueText, UsageClose, Sep;
    var close := UsageClose(d.members, depth, rest);
    var value := ValueText(" = ", d.value, close);
    UsageCloseSep(d.members, depth, rest);
    ValueSep(d.value, close);
    EndsSep(d.kind, d.ends, value);
    FeaturesSep(d.features, EndsText(d.kind, d.ends, value));
  }

  lemma {:induction false} LexUsageParts(s: string, d: Decl, depth: nat, rest: string)
    requires d.Usage? && Printable(d) && IsTail(s, UsageParts(d, depth, rest))
    ensures IsTail(s, rest)
    ensures LexAt(s, UsageParts(d, depth, rest)) == FeaturesToks(d.features, EndsToks(d.kind, d.ends,
      ValueToks(d.value, UsageEnd(d.members, LexAt(s, rest)))))
    decreases d, 1
  {
    hide Lex, FeaturesText, FeaturesToks, EndsText, EndsToks, ValueText, ValueToks, UsageClose, UsageEnd, Sep, GoodFeatures,
         GoodEnds, GoodValue, Printable;
    UsageIsGood(d);
    var close := UsageClose(d.members, depth, rest);
    var value := ValueText(" = ", d.value, close);
    var ends := EndsText(d.kind, d.ends, value);
    UsageCloseSep(d.members, depth, rest);
    ValueSep(d.value, close);
    EndsSep(d.kind, d.ends, value);
    LexFeatures(s, d.features, ends);
    LexEnds(s, d.kind, d.ends, value);
    LexValue(s, d.value, close);
    LexUsageClose(s, d, depth, rest);
  }

  lemma UsageTextIs(d: Decl, depth: nat, rest: string)
    requires d.Usage?
    ensures UsageText(d, depth, rest) ==
      if d.kind == KW_REF then NameText(d.name) + UsageParts(d, depth, rest)
      else KindText(d.kind) + SpacedName(d.name, UsageParts(d, depth, rest))
  {
    hide FeaturesText, EndsText, ValueText, BracedText;
  }

  lemma {:induction false} LexUsage(s: string, d: Decl, depth: nat, rest: string)
    requires d.Usage? && Printable(d) && IsTail(s, DeclText(d, depth, rest))
    ensures IsTail(s, rest) && LexAt(s, DeclText(d, depth, rest)) == DeclToks(d, LexAt(s, rest))
    decreases d, 3
  {
    hide Lex, UsageText, UsageParts, UsageToks, ModifiersText, ModifiersToks, DirectionText, DirectionToks, Printable,
         GoodFeatures, GoodEnds, GoodValue;
    UsageIsGood(d);
    var usage := UsageText(d, depth, rest);
    var flagged := ModifiersText(d.modifiers, usage);
    LexIndent(s, depth, VisibilityText(d.visibility, DirectionText(d.direction, flagged)));
    LexVisibility(s, d.visibility, DirectionText(d.direction, flagged));
    LexDirection(s, d.direction, flagged);
    LexModifiers(s, d.modifiers, usage);
    LexUsageText(s, d, depth, rest);
  }

  lemma {:induction false} LexUsageText(s: string, d: Decl, depth: nat, rest: string)
    requires d.Usage? && Printable(d) && IsTail(s, UsageText(d, depth, rest))
    ensures IsTail(s, rest)
    ensures LexAt(s, UsageText(d, depth, rest)) == FlagToks(d.kind != KW_REF, d.kind, UsageToks(d, LexAt(s, rest)))
    decreases d, 2
  {
    hide Lex, Writes, UsageText, UsageParts, UsageToks, Printable, GoodFeatures, GoodEnds, GoodValue, NameText, NameToks,
         SpacedName, KindText, Sep, UsageEnd, FeaturesToks, EndsToks, ValueToks;
    UsageIsGood(d);
    var parts := UsageParts(d, depth, rest);
    UsageTextIs(d, depth, rest);
    UsageToksSplit(d, LexAtIfTail(s, rest));
    UsagePartsSep(d, depth, rest);
    if d.kind == KW_REF {
      LexOptionalName(s, d.name, parts);
    } else {
      KindIsWritten(d.kind);
      SpacedNameSep(d.name, parts);
      Keyword(s, KindText(d.kind), SpacedName(d.name, parts), d.kind);
      LexSpacedName(s, d.name, parts);
    }
    LexUsageParts(s, d, depth, rest);
  }

  function LexAtIfTail(s: string, t: string): seq<Token> {
    if |t| <= |s| then LexAt(s, t) else []
  }

  lemma LexTransition(s: string, d: Decl, depth: nat, rest: string)
    requires d.Transition? && Printable(d) && IsTail(s, DeclText(d, depth, rest))
    ensures IsTail(s, rest) && LexAt(s, DeclText(d, depth, rest)) == DeclToks(d, LexAt(s, rest))
  {
    hide Lex, Writes, QNameText, QNameToks, OptionalText, OptionalToks, ValueText, GuardToks, SpacedName, NameToks, Sep,
         GoodQName, GoodOption, GoodValue, OptionalNameOk, StartsWith, HasMiddle;
    Keywords();
    var end := ";\n" + rest;
    var target := " then " + QNameText(d.target, end);
    var effect := OptionalText(" do ", d.effect, target);
    var guard := ValueText(" if ", d.guard, effect);
    var accept_ := OptionalText(" accept ", d.accept_, guard);
    var first := OptionalText(" first ", d.first, accept_);
    assert " " + "then" + " " == " then " && " " + "do" + " " == " do ";
    assert " " + "accept" + " " == " accept " && " " + "first" + " " == " first ";
    SpaceSep(" then ", QNameText(d.target, end));
    SpaceSep(";\n", rest);
    OptionalSep(" do ", d.effect, target);
    ValueSep(d.guard, effect);
    OptionalSep(" accept ", d.accept_, guard);
    OptionalSep(" first ", d.first, accept_);
    SpacedNameSep(d.name, first);
    LexIndent(s, depth, "transition" + SpacedName(d.name, first));
    Keyword(s, "transition", SpacedName(d.name, first), KW_TRANSITION);
    LexSpacedName(s, d.name, first);
    LexOptional(s, "first", KW_FIRST, d.first, accept_);
    LexOptional(s, "accept", KW_ACCEPT, d.accept_, guard);
    LexValue(s, d.guard, effect);
    LexOptional(s, "do", KW_DO, d.effect, target);
    SpacedKeyword(s, "then", QNameText(d.target, end), KW_THEN);
    LexQName(s, d.target, end);
    Semicolon(s, rest);
  }

  lemma SpaceSep(w: string, t: string)
    requires w != "" && w[0] in " ;,]\n}:"
    ensures Sep(w + t)
  {
  }

  // ---- successions

  /** The printed end of a target. */
  function StepClose(members: seq<Decl>, depth: nat, rest: string): string {
    if members == [] then rest else BracedText(members, depth, rest)
  }

  lemma {:induction false} LexStep(s: string, x: Decl, depth: nat, rest: string)
    requires IsTail(s, StepText(x, depth, rest)) && GoodStepHead(x) && PrintableStep(x) && Sep(rest)
    ensures IsTail(s, rest) && LexAt(s, StepText(x, depth, rest)) == StepToks(x, LexAt(s, rest))
    decreases x, 3
  {
    hide Lex, Writes, BracedText, MembersToks, ClauseText, ClauseToks, SpacedName, NameToks, QNameText, ActionToks, GoodAction,
         GoodQNames, OptionalNameOk, Sep;
    if x.Usage? {
      Keywords();
      var close := StepClose(x.members, depth, rest);
      var types := ClauseText(" : ", x.features.types, close);
      assert " " + ":" + " " == " : ";
      if x.members != [] { BracedSep(x.members, depth, rest); }
      ClauseSep(" : ", x.features.types, close);
      SpacedNameSep(x.name, types);
      Keyword(s, "action", SpacedName(x.name, types), KW_ACTION);
      LexSpacedName(s, x.name, types);
      LexClause(s, ":", COLON, x.features.types, close);
      if x.members != [] { LexStepBody(s, x, depth, rest); }
    } else {
      LexAction(s, x.ref, rest);
    }
  }

  lemma {:induction false} LexStepBody(s: string, x: Decl, depth: nat, rest: string)
    requires x.Usage? && PrintableStep(x) && IsTail(s, BracedText(x.members, depth, rest))
    ensures IsTail(s, rest)
    ensures LexAt(s, BracedText(x.members, depth, rest))
      == [Sym(LEFT_BRACE)] + MembersToks(x.members, [Sym(RIGHT_BRACE)] + LexAt(s, rest))
    decreases x, 2
  {
    hide Lex, BracedText, MembersToks, Printable;
    LexBraced(s, x.members, depth, rest);
  }

  lemma {:induction false} LexSteps(s: string, steps: seq<Decl>, depth: nat, rest: string)
    requires IsTail(s, StepsText(steps, depth, rest)) && Sep(rest)
    requires forall i | 0 <= i < |steps| :: GoodStepHead(steps[i]) && PrintableStep(steps[i])
    ensures IsTail(s, rest) && LexAt(s, StepsText(steps, depth, rest)) == StepsToks(steps, LexAt(s, rest))
    decreases steps, 4
  {
    hide Lex, Writes, StepText, StepToks, GoodStepHead, PrintableStep, Sep;
    if steps != [] {
      Keywords();
      assert " " + "then" + " " == " then ";
      var more := StepsText(steps[1..], depth, rest);
      SpacedKeyword(s, "then", StepText(steps[0], depth, more), KW_THEN);
      StepsSep(steps[1..], depth, rest);
      LexStep(s, steps[0], depth, more);
      LexSteps(s, steps[1..], depth, rest);
    }
  }

  lemma StepsSep(steps: seq<Decl>, depth: nat, rest: string)
    requires Sep(rest)
    ensures Sep(StepsText(steps, depth, rest))
  {
    hide StepText;
  }

  /** The steps of a succession that starts with `then`. */
  lemma {:induction false} LexThenSteps(s: string, d: Decl, depth: nat, rest: string)
    requires d.Succession? && Printable(d) && d.steps != [] && Sep(rest)
    requires IsTail(s, "then " + StepText(d.steps[0], depth, StepsText(d.steps[1..], depth, rest)))
    ensures IsTail(s, rest)
    ensures LexAt(s, "then " + StepText(d.steps[0], depth, StepsText(d.steps[1..], depth, rest)))
      == StepsToks(d.steps, LexAt(s, rest))
    decreases d, 0
  {
    hide Lex, Writes, StepText, StepToks, StepsText, GoodStepHead, PrintableStep, Sep, GoodAction, OptionalNameOk;
    Keywords();
    var more := StepsText(d.steps[1..], depth, rest);
    assert "then" + " " == "then ";
    KeywordBlank(s, "then", StepText(d.steps[0], depth, more), KW_THEN);
    StepsSep(d.steps[1..], depth, rest);
    LexStep(s, d.steps[0], depth, more);
    assert forall i | 0 <= i < |d.steps[1..]| :: d.steps[1..][i] == d.steps[i + 1];
    LexSteps(s, d.steps[1..], depth, rest);
  }

  lemma LexFirst(s: string, first: Option<QName>, rest: string)
    requires IsTail(s, OptionalText(" first ", first, rest)) && (first.Some? ==> GoodAction(first.value)) && Sep(rest)
    ensures IsTail(s, rest) && LexAt(s, OptionalText(" first ", first, rest)) == FirstToks(first, LexAt(s, rest))
  {
    hide Lex, Writes, QNameText, ActionToks, GoodAction, Sep;
    if first.Some? {
      Keywords();
      assert " " + "first" + " " == " first ";
      SpacedKeyword(s, "first", QNameText(first.value, rest), KW_FIRST);
      LexAction(s, first.value, rest);
    }
  }

  lemma {:induction false} LexSuccession(s: string, d: Decl, depth: nat, rest: string)
    requires d.Succession? && Printable(d) && IsTail(s, DeclText(d, depth, rest))
    ensures IsTail(s, rest) && LexAt(s, DeclText(d, depth, rest)) == DeclToks(d, LexAt(s, rest))
    decreases d, 1
  {
    hide Lex, Writes, StepText, StepsText, StepsToks, GoodStepHead, PrintableStep, QNameText, ActionToks, GoodAction,
         OptionalText, FirstToks, SpacedName, NameToks, OptionalNameOk, Sep;
    Keywords();
    var end := ";\n" + rest;
    SpaceSep(";\n", rest);
    LexIndent(s, depth, SuccessionText(d, depth, rest));
    if d.name == "" && d.first.Some? && d.steps == [] {
      assert "first" + " " == "first ";
      KeywordBlank(s, "first", QNameText(d.first.value, end), KW_FIRST);
      LexAction(s, d.first.value, end);
    } else if d.name == "" && d.first.None? {
      LexThenSteps(s, d, depth, end);
    } else {
      var steps := StepsText(d.steps, depth, end);
      var first := OptionalText(" first ", d.first, steps);
      StepsSep(d.steps, depth, end);
      OptionalSep(" first ", d.first, steps);
      SpacedNameSep(d.name, first);
      Keyword(s, "succession", SpacedName(d.name, first), KW_SUCCESSION);
      LexSpacedName(s, d.name, first);
      LexFirst(s, d.first, steps);
      LexSteps(s, d.steps, depth, end);
    }
    Semicolon(s, rest);
  }

  /** The printed text of a declaration is scanned to its tokens. */
  lemma {:induction false} LexDecl(s: string, d: Decl, depth: nat, rest: string)
    requires !d.Link? && Printable(d) && IsTail(s, DeclText(d, depth, rest))
    ensures IsTail(s, rest) && LexAt(s, DeclText(d, depth, rest)) == DeclToks(d, LexAt(s, rest))
    decreases d, 5
  {
    hide Lex, Printable, DeclText, DeclToks;
    match d
    case Package(_, _, _) => LexPackage(s, d, depth, rest);
    case Definition(_, _, _, _, _, _, _) => LexDefinition(s, d, depth, rest);
    case Usage(_, _, _, _, _, _, _, _, _) => LexUsage(s, d, depth, rest);
    case Attribute(_, _, _, _, _) => LexAttribute(s, d, depth, rest);
    case EnumValue(_, _) => LexEnumValue(s, d, depth, rest);
    case Import(_, _, _) => LexImport(s, d, depth, rest);
    case Alias(_, _, _) => LexAlias(s, d, depth, rest);
    case Dependency(_, _, _, _) => LexDependency(s, d, depth, rest);
    case Doc(_) => LexDocDecl(s, d, depth, rest);
    case Succession(_, _, _) => LexSuccession(s, d, depth, rest);
    case Transition(_, _, _, _, _, _) => LexTransition(s, d, depth, rest);
    case Other => NotPrintable();
  }

  lemma NotPrintable()
    ensures !Printable(Other)
  {
  }

  lemma LexDocDecl(s: string, d: Decl, depth: nat, rest: string)
    requires d.Doc? && Printable(d) && IsTail(s, DeclText(d, depth, rest))
    ensures IsTail(s, rest) && LexAt(s, DeclText(d, depth, rest)) == DeclToks(d, LexAt(s, rest))
  {
    hide Lex, GoodDoc;
    LexIndent(s, depth, "/**" + (d.body + ("*/\n" + rest)));
    LexDoc(s, d.body, rest);
  }

  /** The text of a whole program is scanned to the tokens of its declarations. */
  lemma LexProgram(ds: seq<Decl>)
    requires forall i | 0 <= i < |ds| :: !ds[i].Link? && Printable(ds[i])
    ensures Lex(ProgramText(ds), 0, false) == MembersToks(ds, [])
  {
    hide Printable, MembersText, MembersToks;
    var s := ProgramText(ds);
    assert s[0..] == s;
    LexMembers(s, ds, 0, "");
    assert LexAt(s, "") == [];
  }
}
