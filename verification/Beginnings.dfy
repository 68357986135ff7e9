/** The keywords of the declaration grammar: which tokens can begin a declaration, how that fits the places where
    recovery resumes, and what each keyword makes of the same words. */
module Beginnings {
  import opened Basics
  import opened Tokens
  import opened Outline
  import opened Pratt
  import opened DeclGrammar
  import opened ParserCommon

  /** The keywords of usages and definitions. */
  predicate IsFeature(k: Kind) {
    || k == KW_PART || k == KW_PORT || k == KW_ITEM || k == KW_ACTION || k == KW_STATE || k == KW_CONNECTION
    || k == KW_INTERFACE || k == KW_FLOW || k == KW_MESSAGE || k == KW_ALLOCATION || k == KW_END || k == KW_ENUM
    || k == KW_REQUIREMENT || k == KW_CONCERN || k == KW_OBJECTIVE || k == KW_ACTOR || k == KW_VERIFICATION
    || k == KW_ANALYSIS || k == KW_OCCURRENCE || k == KW_INDIVIDUAL || k == KW_SNAPSHOT || k == KW_TIMESLICE
    || k == KW_VIEW || k == KW_VIEWPOINT || k == KW_RENDERING || k == KW_METADATA
  }

  /** The keywords of the other constructs. */
  predicate IsStatement(k: Kind) {
    || k == KW_ATTRIBUTE || k == KW_CONSTRAINT || k == KW_CALC || k == KW_USE || k == KW_INCLUDE || k == KW_EXHIBIT
    || k == KW_VARIANT || k == KW_VARIATION || k == KW_PACKAGE || k == KW_IMPORT || k == KW_ALIAS || k == KW_DEPENDENCY
    || k == KW_SUCCESSION || k == KW_FIRST || k == KW_THEN || k == KW_TRANSITION || k == KW_COMMENT || k == KW_DOC
    || k == KW_EVENT || k == KW_SATISFY || k == KW_FILTER || k == KW_ENTRY || k == KW_EXIT || k == KW_DO
    || k == KW_PERFORM || k == KW_RETURN || k == KW_ASSERT || k == KW_ASSUME || k == KW_REQUIRE || k == KW_SUBJECT
    || k == KW_CONNECT || k == KW_BIND || k == KW_ALLOCATE
  }

  predicate IsModifier(k: Kind) { k == KW_DERIVED || k == KW_ABSTRACT || k == KW_CONSTANT || k == KW_REF }

  predicate IsPrefix(k: Kind) {
    k == KW_PUBLIC || k == KW_PRIVATE || k == KW_PROTECTED || k == KW_IN || k == KW_OUT || k == KW_INOUT
  }

  /** What begins an attribute without a keyword, or metadata. */
  predicate IsMark(k: Kind) {
    k == COLON_GREATER || k == COLON_GREATER_GREATER || k == KW_REDEFINES || k == KW_SUBSETS || k == HASH || k == AT_SIGN
  }

  /** Some declaration begins with the token. */
  ghost predicate CanBegin(k: Kind) { exists ts: seq<Token> :: Begins(k, ts) }

  ghost predicate Begins(k: Kind, ts: seq<Token>) { Declaration([Sym(k)] + ts).Ok? }

  // ---- one declaration for each ---------------------------------------------------------------------------------

  lemma AfterKeyword(k: Kind, ts: seq<Token>)
    requires !IsPrefix(k) && !IsModifier(k) && k != HASH && k != AT_SIGN && k != KW_DOC
    ensures Declaration([Sym(k)] + ts) == Body(DefaultVisibility, Undirected, PLAIN, [Sym(k)] + ts)
  {
    hide Body;
    var all := [Sym(k)] + ts;
    assert Metadata(false, all) == (false, all);
    assert ModifiersOf(all) == (PLAIN, all);
  }

  /** `k w ;` */
  function Short(k: Kind, w: string): seq<Token> { [Sym(k), Name(w), Sym(SEMICOLON)] }

  function UsageNamed(k: Kind, w: string): Decl {
    Usage(DefaultVisibility, k, Undirected, PLAIN, w, BARE, [], None, [])
  }

  lemma PlainBody(k: Kind, ts: seq<Token>)
    requires IsFeature(k)
    ensures Declaration([Sym(k)] + ts) == Node(DefinitionOrUsage(k, DefaultVisibility, Undirected, PLAIN, ts))
    ensures k != KW_CONSTRAINT
  {
    hide DefinitionOrUsage, Declaration, Node;
    AfterKeyword(k, ts);
    assert ([Sym(k)] + ts)[1..] == ts;
  }

  lemma NoClauses(ts: seq<Token>)
    requires Head(ts) == Sym(SEMICOLON)
    ensures Relationships(BARE, ts) == Ok(BARE, ts) && Value(ts, false) == Ok(None, ts) && Value(ts, true) == Ok(None, ts)
  {
  }

  lemma SemicolonTail(k: Kind, v: Visibility, d: Direction, m: Modifiers, w: string, ts: seq<Token>)
    requires Head(ts) == Sym(SEMICOLON)
    ensures UsageTail(k, v, d, m, w, None, BARE, ts) == Ok(Usage(v, k, d, m, w, BARE, [], None, []), ts[1..])
  {
    hide Members, Expression, Reference, InlineBody;
    NoClauses(ts);
    assert OfClause(k, BARE, ts) == Ok(BARE, ts);
    assert Ends(k, w, None, BARE, ts) == Ok([], ts);
    assert AfterTail(k, ts) == ts;
    assert UsageBody(k, ts) == Ok([], ts[1..]);
  }

  lemma NamedUsage(k: Kind, v: Visibility, d: Direction, m: Modifiers, w: string, ts: seq<Token>)
    requires Head(ts) == Sym(SEMICOLON)
    ensures UsageRest(k, v, d, m, [Name(w)] + ts) == Ok(Usage(v, k, d, m, w, BARE, [], None, []), ts[1..])
  {
    hide UsageTail;
    var all := [Name(w)] + ts;
    assert all[1..] == ts;
    assert Metadata(false, all) == (false, all) && ShortName(all) == Ok((), all);
    NoClauses(ts);
    SemicolonTail(k, v, d, m, w, ts);
  }

  /** A keyword of a feature, a name and a semicolon are a usage of that kind. */
  lemma UsageRule(k: Kind, w: string)
    requires IsFeature(k)
    ensures Declaration(Short(k, w)) == Ok(Some(UsageNamed(k, w)), [])
  {
    hide Declaration, UsageRest;
    var ts := [Name(w), Sym(SEMICOLON)];
    assert Short(k, w) == [Sym(k)] + ts && ts == [Name(w)] + [Sym(SEMICOLON)] && [Sym(SEMICOLON)][1..] == [];
    PlainBody(k, ts);
    NamedUsage(k, DefaultVisibility, Undirected, PLAIN, w, [Sym(SEMICOLON)]);
  }

  /** Definitions: `k def w ;`. */
  function ShortDef(k: Kind, w: string): seq<Token> { [Sym(k), Sym(KW_DEF), Name(w), Sym(SEMICOLON)] }

  function DefinitionNamed(k: Kind, w: string): Decl {
    Definition(DefaultVisibility, k, false, w, [], [], [])
  }

  lemma DefBody(k: Kind, v: Visibility, m: Modifiers, w: string)
    requires m == PLAIN || m == PLAIN.(isAbstract := true)
    ensures DefinitionOrUsage(k, v, Undirected, m, [Sym(KW_DEF), Name(w), Sym(SEMICOLON)])
      == if k == KW_END then Fail else Ok(Definition(v, k, m.isAbstract, w, [], [], []), [])
  {
    hide UsageRest, DefinitionRest;
    var ts := [Sym(KW_DEF), Name(w), Sym(SEMICOLON)];
    assert ts[1..] == [Name(w), Sym(SEMICOLON)];
    DefTail(k, v, m.isAbstract, w);
  }

  lemma DefTail(k: Kind, v: Visibility, isAbstract: bool, w: string)
    ensures DefinitionRest(k, v, isAbstract, [Name(w), Sym(SEMICOLON)])
      == Ok(Definition(v, k, isAbstract, w, [], [], []), [])
  {
    hide Members, EnumMembers, ConstraintMembers, Relationships;
    var ts := [Name(w), Sym(SEMICOLON)];
    assert ts[1..] == [Sym(SEMICOLON)] && [Sym(SEMICOLON)][1..] == [];
    NoClauses([Sym(SEMICOLON)]);
    assert ShortName(ts) == Ok((), ts);
    assert Identifier(ts) == Ok(w, [Sym(SEMICOLON)]);
    assert DefinitionBody(k, [Sym(SEMICOLON)]) == Ok([], []);
  }

  ghost predicate GivesDefinition(r: Result<Option<Decl>>) { r.Ok? && r.value.Some? && r.value.value.Definition? }

  /** Every keyword of a feature but `end` has a definition, and so has `attribute`; no other token has. */
  lemma DefinitionRule(k: Kind, w: string)
    ensures var r := Declaration(ShortDef(k, w));
      if (IsFeature(k) && k != KW_END) || k == KW_ATTRIBUTE then r == Ok(Some(DefinitionNamed(k, w)), [])
      else !GivesDefinition(r)
  {
    hide Declaration, DefinitionOrUsage;
    var ts := [Sym(KW_DEF), Name(w), Sym(SEMICOLON)];
    assert ShortDef(k, w) == [Sym(k)] + ts;
    DefBody(k, DefaultVisibility, PLAIN, w);
    if IsFeature(k) {
      PlainBody(k, ts);
    } else if k == KW_ATTRIBUTE {
      AfterKeyword(k, ts);
      AttributeBody(ts);
    } else if IsPrefix(k) || IsModifier(k) || k == HASH || k == AT_SIGN || k == KW_DOC {
      NoDefinitionAfter(k, ts);
    } else {
      AfterKeyword(k, ts);
      NoDefinition(k, ts);
    }
  }

  lemma AttributeBody(ts: seq<Token>)
    requires Head(ts) == Sym(KW_DEF)
    ensures Body(DefaultVisibility, Undirected, PLAIN, [Sym(KW_ATTRIBUTE)] + ts)
      == Node(DefinitionOrUsage(KW_ATTRIBUTE, DefaultVisibility, Undirected, PLAIN, ts))
  {
    hide DefinitionOrUsage, Node, UnmodelledRest, Modelled, AttributeRest, NamedBody;
    assert ([Sym(KW_ATTRIBUTE)] + ts)[1..] == ts;
  }

  lemma NoDefinition(k: Kind, ts: seq<Token>)
    requires Head(ts) == Sym(KW_DEF) && !IsFeature(k) && k != KW_ATTRIBUTE
    ensures !GivesDefinition(Body(DefaultVisibility, Undirected, PLAIN, [Sym(k)] + ts))
  {
    hide DefinitionOrUsage, Node, UnmodelledRest, Modelled, AttributeRest, NamedBody, AttributeOrDef;
    var all := [Sym(k)] + ts;
    assert all[1..] == ts;
    if IsModelled(k) {
      ModelledNode(k, ts);
    } else if StartsBareAttribute(Sym(k)) {
      AttributeNode(all);
    } else {
      UnmodelledNode(k, ts);
    }
  }

  lemma ModelledNode(k: Kind, ts: seq<Token>)
    requires IsModelled(k)
    ensures !GivesDefinition(Node(Modelled(k, DefaultVisibility, ts)))
  {
    hide Members, ImportPath, NameList, QualifiedName, Steps, SuccessionHead, Accept, Guard, Effect, TransitionEnd;
  }

  lemma AttributeNode(ts: seq<Token>)
    ensures !GivesDefinition(Node(AttributeRest(DefaultVisibility, PLAIN, ts)))
  {
    hide Relationships, Value, EndOrBlock;
  }

  lemma UnmodelledNode(k: Kind, ts: seq<Token>)
    requires Head(ts) == Sym(KW_DEF)
    ensures !GivesDefinition(UnmodelledRest(k, DefaultVisibility, Undirected, PLAIN, ts))
  {
    hide DefinitionOrUsage, TwoWordRest, EventRest, PerformRest, SimpleRest, From, Declaration;
    if IsPrefixless(k) {
      PrefixlessNode(k, ts);
    } else {
      hide IsPrefixless;
      assert !IsVariantKind(Head(ts));
    }
  }

  lemma PrefixlessNode(k: Kind, ts: seq<Token>)
    requires IsPrefixless(k)
    ensures !GivesDefinition(PrefixlessKind(k, DefaultVisibility, Undirected, PLAIN, ts))
  {
    hide DefinitionOrUsage, TwoWordRest, EventRest, PerformRest, SimpleRest, From;
  }

  lemma NoDefinitionAfter(k: Kind, ts: seq<Token>)
    requires Head(ts) == Sym(KW_DEF) && (IsPrefix(k) || IsModifier(k) || k == HASH || k == AT_SIGN || k == KW_DOC)
    ensures !GivesDefinition(Declaration([Sym(k)] + ts))
  {
    hide Body;
    var all := [Sym(k)] + ts;
    assert all[1..] == ts;
    DefAlone(ts);
    if k == HASH || k == AT_SIGN {
      assert MetadataName(OptionalName(ts).1) == ts;
      assert OneMetadata(all) == (false, ts);
      assert Metadata(false, ts) == (false, ts);
      assert Metadata(false, all) == (false, ts);
      assert Declaration(all) == Prefixed(ts);
      PrefixedDef(ts);
    } else if k == KW_DOC {
      assert Metadata(false, all) == (false, all);
    } else {
      PrefixAt(k, ts);
    }
  }

  /** A prefix or modifier is taken off a declaration. */
  lemma PrefixAt(k: Kind, ts: seq<Token>)
    requires (IsPrefix(k) || IsModifier(k)) && ModifiersOf(ts) == (PLAIN, ts) && DirectionOf(Head(ts)) == Undirected
    ensures Declaration([Sym(k)] + ts)
      == Body(VisibilityOf(Sym(k)), DirectionOf(Sym(k)), ModifiersOf([Sym(k)] + ts).0, ts)
  {
    hide Prefixed, Declaration, Body, ModifiersOf, VisibilityOf, DirectionOf;
    var all := [Sym(k)] + ts;
    NoMetadata(all);
    if IsModifier(k) { ModifierAt(k, ts); } else { PlainPrefixAt(k, ts); }
  }

  lemma NoMetadata(ts: seq<Token>)
    requires Head(ts).Sym? && (IsPrefix(Head(ts).kind) || IsModifier(Head(ts).kind))
    ensures Declaration(ts) == Prefixed(ts)
  {
    hide Prefixed;
    assert Metadata(false, ts) == (false, ts);
  }

  lemma ModifierAt(k: Kind, ts: seq<Token>)
    requires IsModifier(k) && ModifiersOf(ts) == (PLAIN, ts)
    ensures Prefixed([Sym(k)] + ts) == Body(DefaultVisibility, Undirected, ModifiersOf([Sym(k)] + ts).0, ts)
    ensures VisibilityOf(Sym(k)) == DefaultVisibility && DirectionOf(Sym(k)) == Undirected
  {
    hide Body;
    var all := [Sym(k)] + ts;
    assert all[1..] == ts && ModifiersOf(all).1 == ts;
  }

  lemma PlainPrefixAt(k: Kind, ts: seq<Token>)
    requires IsPrefix(k) && ModifiersOf(ts) == (PLAIN, ts) && DirectionOf(Head(ts)) == Undirected
    ensures Prefixed([Sym(k)] + ts) == Body(VisibilityOf(Sym(k)), DirectionOf(Sym(k)), PLAIN, ts)
    ensures ModifiersOf([Sym(k)] + ts).0 == PLAIN
  {
    hide Body, ModifiersOf;
    var all := [Sym(k)] + ts;
    assert all[1..] == ts;
    NoModifier(all);
  }

  lemma NoModifier(ts: seq<Token>)
    requires Head(ts).Sym? && IsPrefix(Head(ts).kind)
    ensures ModifiersOf(ts) == (PLAIN, ts)
  {
  }

  lemma PrefixedDef(ts: seq<Token>)
    requires Head(ts) == Sym(KW_DEF)
    ensures Prefixed(ts) == Fail
  {
    hide Body;
    DefAlone(ts);
    assert ModifiersOf(ts) == (PLAIN, ts);
  }

  /** `def` needs a keyword before it. */
  lemma DefAlone(ts: seq<Token>)
    requires Head(ts) == Sym(KW_DEF)
    ensures forall v: Visibility, d: Direction, m: Modifiers :: Body(v, d, m, ts) == Fail
  {
    hide DefinitionOrUsage, Modelled, AttributeOrDef, AttributeRest, NamedBody, PrefixlessKind, TwoWordRest, VariantRest;
  }

  // ---- what can begin a declaration -----------------------------------------------------------------------------

  lemma OneName(w: string, ts: seq<Token>)
    requires Head(ts) in {Sym(SEMICOLON), Sym(KW_TO), Sym(EQUAL)}
    ensures Reference([Name(w)] + ts) == Ok(QName(false, [w]), ts)
    ensures QualifiedName([Name(w)] + ts) == Ok(QName(false, [w]), ts)
    ensures NameList([], [Name(w)] + ts) == Ok([QName(false, [w])], ts)
    ensures ActionRef([Name(w)] + ts) == Ok(QName(false, [w]), ts)
  {
    assert ([Name(w)] + ts)[1..] == ts;
    assert MoreParts(QName(false, [w]), ts) == Ok(QName(false, [w]), ts);
    assert [] + [QName(false, [w])] == [QName(false, [w])];
  }

  /** What may follow the keyword of a statement. */
  function After(k: Kind, w: string): seq<Token> {
    if k in {KW_ATTRIBUTE, KW_CONSTRAINT, KW_CALC, KW_VARIANT, KW_VARIATION, KW_INCLUDE, KW_IMPORT, KW_FIRST, KW_THEN,
             KW_EVENT, KW_SATISFY, KW_ENTRY, KW_EXIT, KW_DO, KW_SUBJECT} then [Name(w), Sym(SEMICOLON)]
    else if k == KW_USE then [Name("case"), Name(w), Sym(SEMICOLON)]
    else if k == KW_EXHIBIT then [Sym(KW_STATE), Name(w), Sym(SEMICOLON)]
    else if k == KW_PACKAGE then [Name(w), Sym(LEFT_BRACE), Sym(RIGHT_BRACE)]
    else if k == KW_ALIAS then [Name(w), Sym(KW_FOR), Name(w), Sym(SEMICOLON)]
    else if k == KW_DEPENDENCY then [Sym(KW_FROM), Name(w), Sym(KW_TO), Name(w), Sym(SEMICOLON)]
    else if k in {KW_SUCCESSION, KW_TRANSITION} then [Sym(KW_THEN), Name(w), Sym(SEMICOLON)]
    else if k in {KW_PERFORM, KW_RETURN} then [Sym(SEMICOLON)]
    else if k in {KW_ASSERT, KW_ASSUME, KW_REQUIRE} then [Sym(KW_CONSTRAINT), Sym(SEMICOLON)]
    else if k in {KW_CONNECT, KW_ALLOCATE} then [Name(w), Sym(KW_TO), Name(w), Sym(SEMICOLON)]
    else if k == KW_BIND then [Name(w), Sym(EQUAL), Name(w), Sym(SEMICOLON)]
    else []
  }

  lemma ByKeyword(k: Kind, ts: seq<Token>)
    requires IsStatement(k) && k != KW_DOC && k != KW_ATTRIBUTE
    ensures Declaration([Sym(k)] + ts)
      == if IsModelled(k) then Node(Modelled(k, DefaultVisibility, ts))
         else UnmodelledRest(k, DefaultVisibility, Undirected, PLAIN, ts)
  {
    hide Declaration;
    AfterKeyword(k, ts);
    StatementBody(k, [Sym(k)] + ts);
    assert ([Sym(k)] + ts)[1..] == ts;
  }

  lemma StatementBody(k: Kind, ts: seq<Token>)
    requires Head(ts) == Sym(k) && IsStatement(k) && k != KW_DOC && k != KW_ATTRIBUTE && ts != []
    ensures Body(DefaultVisibility, Undirected, PLAIN, ts)
      == if IsModelled(k) then Node(Modelled(k, DefaultVisibility, ts[1..]))
         else UnmodelledRest(k, DefaultVisibility, Undirected, PLAIN, ts[1..])
  {
    hide Node, UnmodelledRest, Modelled, AttributeOrDef, NamedBody, DefinitionOrUsage, AttributeRest;
    NotPlain(k);
  }

  lemma NotPlain(k: Kind)
    requires IsStatement(k)
    ensures k !in PLAIN_KINDS && !StartsBareAttribute(Sym(k))
  {
    NotFeature(k);
  }

  lemma NotFeature(k: Kind)
    requires IsStatement(k)
    ensures k !in PLAIN_KINDS
  {
  }

  lemma ModelledBegins(k: Kind)
    requires IsModelled(k)
    ensures Modelled(k, DefaultVisibility, After(k, "x")).Ok?
  {
    hide PackageRest, ImportRest, AliasRest, DependencyRest, TransitionRest, SuccessionOf, After;
    if k == KW_PACKAGE {
      PackageBegins();
    } else if k == KW_IMPORT {
      ImportBegins();
    } else if k == KW_ALIAS {
      AliasBegins();
    } else if k == KW_DEPENDENCY {
      DependencyBegins();
    } else if k == KW_TRANSITION {
      TransitionBegins();
    } else {
      SuccessionBegins(k);
    }
  }

  lemma PackageBegins()
    ensures PackageRest(DefaultVisibility, After(KW_PACKAGE, "x")).Ok?
  {
    var close := [Sym(RIGHT_BRACE)];
    assert After(KW_PACKAGE, "x")[1..] == [Sym(LEFT_BRACE)] + close && ([Sym(LEFT_BRACE)] + close)[1..] == close;
    assert Members([], close) == Ok([], close[1..]);
  }

  lemma ImportBegins()
    ensures ImportRest(DefaultVisibility, After(KW_IMPORT, "x")).Ok?
  {
    var end := [Sym(SEMICOLON)];
    assert After(KW_IMPORT, "x")[1..] == end;
    assert ImportPath(["x"], end) == Ok((["x"], false), end);
  }

  lemma AliasBegins()
    ensures AliasRest(DefaultVisibility, After(KW_ALIAS, "x")).Ok?
  {
    hide QualifiedName;
    var end := [Sym(SEMICOLON)];
    var named := [Name("x")] + end;
    OneName("x", end);
    assert After(KW_ALIAS, "x")[1..] == [Sym(KW_FOR)] + named && ([Sym(KW_FOR)] + named)[1..] == named;
  }

  lemma DependencyBegins()
    ensures DependencyRest(DefaultVisibility, After(KW_DEPENDENCY, "x")).Ok?
  {
    hide NameList;
    var end := [Sym(SEMICOLON)];
    var to := [Sym(KW_TO)] + ([Name("x")] + end);
    OneName("x", end);
    OneName("x", to);
    assert After(KW_DEPENDENCY, "x")[1..] == [Name("x")] + to && to[1..] == [Name("x")] + end;
  }

  lemma TransitionBegins()
    ensures TransitionRest(After(KW_TRANSITION, "x")).Ok?
  {
    hide QualifiedName, Expression;
    var end := [Sym(SEMICOLON)];
    var ts := After(KW_TRANSITION, "x");
    OneName("x", end);
    assert ts[1..] == [Name("x")] + end;
    assert OptionalName(ts) == ("", ts) && Accept(ts) == Ok(None, ts) && Guard(ts) == Ok(None, ts);
    assert Effect(ts) == Ok(None, ts) && OptionalQName(KW_FIRST, ts) == Ok(None, ts);
    assert TransitionEnd(ts).Ok?;
  }

  lemma SuccessionBegins(k: Kind)
    requires k == KW_SUCCESSION || k == KW_FIRST || k == KW_THEN
    ensures SuccessionOf(k, After(k, "x")).Ok?
  {
    hide ActionRef, Reference, InlineRest;
    var end := [Sym(SEMICOLON)];
    var named := [Name("x")] + end;
    assert end[1..] == [] && named[1..] == end && named == [Name("x"), Sym(SEMICOLON)];
    OneName("x", end);
    var link := Link(QName(false, ["x"]));
    assert !IsForkJoin(Name("x"));
    assert ThenTarget(named) == Ok(link, end);
    assert MoreTargets([], end) == Ok([], end) && MoreTargets([link], end) == Ok([link], end);
    var ts := After(k, "x");
    if k == KW_SUCCESSION {
      assert ts[1..] == named;
      assert SuccessionHead(k, ts) == Ok(("", None), ts);
      assert Steps(k, ts) == Ok([link], end);
    } else if k == KW_FIRST {
      assert SuccessionHead(k, ts) == Ok(("", Some(QName(false, ["x"]))), end);
      assert Steps(k, end) == Ok([], end);
    } else {
      assert Steps(k, ts) == Ok([link], end);
    }
  }

  lemma AttributeBegins()
    ensures CanBegin(KW_ATTRIBUTE)
  {
    hide Declaration, Relationships, Value;
    var end := [Sym(SEMICOLON)];
    var ts := [Name("x")] + end;
    AfterKeyword(KW_ATTRIBUTE, ts);
    assert ([Sym(KW_ATTRIBUTE)] + ts)[1..] == ts && ts[1..] == end;
    NoClauses(end);
    assert EndOrBlock(end).Ok?;
    assert AttributeRest(DefaultVisibility, PLAIN, ts).Ok?;
    assert Body(DefaultVisibility, Undirected, PLAIN, [Sym(KW_ATTRIBUTE)] + ts)
      == Node(AttributeRest(DefaultVisibility, PLAIN, ts));
    assert Begins(KW_ATTRIBUTE, ts);
  }

  lemma Unprefixed(k: Kind, ts: seq<Token>)
    requires IsPrefixless(k)
    ensures UnmodelledRest(k, DefaultVisibility, Undirected, PLAIN, ts) == PrefixlessRest(k, DefaultVisibility, ts)
  {
    hide PrefixlessRest, IsPrefixless;
  }

  lemma KeywordUsage(k: Kind)
    ensures DefinitionOrUsage(k, DefaultVisibility, Undirected, PLAIN, [Name("x"), Sym(SEMICOLON)]).Ok?
  {
    hide UsageRest;
    var end := [Sym(SEMICOLON)];
    assert [Name("x")] + end == [Name("x"), Sym(SEMICOLON)];
    NamedUsage(k, DefaultVisibility, Undirected, PLAIN, "x", end);
  }

  lemma TwoWordBegins(k: Kind)
    requires k in {KW_INCLUDE, KW_USE, KW_EXHIBIT}
    ensures TwoWordRest(k, DefaultVisibility, Undirected, PLAIN, After(k, "x")).Ok?
  {
    hide DefinitionOrUsage;
    var ts := [Name("x"), Sym(SEMICOLON)];
    KeywordUsage(k);
    KeywordUsage(KW_STATE);
    assert k != KW_INCLUDE ==> After(k, "x")[1..] == ts;
    assert SecondWord(k, After(k, "x")) == Ok((), ts);
  }

  lemma VariantBegins(k: Kind)
    requires k in {KW_CONSTRAINT, KW_VARIANT, KW_VARIATION, KW_INCLUDE}
    ensures UnmodelledRest(k, DefaultVisibility, Undirected, PLAIN, After(k, "x")).Ok?
  {
    hide DefinitionOrUsage, TwoWordRest, Declaration, IsPrefixless;
    KeywordUsage(k);
    if k == KW_INCLUDE { TwoWordBegins(k); }
    assert !IsPrefixless(k) by { NotPrefixless(k); }
  }

  lemma NotPrefixless(k: Kind)
    requires k in {KW_CONSTRAINT, KW_VARIANT, KW_VARIATION, KW_INCLUDE}
    ensures !IsPrefixless(k)
  {
  }

  lemma SimpleBegins(k: Kind)
    requires k in {KW_COMMENT, KW_SATISFY, KW_ENTRY, KW_EXIT, KW_DO, KW_RETURN, KW_ASSERT, KW_ASSUME, KW_REQUIRE,
                   KW_SUBJECT, KW_CONNECT, KW_ALLOCATE, KW_BIND}
    ensures SimpleRest(k, After(k, "x")).Ok?
  {
    hide Reference, NameList, Expression, Closed;
    var end := [Sym(SEMICOLON)];
    var ts := [Name("x")] + end;
    assert ts == [Name("x"), Sym(SEMICOLON)] && ts[1..] == end;
    OneName("x", end);
    var all := After(k, "x");
    if k == KW_CONNECT || k == KW_ALLOCATE {
      var to := [Sym(KW_TO)] + ts;
      OneName("x", to);
      assert to[1..] == ts && all == [Name("x")] + to;
      assert TwoEnds(all).Ok? && TwoEnds(all).rest == end;
    } else if k == KW_BIND {
      var eq := [Sym(EQUAL)] + ts;
      OneName("x", eq);
      assert eq[1..] == ts && all == [Name("x")] + eq;
    } else if k == KW_ASSERT || k == KW_ASSUME || k == KW_REQUIRE {
      assert all[1..] == end;
      assert AssertedRest(false, end).Ok?;
    } else if k == KW_RETURN {
      assert ReturnSupers(end) == Ok([], end) && OptionalTypes(end) == Ok([], end) && Value(end, false) == Ok(None, end);
    } else if k == KW_SUBJECT {
      assert OptionalTypes(end) == Ok([], end);
    }
  }

  lemma PrefixlessBegins(k: Kind)
    requires IsPrefixless(k)
    ensures PrefixlessRest(k, DefaultVisibility, After(k, "x")).Ok?
  {
    hide SimpleRest, TwoWordRest, EventRest, PerformRest, DefinitionOrUsage;
    if k == KW_CALC {
      KeywordUsage(k);
    } else if k == KW_USE || k == KW_EXHIBIT {
      TwoWordBegins(k);
    } else if k == KW_EVENT {
      EventBegins();
    } else if k == KW_PERFORM {
      PerformBegins();
    } else if k != KW_FILTER {
      SimpleBegins(k);
    }
  }

  lemma EventBegins()
    ensures EventRest(DefaultVisibility, After(KW_EVENT, "x")).Ok?
  {
    hide Reference, DefinitionOrUsage;
    var end := [Sym(SEMICOLON)];
    OneName("x", end);
    assert After(KW_EVENT, "x") == [Name("x")] + end;
  }

  lemma PerformBegins()
    ensures PerformRest(After(KW_PERFORM, "x")).Ok?
  {
    hide Relationships, Members;
    NoClauses([Sym(SEMICOLON)]);
  }

  lemma StatementBegins(k: Kind)
    requires IsStatement(k)
    ensures CanBegin(k)
  {
    hide Declaration, UnmodelledRest, Modelled, After, DocRest, PrefixlessRest;
    if k == KW_ATTRIBUTE {
      AttributeBegins();
    } else if k == KW_DOC {
      DocBegins();
    } else {
      ByKeyword(k, After(k, "x"));
      if IsModelled(k) {
        ModelledBegins(k);
      } else if IsPrefixless(k) {
        Unprefixed(k, After(k, "x"));
        PrefixlessBegins(k);
      } else {
        VariantBegins(k);
      }
      assert Begins(k, After(k, "x"));
    }
  }

  lemma DocBegins()
    ensures CanBegin(KW_DOC)
  {
    hide Prefixed;
    var ts := [Sym(KW_DOC)] + [];
    assert Metadata(false, ts) == (false, ts);
    assert Begins(KW_DOC, []);
  }

  /** Behind each prefix or modifier `part x ;` is read. */
  lemma PrefixBegins(k: Kind)
    requires IsPrefix(k) || IsModifier(k)
    ensures CanBegin(k)
  {
    hide Body, Declaration;
    var ts := Short(KW_PART, "x");
    assert Head(ts) == Sym(KW_PART) && ModifiersOf(ts) == (PLAIN, ts);
    PrefixAt(k, ts);
    PartAfter(VisibilityOf(Sym(k)), DirectionOf(Sym(k)), ModifiersOf([Sym(k)] + ts).0);
    assert Begins(k, ts);
  }

  lemma PartAfter(v: Visibility, d: Direction, m: Modifiers)
    ensures Body(v, d, m, Short(KW_PART, "x")).Ok?
  {
    hide UsageRest;
    var ts := [Name("x")] + [Sym(SEMICOLON)];
    assert Short(KW_PART, "x")[1..] == ts;
    NamedUsage(KW_PART, v, d, m, "x", [Sym(SEMICOLON)]);
    assert DefinitionOrUsage(KW_PART, v, d, m, ts).Ok?;
  }

  lemma MetadataBegins(k: Kind)
    requires k == HASH || k == AT_SIGN
    ensures CanBegin(k)
  {
    hide Declaration, Prefixed, DocRest;
    var part := Short(KW_PART, "x");
    var all := [Sym(k), Name("x")] + part;
    assert all[1..] == [Name("x")] + part && all[1..][1..] == part;
    assert MetadataName(part) == part && MetadataTail(part) == (false, part);
    assert OneMetadata(all) == (false, part);
    assert Metadata(false, part) == (false, part);
    assert Metadata(false, all) == (false, part);
    SameDeclaration(all, part);
    UsageRule(KW_PART, "x");
    assert [Sym(k)] + all[1..] == all;
    assert Begins(k, all[1..]);
  }

  lemma SameDeclaration(a: seq<Token>, b: seq<Token>)
    requires Metadata(false, a) == (false, b) == Metadata(false, b)
    ensures Declaration(a) == Declaration(b)
  {
    hide Prefixed, DocRest, Metadata;
  }

  lemma ClauseBegins(k: Kind)
    requires k in {COLON_GREATER, COLON_GREATER_GREATER, KW_REDEFINES, KW_SUBSETS}
    ensures CanBegin(k)
  {
    hide Declaration, NameList;
    var end := [Sym(SEMICOLON)];
    var ts := [Name("x")] + end;
    var all := [Sym(k)] + ts;
    assert all[1..] == ts;
    OneName("x", end);
    AfterKeyword(k, ts);
    ClauseBody(k, all);
    var f := if IsSuper(Sym(k)) then BARE.(supers := [QName(false, ["x"])]) else BARE.(redefines := [QName(false, ["x"])]);
    assert Relationships(f, end) == Ok(f, end) && Relationships(BARE, all) == Ok(f, end);
    assert Value(end, true) == Ok(None, end);
    assert AttributeRest(DefaultVisibility, PLAIN, all).Ok?;
    assert Begins(k, ts);
  }

  lemma ClauseBody(k: Kind, ts: seq<Token>)
    requires Head(ts) == Sym(k) && k in {COLON_GREATER, COLON_GREATER_GREATER, KW_REDEFINES, KW_SUBSETS}
    ensures Body(DefaultVisibility, Undirected, PLAIN, ts) == Node(AttributeRest(DefaultVisibility, PLAIN, ts))
  {
    hide Node, UnmodelledRest, Modelled, AttributeOrDef, NamedBody, DefinitionOrUsage, AttributeRest;
  }

  lemma NothingElseBegins(k: Kind, ts: seq<Token>)
    requires !IsFeature(k) && !IsStatement(k) && !IsPrefix(k) && !IsModifier(k) && !IsMark(k)
    ensures !Begins(k, ts)
  {
    hide Declaration;
    AfterKeyword(k, ts);
    NoBody(k, [Sym(k)] + ts);
  }

  lemma NoBody(k: Kind, ts: seq<Token>)
    requires Head(ts) == Sym(k)
    requires !IsFeature(k) && !IsStatement(k) && !IsPrefix(k) && !IsModifier(k) && !IsMark(k)
    ensures Body(DefaultVisibility, Undirected, PLAIN, ts) == Fail
  {
    hide Modelled, AttributeOrDef, NamedBody, DefinitionOrUsage, AttributeRest, PrefixlessKind, TwoWordRest, VariantRest;
  }

  /** The tokens of this kind that a declaration can begin with, besides a name or a documentation comment. */
  lemma BeginningsAre(k: Kind)
    ensures CanBegin(k) <==> IsFeature(k) || IsStatement(k) || IsPrefix(k) || IsModifier(k) || IsMark(k)
  {
    hide Begins, Declaration;
    if IsFeature(k) {
      FeatureBegins(k);
    } else if IsStatement(k) {
      StatementBegins(k);
    } else if IsPrefix(k) || IsModifier(k) {
      PrefixBegins(k);
    } else if k == HASH || k == AT_SIGN {
      MetadataBegins(k);
    } else if IsMark(k) {
      ClauseBegins(k);
    } else {
      forall ts: seq<Token> ensures !Begins(k, ts) { NothingElseBegins(k, ts); }
    }
  }

  lemma FeatureBegins(k: Kind)
    requires IsFeature(k)
    ensures CanBegin(k)
  {
    hide Declaration;
    UsageRule(k, "x");
    assert Short(k, "x") == [Sym(k)] + [Name("x"), Sym(SEMICOLON)];
    assert Begins(k, [Name("x"), Sym(SEMICOLON)]);
  }

  // ---- recovery ---------------------------------------------------------------------------------------------------

  /** Recovery resumes at a closing brace and at whatever can begin a declaration, with these exceptions: `analysis`,
      visibilities and directions, metadata, and attributes without a keyword. */
  lemma RecoveryRule(k: Kind)
    ensures Restarts(Sym(k)) <==> k == RIGHT_BRACE || (CanBegin(k) && k != KW_ANALYSIS && !IsPrefix(k) && !IsMark(k))
  {
    hide CanBegin, Restarts;
    BeginningsAre(k);
    RestartsAre(k);
  }

  lemma RestartsAre(k: Kind)
    ensures Restarts(Sym(k)) <==>
      k == RIGHT_BRACE || (IsFeature(k) && k != KW_ANALYSIS) || IsStatement(k) || IsModifier(k)
  {
  }

  /** Parsing can resume before position `k` of `ts`, which follows the token `t`. */
  predicate Resumes(t: Token, ts: seq<Token>, k: nat)
    requires k <= |ts|
  {
    || k == |ts|
    || (if k == 0 then t else ts[k - 1]) == Sym(SEMICOLON)
    || Restarts(ts[k])
  }

  /** Recovery skips to the first place where parsing can resume. */
  lemma {:induction false} ResumesFirst(t: Token, ts: seq<Token>, k: nat)
    requires k <= |ts|
    ensures ResumeAt(t, ts) == ts[k..] <==> Resumes(t, ts, k) && forall j: nat | j < k :: !Resumes(t, ts, j)
    decreases |ts|
  {
    hide Restarts;
    if Resumes(t, ts, 0) {
      assert ResumeAt(t, ts) == ts;
      assert k > 0 ==> |ts[k..]| < |ts|;
    } else if k == 0 {
      ResumeShrinks(ts[0], ts[1..]);
    } else {
      ResumesFirst(ts[0], ts[1..], k - 1);
      assert ts[1..][k - 1..] == ts[k..];
      forall j: nat | j < k ensures Resumes(t, ts, j + 1) == Resumes(ts[0], ts[1..], j) {}
      assert forall j: nat | 0 < j < k :: Resumes(t, ts, j) == Resumes(ts[0], ts[1..], j - 1);
    }
  }

  lemma {:induction false} ResumeShrinks(t: Token, ts: seq<Token>)
    ensures |ResumeAt(t, ts)| <= |ts|
    decreases |ts|
  {
    hide Restarts;
    if !(ts == [] || t == Sym(SEMICOLON) || Restarts(ts[0])) { ResumeShrinks(ts[0], ts[1..]); }
  }
}
