/** The declaration grammar on tokens.  A construct whose node is not modelled is read as `Other`. */
module DeclGrammar {
  import opened Basics
  import opened Tokens
  import opened Syntax
  import opened Outline
  import opened Pratt

  function Expression(ts: seq<Token>): (r: Result<Expr>)
    ensures r.Ok? ==> |r.rest| < |ts|
  {
    match Level(ts, PREC_ASSIGNMENT)
    case Fail => Fail
    case Ok(t, rest) => Ok(Erase(t), rest)
  }

  /** One required token. */
  function Expect(k: Kind, ts: seq<Token>): (r: Result<()>)
    ensures r.Ok? ==> |r.rest| < |ts|
    requires k != EOF
  {
    if Head(ts) == Sym(k) then Ok((), ts[1..]) else Fail
  }

  /** One required name. */
  function Identifier(ts: seq<Token>): (r: Result<string>)
    ensures r.Ok? ==> |r.rest| < |ts|
  {
    if Head(ts).Name? then Ok(ts[0].text, ts[1..]) else Fail
  }

  /** One optional name. */
  function OptionalName(ts: seq<Token>): (r: (string, seq<Token>))
    ensures |r.1| <= |ts|
  {
    if Head(ts).Name? then (ts[0].text, ts[1..]) else ("", ts)
  }

  // ---- tokens that are skipped -----------------------------------------------------

  /** What is left from the first of the tokens `stops` on. */
  function From(stops: set<Kind>, ts: seq<Token>): (r: seq<Token>)
    ensures |r| <= |ts|
  {
    if ts == [] || (ts[0].Sym? && ts[0].kind in stops) then ts else From(stops, ts[1..])
  }

  /** What is left after `depth` open brackets are closed, or nothing. */
  function Closed(open: Kind, close: Kind, ts: seq<Token>, depth: nat): (r: seq<Token>)
    ensures |r| <= |ts|
  {
    if ts == [] || depth == 0 then ts
    else if ts[0] == Sym(open) then Closed(open, close, ts[1..], depth + 1)
    else if ts[0] == Sym(close) then Closed(open, close, ts[1..], depth - 1)
    else Closed(open, close, ts[1..], depth)
  }

  /** An optional `<short>` annotation. */
  function ShortName(ts: seq<Token>): (r: Result<()>)
    ensures r.Ok? ==> |r.rest| <= |ts|
  {
    if Head(ts) == Sym(LESS) then Expect(GREATER, OptionalName(ts[1..]).1) else Ok((), ts)
  }

  predicate StartsMetadata(t: Token) { t == Sym(HASH) || t == Sym(AT_SIGN) }

  /** The further segments of the name of a metadata application. */
  function MetadataName(ts: seq<Token>): (r: seq<Token>)
    ensures |r| <= |ts|
    decreases |ts|
  {
    if Head(ts) == Sym(COLON_COLON) then MetadataName(OptionalName(ts[1..]).1) else ts
  }

  /** The tail of `@name`: what it is about, a block, a semicolon.  One of them makes it a
      statement. */
  function MetadataTail(ts: seq<Token>): (r: (bool, seq<Token>))
    ensures |r.1| <= |ts|
  {
    var about := Head(ts) == Sym(KW_ABOUT);
    var ts1 := if about then From({LEFT_BRACE, SEMICOLON}, ts[1..]) else ts;
    var braced := Head(ts1) == Sym(LEFT_BRACE);
    var ts2 := if braced then Closed(LEFT_BRACE, RIGHT_BRACE, ts1[1..], 1) else ts1;
    (about || braced || Head(ts2) == Sym(SEMICOLON), Drop(SEMICOLON, ts2))
  }

  /** One metadata application. */
  function OneMetadata(ts: seq<Token>): (r: (bool, seq<Token>))
    requires ts != []
    ensures |r.1| < |ts|
  {
    var ts1 := MetadataName(OptionalName(ts[1..]).1);
    if ts[0] == Sym(HASH) then (false, ts1) else MetadataTail(ts1)
  }

  /** `skipMetadataPrefixIsStatement`: any number of them. */
  function Metadata(before: bool, ts: seq<Token>): (r: (bool, seq<Token>))
    ensures |r.1| <= |ts| && (r.0 && !before ==> |r.1| < |ts|)
    decreases |ts|
  {
    if !StartsMetadata(Head(ts)) then (before, ts)
    else
      var (statement, rest) := OneMetadata(ts);
      Metadata(before || statement, rest)
  }

  // ---- qualified names --------------------------------------------------------------

  function QualifiedName(ts: seq<Token>): (r: Result<QName>)
    ensures r.Ok? ==> |r.rest| < |ts|
  {
    var conjugated := Head(ts) == Sym(TILDE);
    var ts1 := if conjugated then ts[1..] else ts;
    if Head(ts1).Name? then MoreParts(QName(conjugated, [ts1[0].text]), ts1[1..]) else Fail
  }

  function MoreParts(q: QName, ts: seq<Token>): (r: Result<QName>)
    ensures r.Ok? ==> |r.rest| <= |ts|
    decreases |ts|
  {
    if Head(ts) != Sym(COLON_COLON) && Head(ts) != Sym(PERIOD) then Ok(q, ts)
    else if |ts| > 1 && ts[1].Name? then MoreParts(q.(parts := q.parts + [ts[1].text]), ts[2..])
    else Fail
  }

  /** `appendQualifiedNameList`. */
  function NameList(qs: seq<QName>, ts: seq<Token>): (r: Result<seq<QName>>)
    ensures r.Ok? ==> |r.rest| < |ts|
    decreases |ts|
  {
    match QualifiedName(ts)
    case Fail => Fail
    case Ok(q, rest) => if Head(rest) == Sym(COMMA) then NameList(qs + [q], rest[1..]) else Ok(qs + [q], rest)
  }

  /** The parts of a path after its first one, where only `sep` separates them. */
  function PartsBy(sep: Kind, q: QName, ts: seq<Token>): (r: Result<QName>)
    requires sep != EOF
    ensures r.Ok? ==> |r.rest| <= |ts|
    decreases |ts|
  {
    if Head(ts) != Sym(sep) then Ok(q, ts)
    else if |ts| > 1 && ts[1].Name? then PartsBy(sep, q.(parts := q.parts + [ts[1].text]), ts[2..])
    else Fail
  }

  /** `dottedReference`: a bracket before the name and a refinement after it leave no trace. */
  function Reference(ts: seq<Token>): (r: Result<QName>)
    ensures r.Ok? ==> |r.rest| < |ts|
  {
    var ts1 := if Head(ts) == Sym(LEFT_BRACKET) then Closed(LEFT_BRACKET, RIGHT_BRACKET, ts[1..], 1) else ts;
    if !Head(ts1).Name? then Fail
    else match MoreParts(QName(false, [ts1[0].text]), ts1[1..])
      case Fail => Fail
      case Ok(q, rest) => Ok(q, AfterRefinement(rest))
  }

  function AfterRefinement(ts: seq<Token>): (r: seq<Token>)
    ensures |r| <= |ts|
  {
    if !StartsRefinement(Head(ts)) then ts
    else if Head(ts[1..]).Name? then AfterPath(ts[2..])
    else ts[1..]
  }

  /** Further segments of a path; a name may be missing. */
  function AfterPath(ts: seq<Token>): (r: seq<Token>)
    ensures |r| <= |ts|
    decreases |ts|
  {
    if Head(ts) != Sym(COLON_COLON) && Head(ts) != Sym(PERIOD) then ts
    else AfterPath(OptionalName(ts[1..]).1)
  }

  predicate StartsRefinement(t: Token) {
    t in {Sym(COLON_GREATER), Sym(COLON_GREATER_GREATER), Sym(KW_REDEFINES), Sym(KW_SUBSETS), Sym(KW_SPECIALIZES)}
  }

  // ---- clauses --------------------------------------------------------------------------

  const LONG_MAX: nat := 0x7FFF_FFFF_FFFF_FFFF

  /** The value of the leading digits. */
  function Digits(w: string): nat {
    if w == "" || !IsDigit(w[|w| - 1]) then 0 else 10 * Digits(w[..|w| - 1]) + (w[|w| - 1] as nat - '0' as nat)
  }

  function LeadingDigits(w: string): string {
    if w == "" || !IsDigit(w[0]) then "" else [w[0]] + LeadingDigits(w[1..])
  }

  /** `tokenToLong`: at most 63 characters are read, and large values saturate. */
  function LongOf(w: string): nat {
    var v := Digits(LeadingDigits(if |w| < 63 then w else w[..63]));
    if v > LONG_MAX then LONG_MAX else v
  }

  function BoundOf(ts: seq<Token>): (r: Result<Bound>)
    ensures r.Ok? ==> |r.rest| < |ts|
  {
    if Head(ts) == Sym(STAR) then Ok(Star, ts[1..])
    else if Head(ts).Number? then Ok(Count(LongOf(ts[0].text)), ts[1..])
    else Fail
  }

  /** `parseMultiplicity`: the opening bracket is already consumed. */
  function MultiplicityOf(ts: seq<Token>): (r: Result<Multiplicity>)
    ensures r.Ok? ==> |r.rest| < |ts|
  {
    match BoundOf(ts)
    case Fail => Fail
    case Ok(lower, ts1) =>
      match UpperBound(ts1)
      case Fail => Fail
      case Ok(upper, ts2) =>
        match Expect(RIGHT_BRACKET, ts2)
        case Fail => Fail
        case Ok(_, rest) => Ok(Multiplicity(lower, upper), rest)
  }

  function UpperBound(ts: seq<Token>): (r: Result<Option<Bound>>)
    ensures r.Ok? ==> |r.rest| <= |ts|
  {
    if Head(ts) != Sym(DOT_DOT) then Ok(None, ts)
    else match BoundOf(ts[1..])
      case Fail => Fail
      case Ok(b, rest) => Ok(Some(b), rest)
  }

  function SkipOrdering(ts: seq<Token>): (r: seq<Token>)
    ensures |r| <= |ts|
  {
    if Head(ts) == Sym(KW_NONUNIQUE) || Head(ts) == Sym(KW_ORDERED) then SkipOrdering(ts[1..]) else ts
  }

  predicate IsSuper(t: Token) { t == Sym(COLON_GREATER) || t == Sym(KW_SPECIALIZES) || t == Sym(KW_SUBSETS) }

  predicate IsRedefines(t: Token) { t == Sym(COLON_GREATER_GREATER) || t == Sym(KW_REDEFINES) }

  /** `parseFeatureRelationships`: each clause at most once, in any order. */
  function Relationships(f: Features, ts: seq<Token>): (r: Result<Features>)
    ensures r.Ok? ==> |r.rest| <= |ts|
    decreases |ts|
  {
    if Head(ts) == Sym(LEFT_BRACKET) then
      if f.multiplicity.Some? then Fail
      else match MultiplicityOf(ts[1..])
        case Fail => Fail
        case Ok(m, rest) => Relationships(f.(multiplicity := Some(m)), SkipOrdering(rest))
    else if Head(ts) == Sym(COLON) then
      if f.types != [] then Fail
      else match NameList([], ts[1..])
        case Fail => Fail
        case Ok(qs, rest) => Relationships(f.(types := qs), rest)
    else if IsSuper(Head(ts)) then
      if f.supers != [] then Fail
      else match NameList([], ts[1..])
        case Fail => Fail
        case Ok(qs, rest) => Relationships(f.(supers := qs), rest)
    else if IsRedefines(Head(ts)) then
      if f.redefines != [] then Fail
      else match NameList([], ts[1..])
        case Fail => Fail
        case Ok(qs, rest) => Relationships(f.(redefines := qs), rest)
    else Ok(f, ts)
  }

  /** An optional value after `=`, or also after `default`. */
  function Value(ts: seq<Token>, orDefault: bool): (r: Result<Option<Expr>>)
    ensures r.Ok? ==> |r.rest| <= |ts|
  {
    if Head(ts) == Sym(EQUAL) || (orDefault && Head(ts) == Sym(KW_DEFAULT)) then
      match Expression(ts[1..])
      case Fail => Fail
      case Ok(e, rest) => Ok(Some(e), rest)
    else Ok(None, ts)
  }

  // ---- prefixes -----------------------------------------------------------------------------

  function VisibilityOf(t: Token): Visibility {
    if t == Sym(KW_PUBLIC) then Public
    else if t == Sym(KW_PRIVATE) then Private
    else if t == Sym(KW_PROTECTED) then Protected
    else DefaultVisibility
  }

  function DirectionOf(t: Token): Direction {
    if t == Sym(KW_IN) then In
    else if t == Sym(KW_OUT) then Out
    else if t == Sym(KW_INOUT) then InOut
    else Undirected
  }

  /** `ts` without its first token when that is `k`. */
  function Drop(k: Kind, ts: seq<Token>): (r: seq<Token>)
    requires k != EOF
    ensures |r| <= |ts|
  {
    if Head(ts) == Sym(k) then ts[1..] else ts
  }

  /** `parseFeatureModifiers`: each at most once, in this order. */
  function ModifiersOf(ts: seq<Token>): (r: (Modifiers, seq<Token>))
    ensures |r.1| <= |ts|
  {
    var ts1 := Drop(KW_DERIVED, ts);
    var ts2 := Drop(KW_ABSTRACT, ts1);
    var ts3 := Drop(KW_CONSTANT, ts2);
    (Modifiers(Head(ts) == Sym(KW_DERIVED), Head(ts1) == Sym(KW_ABSTRACT), Head(ts2) == Sym(KW_CONSTANT),
               Head(ts3) == Sym(KW_REF)),
     Drop(KW_REF, ts3))
  }

  // ---- kinds of definition and usage ---------------------------------------------------

  /** The kinds that share the plain grammar of `definitionOrUsage`. */
  const PLAIN_KINDS: set<Kind> := {
    KW_PART, KW_PORT, KW_INTERFACE, KW_ITEM, KW_CONNECTION, KW_FLOW, KW_END, KW_ENUM, KW_REQUIREMENT,
    KW_ACTION, KW_STATE, KW_OCCURRENCE, KW_INDIVIDUAL, KW_SNAPSHOT, KW_TIMESLICE, KW_ALLOCATION, KW_VIEW,
    KW_VIEWPOINT, KW_RENDERING, KW_CONCERN, KW_ACTOR, KW_MESSAGE, KW_METADATA, KW_VERIFICATION,
    KW_OBJECTIVE, KW_ANALYSIS }

  /** The keywords of constructs without a modelled node that take no prefix. */
  predicate IsPrefixless(k: Kind): (r: bool)
    ensures r ==> k != EOF
  {
    k in {KW_COMMENT, KW_CALC, KW_EVENT, KW_USE, KW_EXHIBIT, KW_SATISFY, KW_FILTER, KW_ENTRY, KW_EXIT, KW_DO,
          KW_PERFORM, KW_RETURN, KW_ASSERT, KW_ASSUME, KW_REQUIRE, KW_SUBJECT, KW_CONNECT, KW_BIND, KW_ALLOCATE}
  }

  /** The kinds with modelled nodes other than definitions, usages and attributes. */
  predicate IsModelled(k: Kind) {
    k == KW_PACKAGE || k == KW_IMPORT || k == KW_ALIAS || k == KW_DEPENDENCY || k == KW_SUCCESSION || k == KW_FIRST
    || k == KW_THEN || k == KW_TRANSITION
  }

  /** The clause tokens that alone introduce an attribute. */
  predicate StartsBareAttribute(t: Token) {
    t in {Sym(COLON_GREATER), Sym(COLON_GREATER_GREATER), Sym(KW_REDEFINES), Sym(KW_SUBSETS)}
  }

  /** The kinds that may follow `variant` or `variation`. */
  predicate IsVariantKind(t: Token) {
    t in {Sym(KW_PART), Sym(KW_PORT), Sym(KW_ITEM), Sym(KW_ATTRIBUTE), Sym(KW_ACTION), Sym(KW_STATE)}
  }

  predicate AllowsDirection(k: Kind) { k == KW_PART || k == KW_PORT || k == KW_ITEM }

  predicate IsFlow(k: Kind) { k == KW_FLOW || k == KW_MESSAGE }

  predicate IsConnector(k: Kind) { k == KW_CONNECTION || k == KW_INTERFACE }

  /** The token that starts the two-ended clause of a kind. */
  predicate OpensEnds(k: Kind, t: Token) {
    (IsConnector(k) && t == Sym(KW_CONNECT)) || (IsFlow(k) && t == Sym(KW_FROM))
  }

  predicate IsRelationToken(t: Token) {
    t == Sym(COLON) || t == Sym(LEFT_BRACKET) || IsSuper(t) || IsRedefines(t)
  }

  /** What may follow the keyword of an anonymous usage. */
  predicate AnonymousOk(k: Kind, t: Token) {
    || IsRelationToken(t) || t == Sym(EQUAL) || t == Sym(KW_DEFAULT)
    || (k == KW_CONNECTION && t == Sym(KW_CONNECT))
    || (IsFlow(k) && (t == Sym(KW_FROM) || t == Sym(KW_OF)))
    || k == KW_OBJECTIVE || k == KW_CONSTRAINT
  }

  const WORD_SEND := "send"
  const WORD_PARALLEL := "parallel"
  const WORD_FORK := "fork"
  const WORD_JOIN := "join"

  /** A tail clause of an action or state usage that is skipped. */
  predicate StartsTail(k: Kind, t: Token) {
    (k == KW_ACTION || k == KW_STATE) && (t == Sym(KW_ACCEPT) || t == Name(WORD_SEND) || t == Name(WORD_PARALLEL))
  }

  predicate IsForkJoin(t: Token) { t == Name(WORD_FORK) || t == Name(WORD_JOIN) }

  // ---- declarations -----------------------------------------------------------------------

  /** A construct with a modelled node. */
  function Node(r: Result<Decl>): (n: Result<Option<Decl>>)
    ensures n.Ok? == r.Ok? && (n.Ok? ==> n.rest == r.rest && n.value == Some(r.value))
  {
    match r
    case Fail => Fail
    case Ok(d, rest) => Ok(Some(d), rest)
  }

  /** A construct whose node is not modelled. */
  function Unmodelled<T>(r: Result<T>): (n: Result<Option<Decl>>)
    ensures n.Ok? == r.Ok? && (n.Ok? ==> n.rest == r.rest && n.value == Some(Other))
  {
    match r
    case Fail => Fail
    case Ok(_, rest) => Ok(Some(Other), rest)
  }

  /** `docDecl`: with or without the keyword, which has no node by itself. */
  function DocRest(ts: seq<Token>): (r: Result<Option<Decl>>)
    ensures r.Ok? ==> |r.rest| < |ts|
  {
    var body := if Head(ts) == Sym(KW_DOC) then ts[1..] else ts;
    if Head(body).DocBody? then Ok(Some(Doc(body[0].text)), body[1..])
    else if Head(ts) == Sym(KW_DOC) then Ok(None, body)
    else Fail
  }

  /** `declaration`: metadata leaves no trace, and at the end of a body it stands alone. */
  function Declaration(ts: seq<Token>): (r: Result<Option<Decl>>)
    ensures r.Ok? ==> |r.rest| < |ts|
    decreases |ts|, 10
  {
    var (statement, ts1) := Metadata(false, ts);
    if statement && (ts1 == [] || ts1[0] == Sym(RIGHT_BRACE)) then Ok(None, ts1)
    else if Head(ts1).DocBody? || Head(ts1) == Sym(KW_DOC) then DocRest(ts1)
    else Prefixed(ts1)
  }

  /** A declaration with its optional prefixes. */
  function Prefixed(ts: seq<Token>): (r: Result<Option<Decl>>)
    ensures r.Ok? ==> |r.rest| < |ts|
    decreases |ts|, 9
  {
    var v := VisibilityOf(Head(ts));
    var ts1 := if v == DefaultVisibility then ts else ts[1..];
    var d := DirectionOf(Head(ts1));
    var ts2 := if d == Undirected then ts1 else ts1[1..];
    var (m, ts3) := ModifiersOf(ts2);
    Body(v, d, m, ts3)
  }

  /** What follows the optional prefixes. */
  function Body(v: Visibility, d: Direction, m: Modifiers, ts: seq<Token>): (r: Result<Option<Decl>>)
    ensures r.Ok? ==> |r.rest| < |ts|
    decreases |ts|, 8
  {
    match Head(ts)
    case Name(_) => if IsForkJoin(ts[0]) then Unmodelled(ForkJoinRest(ts[1..])) else Node(NamedBody(v, d, m, ts))
    case Sym(k) =>
      if k in PLAIN_KINDS then Node(DefinitionOrUsage(k, v, d, m, ts[1..]))
      else if k == KW_ATTRIBUTE then if d != Undirected then Fail else Node(AttributeOrDef(v, m, ts[1..]))
      else if IsModelled(k) then if d != Undirected || m != PLAIN then Fail else Node(Modelled(k, v, ts[1..]))
      else if StartsBareAttribute(Head(ts)) then if d != Undirected then Fail else Node(AttributeRest(v, m, ts))
      else if ts == [] then Fail
      else UnmodelledRest(k, v, d, m, ts[1..])
    case _ => Fail
  }

  /** The constructs whose nodes are not modelled, after their keyword. */
  function UnmodelledRest(k: Kind, v: Visibility, d: Direction, m: Modifiers, ts: seq<Token>): (r: Result<Option<Decl>>)
    ensures r.Ok? ==> |r.rest| <= |ts|
    decreases |ts|, 12
  {
    if IsPrefixless(k) then PrefixlessKind(k, v, d, m, ts)
    else if k == KW_INCLUDE then Unmodelled(TwoWordRest(k, v, d, m, ts))
    else if k == KW_VARIANT || k == KW_VARIATION then VariantRest(k, v, d, m, ts)
    else if k == KW_CONSTRAINT then Unmodelled(DefinitionOrUsage(k, v, d, m, ts))
    else Fail
  }

  /** After `variant` or `variation`: a declaration of another kind, whose prefixes are dropped, or a usage. */
  function VariantRest(k: Kind, v: Visibility, d: Direction, m: Modifiers, ts: seq<Token>): (r: Result<Option<Decl>>)
    ensures r.Ok? ==> |r.rest| < |ts|
    decreases |ts|, 11
  {
    if IsVariantKind(Head(ts)) then Declaration(ts) else Unmodelled(DefinitionOrUsage(k, v, d, m, ts))
  }

  /** What follows the keyword of such a kind. */
  function Modelled(k: Kind, v: Visibility, ts: seq<Token>): (r: Result<Decl>)
    requires IsModelled(k)
    ensures r.Ok? ==> |r.rest| < |ts|
    decreases |ts|, 7
  {
    if k == KW_PACKAGE then PackageRest(v, ts)
    else if k == KW_IMPORT then ImportRest(v, ts)
    else if k == KW_ALIAS then AliasRest(v, ts)
    else if k == KW_DEPENDENCY then DependencyRest(v, ts)
    else if k == KW_TRANSITION then TransitionRest(ts)
    else SuccessionOf(k, ts)
  }

  function Append(ms: seq<Decl>, d: Option<Decl>): seq<Decl> { if d.Some? then ms + [d.value] else ms }

  /** The members up to a closing brace. */
  function Members(ms: seq<Decl>, ts: seq<Token>): (r: Result<seq<Decl>>)
    ensures r.Ok? ==> |r.rest| < |ts|
    decreases |ts|, 11
  {
    if Head(ts) == Sym(RIGHT_BRACE) then Ok(ms, ts[1..])
    else match Declaration(ts)
      case Fail => Fail
      case Ok(d, rest) => Members(Append(ms, d), rest)
  }

  /** A body in braces, or a semicolon for an empty one. */
  function BracedOrEmpty(ts: seq<Token>): (r: Result<seq<Decl>>)
    ensures r.Ok? ==> |r.rest| < |ts|
    decreases |ts|, 1, 0
  {
    if Head(ts) == Sym(SEMICOLON) then Ok([], ts[1..])
    else if Head(ts) == Sym(LEFT_BRACE) then Members([], ts[1..])
    else Fail
  }

  function PackageRest(v: Visibility, ts: seq<Token>): (r: Result<Decl>)
    ensures r.Ok? ==> |r.rest| < |ts|
    decreases |ts|, 2
  {
    var (name, ts1) :- Identifier(ts);
    var (_, ts2) :- Expect(LEFT_BRACE, ts1);
    var (members, rest) :- Members([], ts2);
    Ok(Package(v, name, members), rest)
  }

  function ImportRest(v: Visibility, ts: seq<Token>): (r: Result<Decl>)
    ensures r.Ok? ==> |r.rest| < |ts|
    decreases |ts|, 2
  {
    var (first, ts1) :- Identifier(ts);
    var (path, ts2) :- ImportPath([first], ts1);
    var (_, rest) :- Expect(SEMICOLON, ts2);
    Ok(Import(v, path.0, path.1), rest)
  }

  function ImportPath(parts: seq<string>, ts: seq<Token>): (r: Result<(seq<string>, bool)>)
    ensures r.Ok? ==> |r.rest| <= |ts|
    decreases |ts|
  {
    if Head(ts) != Sym(COLON_COLON) then Ok((parts, false), ts)
    else if Head(ts[1..]) == Sym(STAR) || Head(ts[1..]) == Sym(STAR_STAR) then Ok((parts, true), ts[2..])
    else if Head(ts[1..]).Name? then ImportPath(parts + [ts[1].text], ts[2..])
    else Fail
  }

  function AliasRest(v: Visibility, ts: seq<Token>): (r: Result<Decl>)
    ensures r.Ok? ==> |r.rest| < |ts|
    decreases |ts|, 2
  {
    var (name, ts1) :- Identifier(ts);
    var (_, ts2) :- Expect(KW_FOR, ts1);
    var (target, ts3) :- QualifiedName(ts2);
    var (_, rest) :- Expect(SEMICOLON, ts3);
    Ok(Alias(v, name, target), rest)
  }

  function DependencyRest(v: Visibility, ts: seq<Token>): (r: Result<Decl>)
    ensures r.Ok? ==> |r.rest| < |ts|
    decreases |ts|, 2
  {
    var (name, ts1) := OptionalName(ts);
    var (_, ts2) :- Expect(KW_FROM, ts1);
    var (sources, ts3) :- NameList([], ts2);
    var (_, ts4) :- Expect(KW_TO, ts3);
    var (targets, ts5) :- NameList([], ts4);
    var (_, rest) :- Expect(SEMICOLON, ts5);
    Ok(Dependency(v, name, sources, targets), rest)
  }

  function AttributeOrDef(v: Visibility, m: Modifiers, ts: seq<Token>): (r: Result<Decl>)
    ensures r.Ok? ==> |r.rest| < |ts|
    decreases |ts|, 5
  {
    if Head(ts) == Sym(KW_DEF) then DefinitionOrUsage(KW_ATTRIBUTE, v, Undirected, m, ts) else AttributeRest(v, m, ts)
  }

  function AttributeRest(v: Visibility, m: Modifiers, ts: seq<Token>): (r: Result<Decl>)
    ensures r.Ok? ==> |r.rest| < |ts|
    decreases |ts|, 2
  {
    var (name, ts1) := OptionalName(ts);
    if name == "" && !IsRelationToken(Head(ts1)) then Fail
    else
      var (f, ts2) :- Relationships(BARE, ts1);
      var (value, ts3) :- Value(ts2, true);
      var (_, rest) :- EndOrBlock(ts3);
      Ok(Attribute(v, m, name, f, value), rest)
  }

  /** A semicolon, or a block that leaves no trace. */
  function EndOrBlock(ts: seq<Token>): (r: Result<()>)
    ensures r.Ok? ==> |r.rest| < |ts|
  {
    if Head(ts) == Sym(LEFT_BRACE) then Ok((), Closed(LEFT_BRACE, RIGHT_BRACE, ts[1..], 1)) else Expect(SEMICOLON, ts)
  }

  function DefinitionOrUsage(k: Kind, v: Visibility, d: Direction, m: Modifiers, ts: seq<Token>): (r: Result<Decl>)
    ensures r.Ok? ==> |r.rest| < |ts|
    decreases |ts|, 4
  {
    if Head(ts) == Sym(KW_DEF) then DefinitionOf(k, v, d, m, ts)
    else if d != Undirected && !AllowsDirection(k) then Fail
    else UsageRest(k, v, d, m, ts)
  }

  /** A definition, at its `def`. */
  function DefinitionOf(k: Kind, v: Visibility, d: Direction, m: Modifiers, ts: seq<Token>): (r: Result<Decl>)
    requires Head(ts) == Sym(KW_DEF)
    ensures r.Ok? ==> |r.rest| < |ts|
    decreases |ts|, 3
  {
    if k == KW_END || d != Undirected || m.isDerived || m.isConstant || m.isReference then Fail
    else DefinitionRest(k, v, m.isAbstract, ts[1..])
  }

  /** `definition`, after `def`. */
  function DefinitionRest(k: Kind, v: Visibility, isAbstract: bool, ts: seq<Token>): (r: Result<Decl>)
    ensures r.Ok? ==> |r.rest| < |ts|
    decreases |ts|, 3
  {
    var (_, ts0) :- ShortName(ts);
    var (name, ts1) :- Identifier(ts0);
    var (f, ts2) :- Relationships(BARE, ts1);
    var (members, rest) :- DefinitionBody(k, ts2);
    Ok(Definition(v, k, isAbstract, name, f.supers, f.redefines, members), rest)
  }

  function DefinitionBody(k: Kind, ts: seq<Token>): (r: Result<seq<Decl>>)
    ensures r.Ok? ==> |r.rest| < |ts|
    decreases |ts|, 2
  {
    if k == KW_ENUM && Head(ts) == Sym(LEFT_BRACE) then EnumMembers([], ts[1..])
    else if k == KW_CONSTRAINT && Head(ts) == Sym(LEFT_BRACE) then ConstraintMembers([], false, ts[1..])
    else BracedOrEmpty(ts)
  }

  /** The tokens that make a member of a constraint body a declaration. */
  predicate StartsParameter(t: Token) {
    t.DocBody? || t in {Sym(KW_IN), Sym(KW_OUT), Sym(KW_INOUT), Sym(KW_PUBLIC), Sym(KW_PRIVATE), Sym(KW_PROTECTED),
                        Sym(KW_DERIVED), Sym(KW_ABSTRACT), Sym(KW_CONSTANT), Sym(KW_REF), Sym(KW_ATTRIBUTE),
                        Sym(KW_DOC), Sym(KW_COMMENT)}
  }

  /** The parameters of a constraint up to the closing brace, and at most one expression, which has
      no place in the node. */
  function ConstraintMembers(ms: seq<Decl>, hasBody: bool, ts: seq<Token>): (r: Result<seq<Decl>>)
    ensures r.Ok? ==> |r.rest| < |ts|
    decreases |ts|, 11
  {
    if Head(ts) == Sym(RIGHT_BRACE) then Ok(ms, ts[1..])
    else if ts == [] then Fail
    else if StartsParameter(ts[0]) then
      match Declaration(ts)
      case Fail => Fail
      case Ok(d, rest) => ConstraintMembers(Append(ms, d), hasBody, rest)
    else if hasBody then Fail
    else match Expression(ts)
      case Fail => Fail
      case Ok(_, rest) => ConstraintMembers(ms, true, rest)
  }

  /** The values of an enumeration up to the closing brace. */
  function EnumMembers(ms: seq<Decl>, ts: seq<Token>): (r: Result<seq<Decl>>)
    ensures r.Ok? ==> |r.rest| < |ts|
    decreases |ts|
  {
    if Head(ts) == Sym(RIGHT_BRACE) then Ok(ms, ts[1..])
    else
      var (v, rest) :- EnumMember(ts);
      EnumMembers(ms + [v], rest)
  }

  function EnumMember(ts: seq<Token>): (r: Result<Decl>)
    ensures r.Ok? ==> |r.rest| < |ts|
  {
    var (name, ts1) :- if Head(ts) == Sym(KW_ENUM) then Ok("", ts[1..]) else Identifier(ts);
    var (value, ts2) :- Value(ts1, false);
    var (_, rest) :- Expect(SEMICOLON, ts2);
    Ok(EnumValue(name, value), rest)
  }

  /** `usage`, for the plain kinds and `KW_REF`. */
  function UsageRest(k: Kind, v: Visibility, d: Direction, m: Modifiers, ts: seq<Token>): (r: Result<Decl>)
    ensures r.Ok? ==> |r.rest| < |ts|
    decreases |ts|, 3
  {
    var (name, ts1) :- UsageName(k, ts);
    var (f, ts2) :- Relationships(BARE, ts1);
    UsageTail(k, v, d, m, name.0, name.1, f, ts2)
  }

  /** The parts of a usage after its clauses. */
  function UsageTail(k: Kind, v: Visibility, d: Direction, m: Modifiers, name: string, source: Option<QName>, f: Features,
                     ts: seq<Token>): (r: Result<Decl>)
    ensures r.Ok? ==> |r.rest| < |ts|
    decreases |ts|, 2
  {
    var (g, ts1) :- OfClause(k, f, ts);
    var (ends, ts2) :- Ends(k, name, source, g, ts1);
    var (value, ts3) :- Value(AfterTail(k, ts2), false);
    var (members, rest) :- UsageBody(k, ts3);
    Ok(Usage(v, k, d, m, name, g, ends, value, members), rest)
  }

  /** The body of a usage; the one of a constraint is an expression, which has no place in the node. */
  function UsageBody(k: Kind, ts: seq<Token>): (r: Result<seq<Decl>>)
    ensures r.Ok? ==> |r.rest| < |ts|
    decreases |ts|, 1, 1
  {
    if k == KW_CONSTRAINT && Head(ts) == Sym(LEFT_BRACE) then
      var (_, rest) :- InlineBody(ts[1..]);
      Ok([], rest)
    else BracedOrEmpty(ts)
  }

  /** An expression and a closing brace. */
  function InlineBody(ts: seq<Token>): (r: Result<()>)
    ensures r.Ok? ==> |r.rest| < |ts|
  {
    var (_, ts1) :- Expression(ts);
    Expect(RIGHT_BRACE, ts1)
  }

  /** The tail clauses of actions and states leave no trace. */
  function AfterTail(k: Kind, ts: seq<Token>): (r: seq<Token>)
    ensures |r| <= |ts|
  {
    if StartsTail(k, Head(ts)) then From({SEMICOLON, LEFT_BRACE}, ts[1..]) else ts
  }

  /** The item of a flow or message becomes a type of it. */
  function OfClause(k: Kind, f: Features, ts: seq<Token>): (r: Result<Features>)
    ensures r.Ok? ==> |r.rest| <= |ts|
  {
    if !IsFlow(k) || Head(ts) != Sym(KW_OF) then Ok(f, ts)
    else if k == KW_MESSAGE && Head(ts[1..]).Name? && Head(ts[2..]) != Sym(COLON) then
      var (q, rest) :- PartsBy(COLON_COLON, QName(false, [ts[1].text]), ts[2..]);
      Ok(f.(types := f.types + [q]), rest)
    else
      var (types, rest) :- NameList(f.types, if k == KW_MESSAGE && Head(ts[1..]).Name? then ts[3..] else ts[1..]);
      Ok(f.(types := types), rest)
  }

  /** The name of a usage; for a flow it may turn out to be its source. */
  function UsageName(k: Kind, ts: seq<Token>): (r: Result<(string, Option<QName>)>)
    ensures r.Ok? ==> |r.rest| <= |ts|
  {
    var (_, ts1) :- ShortName(Metadata(false, ts).1);
    if Head(ts1).Name? then
      if IsFlow(k) && (Head(ts1[1..]) == Sym(PERIOD) || Head(ts1[1..]) == Sym(KW_TO)) then
        var (q, rest) :- PartsBy(PERIOD, QName(false, [ts1[0].text]), ts1[1..]);
        Ok(("", Some(q)), rest)
      else Ok((ts1[0].text, None), ts1[1..])
    else if AnonymousOk(k, Head(ts1)) then Ok(("", None), ts1)
    else Fail
  }

  /** `a to b`. */
  function TwoEnds(ts: seq<Token>): (r: Result<seq<QName>>)
    ensures r.Ok? ==> |r.rest| < |ts|
  {
    var (a, ts1) :- Reference(ts);
    var (_, ts2) :- Expect(KW_TO, ts1);
    var (b, rest) :- Reference(ts2);
    Ok([a, b], rest)
  }

  /** An optional `to b` after the source `q`. */
  function ToEnd(q: QName, ts: seq<Token>): (r: Result<seq<QName>>)
    ensures r.Ok? ==> |r.rest| <= |ts|
  {
    if Head(ts) != Sym(KW_TO) then Ok([q], ts)
    else
      var (b, rest) :- Reference(ts[1..]);
      Ok([q, b], rest)
  }

  /** The ends of a connector, flow or allocation. */
  function Ends(k: Kind, name: string, source: Option<QName>, f: Features, ts: seq<Token>): (r: Result<seq<QName>>)
    ensures r.Ok? ==> |r.rest| <= |ts|
  {
    if source.Some? then ToEnd(source.value, ts)
    else if OpensEnds(k, Head(ts)) || (k == KW_ALLOCATION && Head(ts) == Sym(KW_ALLOCATE)) then TwoEnds(ts[1..])
    else if k == KW_FLOW && name == "" && f.types == [] && (Head(ts).Name? || Head(ts) == Sym(LEFT_BRACKET)) then
      var (a, rest) :- Reference(ts);
      ToEnd(a, rest)
    else Ok([], ts)
  }

  /** A usage that begins with its name: after `ref` or a direction, or before a clause; the other
      modifiers are then dropped. */
  function NamedBody(v: Visibility, d: Direction, m: Modifiers, ts: seq<Token>): (r: Result<Decl>)
    ensures r.Ok? ==> |r.rest| < |ts|
    decreases |ts|, 4
  {
    if m.isReference || d != Undirected then UsageRest(KW_REF, v, d, m, ts)
    else
      var (name, ts1) :- Identifier(ts);
      if !AnonymousOk(KW_REF, Head(ts1)) then Fail else BareRest(v, name, ts1)
  }

  /** The clauses of a feature that is declared by its name alone. */
  function BareRest(v: Visibility, name: string, ts: seq<Token>): (r: Result<Decl>)
    ensures r.Ok? ==> |r.rest| < |ts|
    decreases |ts|, 2
  {
    var (f, ts1) :- Relationships(BARE, ts);
    var (value, ts2) :- Value(ts1, true);
    var (members, rest) :- BracedOrEmpty(ts2);
    Ok(Usage(v, KW_REF, Undirected, PLAIN, name, f, [], value, members), rest)
  }

  // ---- successions and transitions ---------------------------------------------------------

  /** `parseActionRef`. */
  function ActionRef(ts: seq<Token>): (r: Result<QName>)
    ensures r.Ok? ==> |r.rest| < |ts|
  {
    if Head(ts) == Sym(KW_START) then Ok(QName(false, ["start"]), ts[1..])
    else if Head(ts) == Sym(KW_DONE) then Ok(QName(false, ["done"]), ts[1..])
    else Reference(ts)
  }

  /** An optional `: T, U` clause. */
  function OptionalTypes(ts: seq<Token>): (r: Result<seq<QName>>)
    ensures r.Ok? ==> |r.rest| <= |ts|
  {
    if Head(ts) == Sym(COLON) then NameList([], ts[1..]) else Ok([], ts)
  }

  /** `parseThenTarget`. */
  function ThenTarget(ts: seq<Token>): (r: Result<Decl>)
    ensures r.Ok? ==> |r.rest| < |ts|
    decreases |ts|, 2
  {
    if Head(ts) == Sym(KW_ACTION) then InlineRest(ts[1..])
    else if IsForkJoin(Head(ts)) then
      if Head(ts[1..]).Name? then Ok(InlineAction(ts[1].text, [], []), ts[2..])
      else Ok(Link(QName(false, [ts[0].text])), ts[1..])
    else
      var (q, rest) :- ActionRef(ts);
      Ok(Link(q), rest)
  }

  /** An inline action, after its keyword. */
  function InlineRest(ts: seq<Token>): (r: Result<Decl>)
    ensures r.Ok? ==> |r.rest| <= |ts|
    decreases |ts|, 2
  {
    var (name, ts1) := OptionalName(ts);
    var (types, ts2) :- OptionalTypes(ts1);
    var (members, rest) :- OptionalBody(ts2);
    Ok(InlineAction(name, types, members), rest)
  }

  function OptionalBody(ts: seq<Token>): (r: Result<seq<Decl>>)
    ensures r.Ok? ==> |r.rest| <= |ts|
    decreases |ts|, 1
  {
    if Head(ts) == Sym(LEFT_BRACE) then Members([], ts[1..]) else Ok([], ts)
  }

  function InlineAction(name: string, types: seq<QName>, members: seq<Decl>): Decl {
    Usage(DefaultVisibility, KW_ACTION, Undirected, PLAIN, name, BARE.(types := types), [], None, members)
  }

  /** The targets after each further `then`. */
  function MoreTargets(steps: seq<Decl>, ts: seq<Token>): (r: Result<seq<Decl>>)
    ensures r.Ok? ==> |r.rest| <= |ts|
    decreases |ts|, 3
  {
    if Head(ts) != Sym(KW_THEN) then Ok(steps, ts)
    else match ThenTarget(ts[1..])
      case Fail => Fail
      case Ok(t, rest) => MoreTargets(steps + [t], rest)
  }

  /** `parseSuccessionStmt`, after its leading keyword `kw`. */
  function SuccessionOf(kw: Kind, ts: seq<Token>): (r: Result<Decl>)
    ensures r.Ok? ==> |r.rest| < |ts|
    decreases |ts|, 5
  {
    var (head, ts1) :- if kw == KW_THEN then Ok(("", None), ts) else SuccessionHead(kw, ts);
    var (steps, ts2) :- Steps(kw, ts1);
    var (_, rest) :- Expect(SEMICOLON, ts2);
    Ok(Succession(head.0, head.1, steps), rest)
  }

  function SuccessionHead(kw: Kind, ts: seq<Token>): (r: Result<(string, Option<QName>)>)
    ensures r.Ok? ==> |r.rest| <= |ts|
  {
    if kw == KW_SUCCESSION then
      var (name, ts1) := OptionalName(ts);
      var (first, rest) :- OptionalRef(KW_FIRST, ts1);
      Ok((name, first), rest)
    else
      var (first, rest) :- ActionRef(ts);
      Ok(("", Some(first)), rest)
  }

  /** The targets: `then` is required first after `succession`, optional after `first`, and
      already consumed for a bare `then`. */
  function Steps(kw: Kind, ts: seq<Token>): (r: Result<seq<Decl>>)
    ensures r.Ok? ==> |r.rest| <= |ts|
    decreases |ts|, 4
  {
    if kw == KW_FIRST then MoreTargets([], ts)
    else if kw == KW_SUCCESSION && Head(ts) != Sym(KW_THEN) then Fail
    else
      var (step, ts1) :- ThenTarget(if kw == KW_SUCCESSION then ts[1..] else ts);
      MoreTargets([step], ts1)
  }

  /** An action reference after `k`, if `k` is there. */
  function OptionalRef(k: Kind, ts: seq<Token>): (r: Result<Option<QName>>)
    requires k != EOF
    ensures r.Ok? ==> |r.rest| <= |ts|
  {
    if Head(ts) != Sym(k) then Ok(None, ts)
    else
      var (q, rest) :- ActionRef(ts[1..]);
      Ok(Some(q), rest)
  }

  /** A qualified name after `k`, if `k` is there. */
  function OptionalQName(k: Kind, ts: seq<Token>): (r: Result<Option<QName>>)
    requires k != EOF
    ensures r.Ok? ==> |r.rest| <= |ts|
  {
    if Head(ts) != Sym(k) then Ok(None, ts)
    else
      var (q, rest) :- QualifiedName(ts[1..]);
      Ok(Some(q), rest)
  }

  const WORD_AT := "at"
  const WORD_WHEN := "when"
  const WORD_VIA := "via"

  /** `parseTransitionStmt`: a name directly before `then` is the source state. */
  function TransitionRest(ts: seq<Token>): (r: Result<Decl>)
    ensures r.Ok? ==> |r.rest| < |ts|
    decreases |ts|, 4
  {
    var (name, ts1) := OptionalName(ts);
    var isFirst := Head(ts).Name? && Head(ts1) == Sym(KW_THEN);
    var (first, ts2) :- OptionalQName(KW_FIRST, ts1);
    var (accept_, ts3) :- Accept(ts2);
    var (guard, ts4) :- Guard(ts3);
    var (effect, ts5) :- Effect(ts4);
    var (target, rest) :- TransitionEnd(ts5);
    Ok(if isFirst then Transition("", Some(QName(false, [name])), accept_, guard, effect, target)
       else Transition(name, first, accept_, guard, effect, target), rest)
  }

  function TransitionEnd(ts: seq<Token>): (r: Result<QName>)
    ensures r.Ok? ==> |r.rest| < |ts|
  {
    var (_, ts1) :- Expect(KW_THEN, ts);
    var (target, ts2) :- QualifiedName(ts1);
    var (_, rest) :- Expect(SEMICOLON, ts2);
    Ok(target, rest)
  }

  /** The effect: `send` is skipped. */
  function Effect(ts: seq<Token>): (r: Result<Option<QName>>)
    ensures r.Ok? ==> |r.rest| <= |ts|
  {
    if Head(ts) == Sym(KW_DO) && Head(ts[1..]) == Name(WORD_SEND) then Ok(None, From({KW_THEN, SEMICOLON}, ts[1..]))
    else OptionalQName(KW_DO, ts)
  }

  const CONTINUATIONS: set<Kind> := {KW_IF, KW_DO, KW_THEN, SEMICOLON}

  /** The trigger: `at`, `when` and unknown forms are skipped, and so are the type and the port of
      the accepted event. */
  function Accept(ts: seq<Token>): (r: Result<Option<QName>>)
    ensures r.Ok? ==> |r.rest| <= |ts|
  {
    if Head(ts) != Sym(KW_ACCEPT) then Ok(None, ts)
    else if SkipsTrigger(Head(ts[1..])) then Ok(None, From(CONTINUATIONS, ts[1..]))
    else
      var (q, ts1) :- QualifiedName(ts[1..]);
      var (_, ts2) :- OptionalQName(COLON, ts1);
      var (_, rest) :- PortOf(ts2);
      Ok(Some(q), rest)
  }

  predicate SkipsTrigger(t: Token) {
    t == Name(WORD_AT) || t == Name(WORD_WHEN) || !(t.Name? || t == Sym(KW_START) || t == Sym(KW_DONE))
  }

  function PortOf(ts: seq<Token>): (r: Result<Option<QName>>)
    ensures r.Ok? ==> |r.rest| <= |ts|
  {
    if Head(ts) != Name(WORD_VIA) then Ok(None, ts)
    else
      var (q, rest) :- QualifiedName(ts[1..]);
      Ok(Some(q), rest)
  }

  function Guard(ts: seq<Token>): (r: Result<Option<Expr>>)
    ensures r.Ok? ==> |r.rest| <= |ts|
  {
    if Head(ts) != Sym(KW_IF) then Ok(None, ts)
    else
      var (e, rest) :- Expression(ts[1..]);
      Ok(Some(e), rest)
  }

  // ---- statements without a modelled node --------------------------------------------------

  /** After the first word of a `fork` or `join`. */
  function ForkJoinRest(ts: seq<Token>): (r: Result<()>)
    ensures r.Ok? ==> |r.rest| < |ts|
  {
    Expect(SEMICOLON, OptionalName(ts).1)
  }

  function PrefixlessKind(k: Kind, v: Visibility, d: Direction, m: Modifiers, ts: seq<Token>): (r: Result<Option<Decl>>)
    ensures r.Ok? ==> |r.rest| <= |ts|
    decreases |ts|, 8
  {
    if d != Undirected || m != PLAIN || (k == KW_COMMENT && v != DefaultVisibility) then Fail else PrefixlessRest(k, v, ts)
  }

  /** After a prefixless keyword; a `filter` has no node at all. */
  function PrefixlessRest(k: Kind, v: Visibility, ts: seq<Token>): (r: Result<Option<Decl>>)
    ensures r.Ok? ==> |r.rest| <= |ts|
    decreases |ts|, 7
  {
    if k == KW_CALC then Unmodelled(DefinitionOrUsage(k, v, Undirected, PLAIN, ts))
    else if k == KW_EVENT then Unmodelled(EventRest(v, ts))
    else if k == KW_USE || k == KW_EXHIBIT then Unmodelled(TwoWordRest(k, v, Undirected, PLAIN, ts))
    else if k == KW_PERFORM then Unmodelled(PerformRest(ts))
    else if k == KW_FILTER then Ok(None, Drop(SEMICOLON, From({SEMICOLON}, ts)))
    else Unmodelled(SimpleRest(k, ts))
  }

  function EventRest(v: Visibility, ts: seq<Token>): (r: Result<()>)
    ensures r.Ok? ==> |r.rest| <= |ts|
    decreases |ts|, 5
  {
    if Head(ts) == Sym(KW_OCCURRENCE) then
      var (_, rest) :- DefinitionOrUsage(KW_OCCURRENCE, v, Undirected, PLAIN, ts[1..]);
      Ok((), rest)
    else
      var (_, ts1) :- Reference(ts);
      Expect(SEMICOLON, ts1)
  }

  const WORD_CASE := "case"
  const WORD_BY := "by"

  /** `ts` without its first token when that is the name `w`. */
  function DropWord(w: string, ts: seq<Token>): (r: seq<Token>)
    ensures |r| <= |ts|
  {
    if Head(ts) == Name(w) then ts[1..] else ts
  }

  /** `include [use case]`, `use case` and `exhibit state`, after their first keyword. */
  function TwoWordRest(k: Kind, v: Visibility, d: Direction, m: Modifiers, ts: seq<Token>): (r: Result<Decl>)
    ensures r.Ok? ==> |r.rest| <= |ts|
    decreases |ts|, 5
  {
    var (_, ts1) :- SecondWord(k, ts);
    DefinitionOrUsage(if k == KW_EXHIBIT then KW_STATE else k, v, d, m, ts1)
  }

  /** The second word: required after `exhibit` and `use`, optional after `include`. */
  function SecondWord(k: Kind, ts: seq<Token>): (r: Result<()>)
    ensures r.Ok? ==> |r.rest| <= |ts|
  {
    if k == KW_EXHIBIT then Expect(KW_STATE, ts)
    else if k == KW_USE then if Head(ts) == Name(WORD_CASE) then Ok((), ts[1..]) else Fail
    else Ok((), if Head(ts) == Sym(KW_USE) then DropWord(WORD_CASE, ts[1..]) else ts)
  }

  /** `perform`: a name or a path, clauses and a body. */
  function PerformRest(ts: seq<Token>): (r: Result<seq<Decl>>)
    ensures r.Ok? ==> |r.rest| <= |ts|
    decreases |ts|, 5
  {
    var ts1 := Drop(KW_ACTION, ts);
    var (_, ts2) :- if Head(ts1).Name? then MoreParts(QName(false, [ts1[0].text]), ts1[1..]) else Ok(QName(false, []), ts1);
    var (_, ts3) :- OptionalTypes(ts2);
    var (_, ts4) :- Relationships(BARE, ts3);
    BracedOrEmpty(ts4)
  }

  /** The statements without members. */
  function SimpleRest(k: Kind, ts: seq<Token>): (r: Result<()>)
    ensures r.Ok? ==> |r.rest| <= |ts|
  {
    if k == KW_COMMENT then CommentRest(ts)
    else if k == KW_SATISFY then SatisfyRest(ts)
    else if k == KW_ENTRY || k == KW_EXIT || k == KW_DO then LifecycleRest(ts)
    else if k == KW_RETURN then ReturnRest(ts)
    else if k == KW_ASSERT || k == KW_ASSUME || k == KW_REQUIRE then AssertionRest(k == KW_ASSUME, ts)
    else if k == KW_SUBJECT then SubjectRest(ts)
    else if k == KW_CONNECT || k == KW_ALLOCATE then ConnectRest(k == KW_ALLOCATE, ts)
    else if k == KW_BIND then BindRest(ts)
    else Fail
  }

  /** `comment`: its body is not among the tokens. */
  function CommentRest(ts: seq<Token>): (r: Result<()>)
    ensures r.Ok? ==> |r.rest| <= |ts|
  {
    var ts1 := OptionalName(ts).1;
    if Head(ts1) != Sym(KW_ABOUT) then Ok((), ts1)
    else
      var (_, rest) :- NameList([], ts1[1..]);
      Ok((), rest)
  }

  function SatisfyRest(ts: seq<Token>): (r: Result<()>)
    ensures r.Ok? ==> |r.rest| <= |ts|
  {
    var (q, ts1) :- Reference(ts);
    var (_, ts2) :- if Head(ts1) == Name(WORD_BY) then Reference(ts1[1..]) else Ok(q, ts1);
    EndOrBlock(ts2)
  }

  /** `entry`, `exit` and `do`; a semicolon may follow a block. */
  function LifecycleRest(ts: seq<Token>): (r: Result<()>)
    ensures r.Ok? ==> |r.rest| <= |ts|
  {
    var (_, ts1) :- Reference(Drop(KW_ACTION, ts));
    LifecycleEnd(ts1)
  }

  function LifecycleEnd(ts: seq<Token>): (r: Result<()>)
    ensures r.Ok? ==> |r.rest| <= |ts|
  {
    if Head(ts) == Sym(LEFT_BRACE) then Ok((), Drop(SEMICOLON, Closed(LEFT_BRACE, RIGHT_BRACE, ts[1..], 1)))
    else Expect(SEMICOLON, ts)
  }

  /** The feature keyword that may follow `return`. */
  predicate StartsReturn(t: Token) {
    t in {Sym(KW_ATTRIBUTE), Sym(KW_PART), Sym(KW_ITEM), Sym(KW_PORT), Sym(KW_REF)}
  }

  function ReturnRest(ts: seq<Token>): (r: Result<()>)
    ensures r.Ok? ==> |r.rest| <= |ts|
  {
    var ts1 := OptionalName(if StartsReturn(Head(ts)) then ts[1..] else ts).1;
    var (_, ts2) :- OptionalTypes(ts1);
    var (_, ts3) :- ReturnSupers(ts2);
    var (_, ts4) :- Value(ts3, false);
    Expect(SEMICOLON, ts4)
  }

  /** The optional clauses of a `return`, the specializations before the redefinitions. */
  function ReturnSupers(ts: seq<Token>): (r: Result<seq<QName>>)
    ensures r.Ok? ==> |r.rest| <= |ts|
  {
    var (qs, ts1) :-
      if Head(ts) == Sym(COLON_GREATER) || Head(ts) == Sym(KW_SPECIALIZES) then NameList([], ts[1..]) else Ok([], ts);
    if IsRedefines(Head(ts1)) then NameList(qs, ts1[1..]) else Ok(qs, ts1)
  }

  /** After `assert`, `assume` or `require`. */
  function AssertionRest(isAssume: bool, ts: seq<Token>): (r: Result<()>)
    ensures r.Ok? ==> |r.rest| <= |ts|
  {
    var isReq := Head(ts) == Sym(KW_REQUIREMENT);
    if (!isReq && Head(ts) != Sym(KW_CONSTRAINT)) || (isAssume && isReq) then Fail
    else AssertedRest(isReq, ts[1..])
  }

  function AssertedRest(isReq: bool, ts: seq<Token>): (r: Result<()>)
    ensures r.Ok? ==> |r.rest| <= |ts|
  {
    if Head(ts) == Sym(LEFT_BRACE) then AssertedBody(isReq, ts)
    else
      var (_, ts1) :- OptionalTypes(OptionalName(ts).1);
      if Head(ts1) == Sym(LEFT_BRACE) then AssertedBody(isReq, ts1) else Expect(SEMICOLON, ts1)
  }

  /** The body in braces of a constraint; a requirement has none. */
  function AssertedBody(isReq: bool, ts: seq<Token>): (r: Result<()>)
    requires Head(ts) == Sym(LEFT_BRACE)
    ensures r.Ok? ==> |r.rest| <= |ts|
  {
    if isReq then Fail else InlineBody(ts[1..])
  }

  function SubjectRest(ts: seq<Token>): (r: Result<()>)
    ensures r.Ok? ==> |r.rest| <= |ts|
  {
    var (_, ts1) :- Identifier(ts);
    var (_, ts2) :- OptionalTypes(ts1);
    Expect(SEMICOLON, ts2)
  }

  /** `connect` and, with a block, `allocate`. */
  function ConnectRest(mayHaveBody: bool, ts: seq<Token>): (r: Result<()>)
    ensures r.Ok? ==> |r.rest| <= |ts|
  {
    var (_, ts1) :- TwoEnds(ts);
    if mayHaveBody then EndOrBlock(ts1) else Expect(SEMICOLON, ts1)
  }

  function BindRest(ts: seq<Token>): (r: Result<()>)
    ensures r.Ok? ==> |r.rest| <= |ts|
  {
    var (_, ts1) :- Reference(ts);
    var (_, ts2) :- Expect(EQUAL, ts1);
    var (_, ts3) :- Reference(ts2);
    Expect(SEMICOLON, ts3)
  }

  // ---- programs -------------------------------------------------------------------------------

  /** `parse`: a whole program. */
  function ProgramOf(ds: seq<Decl>, ts: seq<Token>): (r: Result<seq<Decl>>)
    decreases |ts|
  {
    if ts == [] then Ok(ds, [])
    else match Declaration(ts)
      case Fail => Fail
      case Ok(d, rest) => ProgramOf(Append(ds, d), rest)
  }
}
