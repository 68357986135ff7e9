/** Reading the tokens of a printed declaration gives the declaration back. */
module DeclReading {
  import opened Basics
  import opened Tokens
  import opened Syntax
  import opened Outline
  import opened Pratt
  import opened Printing
  import opened Rereading
  import opened DeclGrammar
  import opened DeclSpelling

  /** The token does not continue a name. */
  predicate EndsPath(t: Token) {
    t != Sym(COLON_COLON) && t != Sym(PERIOD)
  }

  /** Nor does it continue a list of names. */
  predicate EndsName(t: Token) {
    EndsPath(t) && t != Sym(COMMA)
  }

  /** Nor does it start a clause. */
  predicate EndsClauses(t: Token) {
    EndsName(t) && !IsRelationToken(t) && t != Sym(KW_NONUNIQUE) && t != Sym(KW_ORDERED)
  }

  // ---- names ----------------------------------------------------------------------------

  lemma {:induction false} ReadParts(q: QName, parts: seq<string>, rest: seq<Token>)
    requires EndsPath(Head(rest))
    ensures MoreParts(q, PartsToks(parts, rest)) == Ok(q.(parts := q.parts + parts), rest)
    decreases |parts|
  {
    if parts == [] {
      assert q.parts + parts == q.parts;
    } else {
      var ts := PartsToks(parts, rest);
      var next := q.(parts := q.parts + [parts[0]]);
      assert ts[2..] == PartsToks(parts[1..], rest);
      ReadParts(next, parts[1..], rest);
      assert next.parts + parts[1..] == q.parts + parts;
    }
  }

  lemma ReadQName(q: QName, rest: seq<Token>)
    requires q.parts != [] && EndsPath(Head(rest))
    ensures QualifiedName(QNameToks(q, rest)) == Ok(q, rest)
  {
    hide MoreParts, PartsToks;
    ReadParts(QName(q.conjugated, [q.parts[0]]), q.parts[1..], rest);
    assert [q.parts[0]] + q.parts[1..] == q.parts;
    var path := [Name(q.parts[0])] + PartsToks(q.parts[1..], rest);
    assert path[1..] == PartsToks(q.parts[1..], rest);
    if q.conjugated { assert ([Sym(TILDE)] + path)[1..] == path; }
  }

  lemma ReadReference(q: QName, rest: seq<Token>)
    requires q.parts != [] && !q.conjugated && EndsPath(Head(rest)) && !StartsRefinement(Head(rest))
    ensures Reference(QNameToks(q, rest)) == Ok(q, rest)
  {
    hide MoreParts, PartsToks;
    ReadParts(QName(false, [q.parts[0]]), q.parts[1..], rest);
    assert [q.parts[0]] + q.parts[1..] == q.parts;
    assert ([Name(q.parts[0])] + PartsToks(q.parts[1..], rest))[1..] == PartsToks(q.parts[1..], rest);
  }

  predicate Nonempty(qs: seq<QName>) {
    forall i | 0 <= i < |qs| :: qs[i].parts != []
  }

  lemma {:induction false} ReadNames(before: seq<QName>, qs: seq<QName>, rest: seq<Token>)
    requires qs != [] && Nonempty(qs) && EndsName(Head(rest))
    ensures NameList(before, QNamesToks(qs, rest)) == Ok(before + qs, rest)
    decreases |qs|
  {
    hide QualifiedName, QNameToks;
    if |qs| == 1 {
      ReadQName(qs[0], rest);
      assert before + [qs[0]] == before + qs;
    } else {
      var more := QNamesToks(qs[1..], rest);
      ReadQName(qs[0], [Sym(COMMA)] + more);
      assert ([Sym(COMMA)] + more)[1..] == more;
      ReadNames(before + [qs[0]], qs[1..], rest);
      assert before + [qs[0]] + qs[1..] == before + qs;
    }
  }

  // ---- numbers -----------------------------------------------------------------------------

  lemma {:induction false} DecimalDigits(n: nat)
    ensures Digits(Decimal(n)) == n && LeadingDigits(Decimal(n)) == Decimal(n)
    ensures forall i | 0 <= i < |Decimal(n)| :: IsDigit(Decimal(n)[i])
    ensures Decimal(n) != ""
  {
    if n >= 10 {
      DecimalDigits(n / 10);
      var front, last := Decimal(n / 10), [('0' as int + n % 10) as char];
      assert Decimal(n)[..|Decimal(n)| - 1] == front;
    }
    AllDigitsLead(Decimal(n));
  }

  lemma {:induction false} AllDigitsLead(w: string)
    requires forall i | 0 <= i < |w| :: IsDigit(w[i])
    ensures LeadingDigits(w) == w
  {
    if w != "" {
      AllDigitsLead(w[1..]);
      assert [w[0]] + w[1..] == w;
    }
  }

  function Power10(k: nat): nat { if k == 0 then 1 else 10 * Power10(k - 1) }

  lemma {:induction false} DecimalLength(n: nat, k: nat)
    requires k > 0 && n < Power10(k)
    ensures |Decimal(n)| <= k
    decreases k
  {
    if n >= 10 {
      assert n / 10 < Power10(k - 1);
      DecimalLength(n / 10, k - 1);
    }
  }

  lemma LongIsShort()
    ensures LONG_MAX < Power10(19)
  {
    assert Power10(5) == 100000;
    assert Power10(10) == 10000000000 by { assert Power10(8) == 100000000; }
    assert Power10(15) == 1000000000000000 by { assert Power10(13) == 10000000000000; }
    assert Power10(18) == 1000000000000000000 by { assert Power10(17) == 100000000000000000; }
  }

  /** Printing a number that fits and reading it gives the number back. */
  lemma ReadDecimal(n: nat)
    requires n <= LONG_MAX
    ensures LongOf(Decimal(n)) == n
  {
    hide Digits, LeadingDigits, Decimal;
    DecimalDigits(n);
    LongIsShort();
    DecimalLength(n, 19);
  }

  predicate FitsLong(b: Bound) { b.Count? ==> b.n <= LONG_MAX }

  predicate PrintableMultiplicity(m: Option<Multiplicity>) {
    m.Some? ==> FitsLong(m.value.lower) && (m.value.upper.Some? ==> FitsLong(m.value.upper.value))
  }

  lemma ReadBound(b: Bound, rest: seq<Token>)
    requires FitsLong(b)
    ensures BoundOf([BoundTok(b)] + rest) == Ok(b, rest)
  {
    hide LongOf;
    assert ([BoundTok(b)] + rest)[1..] == rest;
    if b.Count? { ReadDecimal(b.n); }
  }

  lemma ReadMultiplicity(m: Multiplicity, rest: seq<Token>)
    requires PrintableMultiplicity(Some(m))
    ensures MultiplicityToks(Some(m), rest)[0] == Sym(LEFT_BRACKET)
    ensures MultiplicityOf(MultiplicityToks(Some(m), rest)[1..]) == Ok(m, rest)
  {
    hide BoundOf, BoundTok;
    var end := [Sym(RIGHT_BRACKET)] + rest;
    assert end[1..] == rest;
    match m.upper
    case None =>
      ReadBound(m.lower, end);
      assert MultiplicityToks(Some(m), rest)[1..] == [BoundTok(m.lower)] + end;
    case Some(b) =>
      var upper := [BoundTok(b)] + end;
      ReadBound(m.lower, [Sym(DOT_DOT)] + upper);
      ReadBound(b, end);
      assert ([Sym(DOT_DOT)] + upper)[1..] == upper;
      assert MultiplicityToks(Some(m), rest)[1..] == [BoundTok(m.lower)] + ([Sym(DOT_DOT)] + upper);
  }

  // ---- clauses -------------------------------------------------------------------------------

  predicate PrintableFeatures(f: Features) {
    Nonempty(f.types) && Nonempty(f.supers) && Nonempty(f.redefines) && PrintableMultiplicity(f.multiplicity)
  }

  lemma ReadMultiplicityClause(f: Features, rest: seq<Token>)
    requires PrintableMultiplicity(f.multiplicity) && EndsClauses(Head(rest))
    ensures Relationships(f.(multiplicity := None), MultiplicityToks(f.multiplicity, rest)) == Ok(f, rest)
  {
    hide MultiplicityOf;
    if f.multiplicity.Some? {
      ReadMultiplicity(f.multiplicity.value, rest);
      assert SkipOrdering(rest) == rest;
    }
  }

  lemma ReadRedefines(f: Features, rest: seq<Token>)
    requires PrintableFeatures(f) && EndsClauses(Head(rest))
    ensures Relationships(f.(redefines := [], multiplicity := None),
      ClauseToks(COLON_GREATER_GREATER, f.redefines, MultiplicityToks(f.multiplicity, rest))) == Ok(f, rest)
  {
    hide NameList, QNamesToks, MultiplicityOf;
    var more := MultiplicityToks(f.multiplicity, rest);
    ReadMultiplicityClause(f, rest);
    if f.redefines != [] {
      ReadNames([], f.redefines, more);
      assert [] + f.redefines == f.redefines;
      assert ClauseToks(COLON_GREATER_GREATER, f.redefines, more)[1..] == QNamesToks(f.redefines, more);
    }
  }

  lemma ReadSupers(f: Features, rest: seq<Token>)
    requires PrintableFeatures(f) && EndsClauses(Head(rest))
    ensures Relationships(f.(supers := [], redefines := [], multiplicity := None),
      ClauseToks(COLON_GREATER, f.supers,
        ClauseToks(COLON_GREATER_GREATER, f.redefines, MultiplicityToks(f.multiplicity, rest)))) == Ok(f, rest)
  {
    hide NameList, QNamesToks, MultiplicityOf;
    var more := ClauseToks(COLON_GREATER_GREATER, f.redefines, MultiplicityToks(f.multiplicity, rest));
    ReadRedefines(f, rest);
    if f.supers != [] {
      ReadNames([], f.supers, more);
      assert [] + f.supers == f.supers;
      assert ClauseToks(COLON_GREATER, f.supers, more)[1..] == QNamesToks(f.supers, more);
    }
  }

  lemma ReadFeatures(f: Features, rest: seq<Token>)
    requires PrintableFeatures(f) && EndsClauses(Head(rest))
    ensures Relationships(BARE, FeaturesToks(f, rest)) == Ok(f, rest)
  {
    hide NameList, QNamesToks, MultiplicityOf;
    var more := ClauseToks(COLON_GREATER, f.supers,
      ClauseToks(COLON_GREATER_GREATER, f.redefines, MultiplicityToks(f.multiplicity, rest)));
    ReadSupers(f, rest);
    if f.types != [] {
      ReadNames([], f.types, more);
      assert [] + f.types == f.types;
      assert ClauseToks(COLON, f.types, more)[1..] == QNamesToks(f.types, more);
    }
  }

  // ---- what can be printed and read back ---------------------------------------------------

  predicate GoodQName(q: QName) {
    q.parts != [] && forall i | 0 <= i < |q.parts| :: PrintableName(q.parts[i])
  }

  predicate GoodQNames(qs: seq<QName>) {
    forall i | 0 <= i < |qs| :: GoodQName(qs[i])
  }

  /** A reference to an action: a plain name, or one of the built-in actions. */
  predicate GoodAction(q: QName) {
    !q.conjugated && (GoodQName(q) || q.parts == ["start"] || q.parts == ["done"])
  }

  predicate GoodFeatures(f: Features) {
    GoodQNames(f.types) && GoodQNames(f.supers) && GoodQNames(f.redefines) && PrintableMultiplicity(f.multiplicity)
  }

  predicate OptionalNameOk(w: string) { w == "" || PrintableName(w) }

  ghost predicate GoodValue(v: Option<Expr>) { v.Some? ==> Shaped(v.value) && Named(v.value) }

  predicate GoodOption(q: Option<QName>) { q.Some? ==> GoodQName(q.value) }

  /** A comment body that can stand between the printed delimiters: it does not close the
      comment itself and does not turn the opening into an empty block comment. */
  predicate GoodDoc(body: string) {
    && (body != "" ==> body[0] != '/')
    && forall i | 0 <= i < |body| - 1 :: !(body[i] == '*' && body[i + 1] == '/')
  }

  /** Declarations that stand by themselves, as opposed to enumeration values and targets. */
  predicate IsMember(d: Decl) { !d.EnumValue? && !d.Link? && !d.Other? }

  /** A usage that the parser accepts without a name. */
  predicate MayBeAnonymous(d: Decl)
    requires d.Usage?
  {
    d.features != BARE || (d.ends == [] && d.value.Some?) || d.kind == KW_OBJECTIVE
    || (d.ends != [] && (d.kind == KW_CONNECTION || IsFlow(d.kind)))
  }

  /** A usage without keyword needs `ref`, a direction, or a clause or value that shows it. */
  predicate GoodBareUsage(d: Decl)
    requires d.Usage?
  {
    && d.name != "" && !IsForkJoin(Name(d.name))
    && (d.modifiers.isReference || d.direction != Undirected
        || (d.modifiers == PLAIN && (d.features != BARE || d.value.Some?)))
  }

  /** Two ends, on a kind whose printed keyword is the one the parser expects. */
  predicate GoodEnds(k: Kind, ends: seq<QName>) {
    ends == []
    || (|ends| == 2 && (IsConnector(k) || IsFlow(k))
        && GoodQName(ends[0]) && !ends[0].conjugated && GoodQName(ends[1]) && !ends[1].conjugated)
  }

  ghost predicate GoodUsage(d: Decl)
    requires d.Usage?
  {
    && (d.kind in PLAIN_KINDS || d.kind == KW_REF)
    && (d.direction != Undirected ==> d.kind == KW_REF || AllowsDirection(d.kind))
    && OptionalNameOk(d.name) && (d.name == "" ==> MayBeAnonymous(d))
    && (d.kind == KW_REF ==> GoodBareUsage(d))
    && GoodFeatures(d.features) && GoodEnds(d.kind, d.ends) && GoodValue(d.value)
  }

  /** A word that the parser treats specially at the start of a reference. */
  predicate StartsWith(q: QName, w: string) { q.parts != [] && q.parts[0] == w }

  predicate GoodTransition(d: Decl)
    requires d.Transition?
  {
    && OptionalNameOk(d.name) && GoodOption(d.first) && GoodOption(d.accept_) && GoodOption(d.effect) && GoodQName(d.target)
    && (d.accept_.Some? ==> !d.accept_.value.conjugated && !StartsWith(d.accept_.value, WORD_AT) && !StartsWith(d.accept_.value, WORD_WHEN))
    && (d.effect.Some? ==> d.effect.value.conjugated || !StartsWith(d.effect.value, WORD_SEND))
  }

  /** Something stands between the name of a transition and its `then`. */
  predicate HasMiddle(d: Decl)
    requires d.Transition?
  {
    d.first.Some? || d.accept_.Some? || d.guard.Some? || d.effect.Some?
  }

  /** A target: a reference that is not taken for a fork or join, or an inline action. */
  predicate GoodStepHead(s: Decl) {
    match s
    case Link(q) => GoodAction(q) && (|q.parts| > 1 ==> q.parts[0] != WORD_FORK && q.parts[0] != WORD_JOIN)
    case Usage(_, _, _, _, name, f, _, _, members) =>
      OptionalNameOk(name) && GoodQNames(f.types) && s == InlineAction(name, f.types, members)
    case _ => false
  }

  /** What printing carries faithfully; without `HasMiddle` a named transition is misread. */
  ghost predicate Printable(d: Decl) {
    match d
    case Package(_, name, members) =>
      PrintableName(name) && forall i | 0 <= i < |members| :: IsMember(members[i]) && Printable(members[i])
    case Definition(_, k, _, name, supers, redefines, members) =>
      && (k in PLAIN_KINDS || k == KW_ATTRIBUTE) && k != KW_END
      && PrintableName(name) && GoodQNames(supers) && GoodQNames(redefines)
      && forall i | 0 <= i < |members| ::
           (if k == KW_ENUM then members[i].EnumValue? else IsMember(members[i])) && Printable(members[i])
    case Usage(_, _, _, _, _, _, _, _, members) =>
      GoodUsage(d) && forall i | 0 <= i < |members| :: IsMember(members[i]) && Printable(members[i])
    case Attribute(_, _, name, f, value) =>
      OptionalNameOk(name) && (name == "" ==> f != BARE) && GoodFeatures(f) && GoodValue(value)
    case EnumValue(name, value) => OptionalNameOk(name) && GoodValue(value)
    case Import(_, parts, _) => GoodQName(QName(false, parts))
    case Alias(_, name, target) => PrintableName(name) && GoodQName(target)
    case Dependency(_, name, sources, targets) =>
      OptionalNameOk(name) && sources != [] && targets != [] && GoodQNames(sources) && GoodQNames(targets)
    case Doc(body) => GoodDoc(body)
    case Link(q) => GoodAction(q)
    case Succession(name, first, steps) =>
      && OptionalNameOk(name) && (first.Some? ==> GoodAction(first.value))
      && (steps == [] ==> name == "" && first.Some?)
      && forall i | 0 <= i < |steps| :: GoodStepHead(steps[i]) && PrintableStep(steps[i])
    case Transition(name, _, _, guard, _, _) => GoodTransition(d) && GoodValue(guard) && (name == "" || HasMiddle(d))
    case Other => false
  }

  /** The members of an inline action are printable. */
  ghost predicate PrintableStep(s: Decl) {
    s.Usage? ==> forall i | 0 <= i < |s.members| :: IsMember(s.members[i]) && Printable(s.members[i])
  }

  /** What comes back: the same declaration with every expression reread. */
  function ReparsedValue(v: Option<Expr>): Option<Expr> {
    match v
    case None => None
    case Some(e) => Some(Reread(e))
  }

  function Reparsed(d: Decl): Decl {
    match d
    case Package(v, name, members) => Package(v, name, ReparsedAll(members))
    case Definition(v, k, a, name, supers, redefines, members) =>
      Definition(v, k, a, name, supers, redefines, ReparsedAll(members))
    case Usage(v, k, dir, m, name, f, ends, value, members) =>
      Usage(v, k, dir, m, name, f, ends, ReparsedValue(value), ReparsedAll(members))
    case Attribute(v, m, name, f, value) => Attribute(v, m, name, f, ReparsedValue(value))
    case EnumValue(name, value) => EnumValue(name, ReparsedValue(value))
    case Succession(name, first, steps) => Succession(name, first, ReparsedAll(steps))
    case Transition(name, first, accept_, guard, effect, target) =>
      Transition(name, first, accept_, ReparsedValue(guard), effect, target)
    case _ => d
  }

  function ReparsedAll(ds: seq<Decl>): (r: seq<Decl>)
    ensures |r| == |ds|
  {
    if ds == [] then [] else [Reparsed(ds[0])] + ReparsedAll(ds[1..])
  }

  // ---- reading the parts of a declaration --------------------------------------------------

  lemma GoodNamesNonempty(qs: seq<QName>)
    requires GoodQNames(qs)
    ensures Nonempty(qs)
  {
    forall i | 0 <= i < |qs| ensures qs[i].parts != [] {
      assert GoodQName(qs[i]);
    }
  }

  lemma GoodFeaturesPrintable(f: Features)
    requires GoodFeatures(f)
    ensures PrintableFeatures(f)
  {
    GoodNamesNonempty(f.types);
    GoodNamesNonempty(f.supers);
    GoodNamesNonempty(f.redefines);
  }

  /** Keywords and symbols that end an expression wherever they stand. */
  predicate EndsExpression(t: Token) {
    t in {Sym(SEMICOLON), Sym(LEFT_BRACE), Sym(KW_DO), Sym(KW_THEN)}
  }

  lemma ReadExpression(e: Expr, rest: seq<Token>)
    requires Shaped(e) && EndsExpression(Head(rest))
    ensures Expression(Spell(e) + rest) == Ok(Reread(e), rest)
  {
    hide Level, Spell, Shaped, Chain;
    SpellReadsBack(e, rest);
  }

  lemma ReadValue(v: Option<Expr>, rest: seq<Token>, orDefault: bool)
    requires GoodValue(v) && EndsExpression(Head(rest))
    ensures Value(ValueToks(v, rest), orDefault) == Ok(ReparsedValue(v), rest)
  {
    hide DeclGrammar.Expression, Spell, Reread;
    if v.Some? {
      ReadExpression(v.value, rest);
      assert ([Sym(EQUAL)] + (Spell(v.value) + rest))[1..] == Spell(v.value) + rest;
    }
  }

  lemma ReadGuard(v: Option<Expr>, rest: seq<Token>)
    requires GoodValue(v) && EndsExpression(Head(rest))
    ensures Guard(GuardToks(v, rest)) == Ok(ReparsedValue(v), rest)
  {
    hide DeclGrammar.Expression, Spell, Reread;
    if v.Some? {
      ReadExpression(v.value, rest);
      assert ([Sym(KW_IF)] + (Spell(v.value) + rest))[1..] == Spell(v.value) + rest;
    }
  }

  lemma ReadOptionalName(name: string, rest: seq<Token>)
    requires !Head(rest).Name?
    ensures OptionalName(NameToks(name, rest)) == (name, rest)
  {
    if name != "" { assert ([Name(name)] + rest)[1..] == rest; }
  }

  lemma ReadOptionalQName(k: Kind, q: Option<QName>, rest: seq<Token>)
    requires k != EOF && GoodOption(q) && EndsPath(Head(rest)) && Head(rest) != Sym(k)
    ensures OptionalQName(k, OptionalToks(k, q, rest)) == Ok(q, rest)
  {
    hide QualifiedName, QNameToks;
    if q.Some? {
      ReadQName(q.value, rest);
      assert ([Sym(k)] + QNameToks(q.value, rest))[1..] == QNameToks(q.value, rest);
    }
  }

  lemma ReadAction(q: QName, rest: seq<Token>)
    requires GoodAction(q) && EndsPath(Head(rest)) && !StartsRefinement(Head(rest))
    ensures ActionRef(ActionToks(q, rest)) == Ok(q, rest)
  {
    hide Reference;
    if q.parts == ["start"] || q.parts == ["done"] {
      assert ([Sym(KW_START)] + rest)[1..] == rest && ([Sym(KW_DONE)] + rest)[1..] == rest;
      assert "start"[0] != "done"[0];
    } else {
      ReadReference(q, rest);
    }
  }

  lemma ReadTwoEnds(a: QName, b: QName, rest: seq<Token>)
    requires GoodQName(a) && !a.conjugated && GoodQName(b) && !b.conjugated
    requires EndsPath(Head(rest)) && !StartsRefinement(Head(rest))
    ensures TwoEnds(QNameToks(a, [Sym(KW_TO)] + QNameToks(b, rest))) == Ok([a, b], rest)
  {
    hide Reference, QNameToks, StartsRefinement;
    var more := [Sym(KW_TO)] + QNameToks(b, rest);
    assert more[1..] == QNameToks(b, rest) && Head(more) == Sym(KW_TO);
    assert !StartsRefinement(Sym(KW_TO)) by { ToIsPlain(); }
    ReadReference(a, more);
    ReadReference(b, rest);
  }

  lemma ToIsPlain()
    ensures !StartsRefinement(Sym(KW_TO))
  {
  }

  // ---- reading whole declarations ----------------------------------------------------------

  /** The token starts neither a prefix nor a comment. */
  predicate StartsBody(t: Token) {
    && !t.DocBody? && t != Sym(KW_DOC) && !StartsMetadata(t)
    && VisibilityOf(t) == DefaultVisibility && DirectionOf(t) == Undirected
    && t != Sym(KW_DERIVED) && t != Sym(KW_ABSTRACT) && t != Sym(KW_CONSTANT) && t != Sym(KW_REF)
  }

  lemma ReadModifiers(m: Modifiers, rest: seq<Token>)
    requires StartsBody(Head(rest))
    ensures ModifiersOf(ModifiersToks(m, rest)) == (m, rest)
  {
    var ts4 := FlagToks(m.isReference, KW_REF, rest);
    var ts3 := FlagToks(m.isConstant, KW_CONSTANT, ts4);
    var ts2 := FlagToks(m.isAbstract, KW_ABSTRACT, ts3);
    assert Drop(KW_REF, ts4) == rest;
    assert Drop(KW_CONSTANT, ts3) == ts4;
    assert Drop(KW_ABSTRACT, ts2) == ts3;
    assert Drop(KW_DERIVED, ModifiersToks(m, rest)) == ts2;
  }

  lemma ModifiersHead(m: Modifiers, rest: seq<Token>)
    requires StartsBody(Head(rest))
    ensures var t := Head(ModifiersToks(m, rest));
      && !t.DocBody? && t != Sym(KW_DOC) && !StartsMetadata(t)
      && VisibilityOf(t) == DefaultVisibility && DirectionOf(t) == Undirected
  {
  }

  /** The optional prefixes are read off in their order. */
  lemma ReadPrefixes(v: Visibility, d: Direction, m: Modifiers, rest: seq<Token>)
    requires StartsBody(Head(rest))
    ensures Declaration(VisibilityToks(v, DirectionToks(d, ModifiersToks(m, rest)))) == Body(v, d, m, rest)
  {
    hide Body, ModifiersOf, ModifiersToks;
    var ts2 := ModifiersToks(m, rest);
    var ts1 := DirectionToks(d, ts2);
    ReadModifiers(m, rest);
    ModifiersHead(m, rest);
    if d != Undirected { assert ts1[1..] == ts2; }
    if v != DefaultVisibility { assert VisibilityToks(v, ts1)[1..] == ts1; }
  }

  lemma ReadPlainPrefix(v: Visibility, rest: seq<Token>)
    requires StartsBody(Head(rest))
    ensures Declaration(VisibilityToks(v, rest)) == Body(v, Undirected, PLAIN, rest)
  {
    hide Body, Declaration;
    ReadPrefixes(v, Undirected, PLAIN, rest);
  }

  /** The end of an import path, with or without its wildcard. */
  function ImportEnd(wildcard: bool, rest: seq<Token>): seq<Token> {
    if wildcard then [Sym(COLON_COLON)] + ([Sym(STAR)] + rest) else rest
  }

  lemma ReadImportEnd(parts: seq<string>, wildcard: bool, rest: seq<Token>)
    requires EndsPath(Head(rest))
    ensures ImportPath(parts, ImportEnd(wildcard, rest)) == Ok((parts, wildcard), rest)
  {
    if wildcard {
      var end := ImportEnd(true, rest);
      assert end[1..] == [Sym(STAR)] + rest && end[2..] == rest;
    }
  }

  lemma {:induction false} ReadImportPath(before: seq<string>, parts: seq<string>, wildcard: bool, rest: seq<Token>)
    requires EndsPath(Head(rest))
    ensures ImportPath(before, PartsToks(parts, ImportEnd(wildcard, rest))) == Ok((before + parts, wildcard), rest)
    decreases |parts|
  {
    hide ImportEnd;
    var end := ImportEnd(wildcard, rest);
    if parts == [] {
      ReadImportEnd(before, wildcard, rest);
      assert before + parts == before;
    } else {
      var ts := PartsToks(parts, end);
      assert ts[1..] == [Name(parts[0])] + PartsToks(parts[1..], end) && ts[2..] == PartsToks(parts[1..], end);
      ReadImportPath(before + [parts[0]], parts[1..], wildcard, rest);
      assert before + [parts[0]] + parts[1..] == before + parts;
    }
  }

  lemma Tail1(t: Token, ts: seq<Token>)
    ensures ([t] + ts)[1..] == ts && Head([t] + ts) == t
  {
  }

  lemma ReadImport(d: Decl, rest: seq<Token>)
    requires d.Import? && Printable(d)
    ensures Declaration(DeclToks(d, rest)) == Ok(Some(d), rest)
  {
    hide ImportPath, Declaration, PartsToks, EndsPath;
    var end := [Sym(SEMICOLON)] + rest;
    var tail := ImportEnd(d.wildcard, end);
    var path := PartsToks(d.parts[1..], tail);
    Tail1(Sym(SEMICOLON), rest);
    Tail1(Name(d.parts[0]), path);
    Tail1(Sym(KW_IMPORT), [Name(d.parts[0])] + path);
    assert EndsPath(Sym(SEMICOLON)) by { SemicolonEnds(); }
    ReadImportPath([d.parts[0]], d.parts[1..], d.wildcard, end);
    assert [d.parts[0]] + d.parts[1..] == d.parts;
    var ts := [Sym(KW_IMPORT)] + ([Name(d.parts[0])] + path);
    assert DeclToks(d, rest) == VisibilityToks(d.visibility, ts);
    ReadPlainPrefix(d.visibility, ts);
    assert ImportRest(d.visibility, ts[1..]) == Ok(d, rest);
    BodyOf(d.visibility, ts);
  }

  lemma SemicolonEnds()
    ensures EndsClauses(Sym(SEMICOLON)) && EndsName(Sym(SEMICOLON)) && EndsPath(Sym(SEMICOLON))
    ensures EndsClauses(Sym(LEFT_BRACE)) && EndsClauses(Sym(EQUAL))
    ensures EndsExpression(Sym(SEMICOLON)) && EndsExpression(Sym(LEFT_BRACE))
    ensures !StartsRefinement(Sym(SEMICOLON)) && !StartsRefinement(Sym(LEFT_BRACE)) && !StartsRefinement(Sym(EQUAL))
  {
  }

  /** The dispatch on the keywords that take no prefix but a visibility. */
  lemma BodyOf(v: Visibility, ts: seq<Token>)
    requires ts != []
    ensures ts[0] == Sym(KW_PACKAGE) ==> Body(v, Undirected, PLAIN, ts) == Node(PackageRest(v, ts[1..]))
    ensures ts[0] == Sym(KW_IMPORT) ==> Body(v, Undirected, PLAIN, ts) == Node(ImportRest(v, ts[1..]))
    ensures ts[0] == Sym(KW_ALIAS) ==> Body(v, Undirected, PLAIN, ts) == Node(AliasRest(v, ts[1..]))
    ensures ts[0] == Sym(KW_DEPENDENCY) ==> Body(v, Undirected, PLAIN, ts) == Node(DependencyRest(v, ts[1..]))
    ensures ts[0] == Sym(KW_TRANSITION) ==> Body(v, Undirected, PLAIN, ts) == Node(TransitionRest(ts[1..]))
    ensures ts[0] == Sym(KW_SUCCESSION) || ts[0] == Sym(KW_FIRST) || ts[0] == Sym(KW_THEN) ==>
      Body(v, Undirected, PLAIN, ts) == Node(SuccessionOf(ts[0].kind, ts[1..]))
  {
    hide PackageRest, ImportRest, AliasRest, DependencyRest, TransitionRest, SuccessionOf, AttributeOrDef, AttributeRest,
         NamedBody, DefinitionOrUsage, UnmodelledRest, StartsBareAttribute;
  }

  lemma ReadAlias(d: Decl, rest: seq<Token>)
    requires d.Alias? && Printable(d)
    ensures Declaration(DeclToks(d, rest)) == Ok(Some(d), rest)
  {
    hide Declaration, QualifiedName, QNameToks, EndsPath;
    var end := [Sym(SEMICOLON)] + rest;
    var target := QNameToks(d.target, end);
    Tail1(Sym(SEMICOLON), rest);
    Tail1(Sym(KW_FOR), target);
    Tail1(Name(d.name), [Sym(KW_FOR)] + target);
    Tail1(Sym(KW_ALIAS), [Name(d.name)] + ([Sym(KW_FOR)] + target));
    SemicolonEnds();
    ReadQName(d.target, end);
    var ts := [Sym(KW_ALIAS)] + ([Name(d.name)] + ([Sym(KW_FOR)] + target));
    ReadPlainPrefix(d.visibility, ts);
    assert AliasRest(d.visibility, ts[1..]) == Ok(d, rest);
    BodyOf(d.visibility, ts);
  }

  lemma ReadDependency(d: Decl, rest: seq<Token>)
    requires d.Dependency? && Printable(d)
    ensures Declaration(DeclToks(d, rest)) == Ok(Some(d), rest)
  {
    hide Declaration, DependencyRest, QNamesToks, NameToks, Printable;
    var end := [Sym(SEMICOLON)] + rest;
    var tail := NameToks(d.name, [Sym(KW_FROM)] + QNamesToks(d.sources, [Sym(KW_TO)] + QNamesToks(d.targets, end)));
    ReadDependencyRest(d, rest);
    Tail1(Sym(KW_DEPENDENCY), tail);
    ReadPlainPrefix(d.visibility, [Sym(KW_DEPENDENCY)] + tail);
    BodyOf(d.visibility, [Sym(KW_DEPENDENCY)] + tail);
  }

  lemma ReadDependencyRest(d: Decl, rest: seq<Token>)
    requires d.Dependency? && Printable(d)
    ensures DependencyRest(d.visibility, NameToks(d.name,
      [Sym(KW_FROM)] + QNamesToks(d.sources, [Sym(KW_TO)] + QNamesToks(d.targets, [Sym(SEMICOLON)] + rest)))) == Ok(d, rest)
  {
    hide NameList, QNamesToks, OptionalName, NameToks, EndsName, Nonempty;
    var end := [Sym(SEMICOLON)] + rest;
    var targets := QNamesToks(d.targets, end);
    var to := [Sym(KW_TO)] + targets;
    var sources := QNamesToks(d.sources, to);
    Tail1(Sym(SEMICOLON), rest);
    Tail1(Sym(KW_TO), targets);
    Tail1(Sym(KW_FROM), sources);
    SemicolonEnds();
    GoodNamesNonempty(d.sources);
    GoodNamesNonempty(d.targets);
    ReadNames([], d.targets, end);
    assert EndsName(Sym(KW_TO)) by { ToEnds(); }
    ReadNames([], d.sources, to);
    assert [] + d.sources == d.sources && [] + d.targets == d.targets;
    ReadOptionalName(d.name, [Sym(KW_FROM)] + sources);
  }

  lemma ToEnds()
    ensures EndsName(Sym(KW_TO))
  {
  }

  lemma ReadAttribute(d: Decl, rest: seq<Token>)
    requires d.Attribute? && Printable(d)
    ensures Declaration(DeclToks(d, rest)) == Ok(Some(Reparsed(d)), rest)
  {
    hide Declaration, Relationships, FeaturesToks, Value, ValueToks, OptionalName, NameToks, EndsClauses, EndsExpression,
         GoodFeatures, GoodValue, PrintableFeatures, IsRelationToken;
    var end := [Sym(SEMICOLON)] + rest;
    var value := ValueToks(d.value, end);
    var clauses := FeaturesToks(d.features, value);
    Tail1(Sym(SEMICOLON), rest);
    SemicolonEnds();
    ValueHead(d.value, end);
    ReadValue(d.value, end, true);
    GoodFeaturesPrintable(d.features);
    ReadFeatures(d.features, value);
    FeaturesHead(d.features, value);
    ReadOptionalName(d.name, clauses);
    AttributeHead(d.name, d.features, value);
    var ts := [Sym(KW_ATTRIBUTE)] + NameToks(d.name, clauses);
    Tail1(Sym(KW_ATTRIBUTE), NameToks(d.name, clauses));
    ReadPrefixes(d.visibility, Undirected, d.modifiers, ts);
    assert AttributeRest(d.visibility, d.modifiers, ts[1..]) == Ok(Reparsed(d), rest);
    BodyOfAttribute(d.visibility, d.modifiers, ts);
  }

  lemma BodyOfAttribute(v: Visibility, m: Modifiers, ts: seq<Token>)
    requires ts != [] && ts[0] == Sym(KW_ATTRIBUTE)
    ensures Body(v, Undirected, m, ts) == Node(AttributeOrDef(v, m, ts[1..]))
  {
    hide AttributeOrDef;
  }

  /** The head of a value and what follows it. */
  lemma ValueHead(v: Option<Expr>, rest: seq<Token>)
    requires EndsClauses(Head(rest)) && EndsExpression(Head(rest))
    ensures EndsClauses(Head(ValueToks(v, rest))) && !Head(ValueToks(v, rest)).Name?
    ensures Head(ValueToks(v, rest)) == if v.None? then Head(rest) else Sym(EQUAL)
  {
  }

  /** The head of the clauses and what follows them. */
  lemma FeaturesHead(f: Features, rest: seq<Token>)
    requires !Head(rest).Name?
    ensures !Head(FeaturesToks(f, rest)).Name?
    ensures f != BARE ==> IsRelationToken(Head(FeaturesToks(f, rest)))
    ensures f == BARE ==> FeaturesToks(f, rest) == rest
  {
  }

  /** After its keyword an attribute starts with its name or a clause, never with `def`. */
  lemma AttributeHead(name: string, f: Features, rest: seq<Token>)
    requires !Head(rest).Name? && (name == "" ==> f != BARE)
    ensures Head(NameToks(name, FeaturesToks(f, rest))) != Sym(KW_DEF)
  {
    hide FeaturesToks;
    FeaturesHead(f, rest);
  }

  // ---- bodies ---------------------------------------------------------------------------------

  /** No declaration starts with a closing brace or at the end of input. */
  lemma DeclarationHead(ts: seq<Token>)
    ensures ts == [] || Head(ts) == Sym(RIGHT_BRACE) ==> Declaration(ts) == Fail
  {
    hide Modelled, PrefixlessKind, TwoWordRest, VariantRest, AttributeOrDef, AttributeRest, NamedBody, DefinitionOrUsage;
    if ts == [] || Head(ts) == Sym(RIGHT_BRACE) {
      assert ModifiersOf(ts) == (PLAIN, ts);
      assert Body(DefaultVisibility, Undirected, PLAIN, ts) == Fail;
    }
  }

  /** The members of a printed body, with its closing brace. */
  lemma {:induction false} ReadMembers(before: seq<Decl>, ds: seq<Decl>, rest: seq<Token>)
    requires forall i | 0 <= i < |ds| :: IsMember(ds[i]) && Printable(ds[i])
    ensures Members(before, MembersToks(ds, [Sym(RIGHT_BRACE)] + rest)) == Ok(before + ReparsedAll(ds), rest)
    decreases ds, 2
  {
    hide Declaration, DeclToks, Printable, Reparsed;
    var end := [Sym(RIGHT_BRACE)] + rest;
    Tail1(Sym(RIGHT_BRACE), rest);
    if ds == [] {
      assert before + [] == before;
    } else {
      var more := MembersToks(ds[1..], end);
      ReadDeclaration(ds[0], more);
      DeclarationHead(DeclToks(ds[0], more));
      ReadMembers(before + [Reparsed(ds[0])], ds[1..], rest);
      assert before + [Reparsed(ds[0])] + ReparsedAll(ds[1..]) == before + ReparsedAll(ds);
    }
  }

  /** Reading a printed declaration gives it back with its expressions reread. */
  lemma {:induction false} ReadDeclaration(d: Decl, rest: seq<Token>)
    requires IsMember(d) && Printable(d)
    ensures Declaration(DeclToks(d, rest)) == Ok(Some(Reparsed(d)), rest)
    decreases d, 9
  {
    hide Declaration, DeclToks, Printable;
    match d
    case Package(_, _, _) => ReadPackage(d, rest);
    case Definition(_, _, _, _, _, _, _) => ReadDefinition(d, rest);
    case Attribute(_, _, _, _, _) => ReadAttribute(d, rest);
    case Import(_, _, _) => ReadImport(d, rest);
    case Alias(_, _, _) => ReadAlias(d, rest);
    case Dependency(_, _, _, _) => ReadDependency(d, rest);
    case Doc(_) => ReadDoc(d, rest);
    case Usage(_, _, _, _, _, _, _, _, _) => ReadUsage(d, rest);
    case Succession(_, _, _) => ReadSuccession(d, rest);
    case Transition(_, _, _, _, _, _) => ReadTransition(d, rest);
  }

  lemma ReadDoc(d: Decl, rest: seq<Token>)
    requires d.Doc?
    ensures Declaration(DeclToks(d, rest)) == Ok(Some(d), rest)
  {
    Tail1(DocBody(d.body), rest);
  }

  lemma {:induction false} ReadPackage(d: Decl, rest: seq<Token>)
    requires d.Package? && Printable(d)
    ensures Declaration(DeclToks(d, rest)) == Ok(Some(Reparsed(d)), rest)
    decreases d, 5
  {
    hide Declaration, Members, MembersToks;
    var members := MembersToks(d.members, [Sym(RIGHT_BRACE)] + rest);
    ReadMembers([], d.members, rest);
    assert [] + ReparsedAll(d.members) == ReparsedAll(d.members);
    Tail1(Sym(LEFT_BRACE), members);
    Tail1(Name(d.name), [Sym(LEFT_BRACE)] + members);
    var ts := [Sym(KW_PACKAGE)] + ([Name(d.name)] + ([Sym(LEFT_BRACE)] + members));
    Tail1(Sym(KW_PACKAGE), [Name(d.name)] + ([Sym(LEFT_BRACE)] + members));
    ReadPlainPrefix(d.visibility, ts);
    assert PackageRest(d.visibility, ts[1..]) == Ok(Reparsed(d), rest);
    BodyOf(d.visibility, ts);
  }

  lemma ReadEnumMember(v: Decl, rest: seq<Token>)
    requires v.EnumValue? && Printable(v)
    ensures EnumMember(DeclToks(v, rest)) == Ok(Reparsed(v), rest)
    ensures Head(DeclToks(v, rest)) != Sym(RIGHT_BRACE)
  {
    hide Value, ValueToks, EndsExpression, EndsClauses, GoodValue;
    var end := [Sym(SEMICOLON)] + rest;
    Tail1(Sym(SEMICOLON), rest);
    SemicolonEnds();
    ReadValue(v.value, end, false);
    Tail1(Sym(KW_ENUM), ValueToks(v.value, end));
    Tail1(Name(v.name), ValueToks(v.value, end));
  }

  lemma {:induction false} ReadEnumMembers(before: seq<Decl>, ds: seq<Decl>, rest: seq<Token>)
    requires forall i | 0 <= i < |ds| :: ds[i].EnumValue? && Printable(ds[i])
    ensures EnumMembers(before, MembersToks(ds, [Sym(RIGHT_BRACE)] + rest)) == Ok(before + ReparsedAll(ds), rest)
    decreases |ds|
  {
    hide EnumMember, DeclToks, Printable, Reparsed;
    var end := [Sym(RIGHT_BRACE)] + rest;
    Tail1(Sym(RIGHT_BRACE), rest);
    if ds == [] {
      assert before + [] == before;
    } else {
      var more := MembersToks(ds[1..], end);
      ReadEnumMember(ds[0], more);
      ReadEnumMembers(before + [Reparsed(ds[0])], ds[1..], rest);
      assert before + [Reparsed(ds[0])] + ReparsedAll(ds[1..]) == before + ReparsedAll(ds);
    }
  }

  lemma {:induction false} ReadDefinitionBody(d: Decl, rest: seq<Token>)
    requires d.Definition? && Printable(d)
    ensures DefinitionBody(d.kind, [Sym(LEFT_BRACE)] + MembersToks(d.members, [Sym(RIGHT_BRACE)] + rest))
      == Ok(ReparsedAll(d.members), rest)
    decreases d, 3
  {
    hide Members, MembersToks, EnumMembers, ConstraintMembers;
    Tail1(Sym(LEFT_BRACE), MembersToks(d.members, [Sym(RIGHT_BRACE)] + rest));
    assert [] + ReparsedAll(d.members) == ReparsedAll(d.members);
    if d.kind == KW_ENUM {
      ReadEnumMembers([], d.members, rest);
    } else {
      ReadMembers([], d.members, rest);
    }
  }

  /** A definition prints no types and no multiplicity. */
  function HeadFeatures(d: Decl): Features
    requires d.Definition?
  {
    Features([], d.supers, d.redefines, None)
  }

  lemma {:induction false} ReadDefinition(d: Decl, rest: seq<Token>)
    requires d.Definition? && Printable(d)
    ensures Declaration(DeclToks(d, rest)) == Ok(Some(Reparsed(d)), rest)
    decreases d, 5
  {
    hide Declaration, DefinitionBody, MembersToks, Relationships, EndsClauses, PrintableFeatures, GoodFeatures;
    var body := [Sym(LEFT_BRACE)] + MembersToks(d.members, [Sym(RIGHT_BRACE)] + rest);
    var f := HeadFeatures(d);
    var clauses := FeaturesToks(f, body);
    ReadDefinitionBody(d, rest);
    SemicolonEnds();
    assert GoodFeatures(f) by { HeadFeaturesGood(d); }
    GoodFeaturesPrintable(f);
    Tail1(Sym(LEFT_BRACE), MembersToks(d.members, [Sym(RIGHT_BRACE)] + rest));
    ReadFeatures(f, body);
    Tail1(Name(d.name), clauses);
    Tail1(Sym(KW_DEF), [Name(d.name)] + clauses);
    var ts := [Sym(d.kind)] + ([Sym(KW_DEF)] + ([Name(d.name)] + clauses));
    Tail1(Sym(d.kind), [Sym(KW_DEF)] + ([Name(d.name)] + clauses));
    KindStartsBody(d.kind);
    ReadPrefixes(d.visibility, Undirected, Modifiers(false, d.isAbstract, false, false), ts);
    assert DefinitionRest(d.kind, d.visibility, d.isAbstract, ts[2..]) == Ok(Reparsed(d), rest) by {
      assert ts[2..] == [Name(d.name)] + clauses;
    }
    BodyOfDefinition(d.kind, d.visibility, d.isAbstract, ts);
  }

  lemma HeadFeaturesGood(d: Decl)
    requires d.Definition? && Printable(d)
    ensures GoodFeatures(HeadFeatures(d))
  {
  }

  lemma KindStartsBody(k: Kind)
    requires k in PLAIN_KINDS || k == KW_ATTRIBUTE
    ensures StartsBody(Sym(k)) && k != KW_CONSTRAINT && k != KW_REF
  {
  }

  lemma BodyOfDefinition(k: Kind, v: Visibility, isAbstract: bool, ts: seq<Token>)
    requires |ts| > 1 && ts[0] == Sym(k) && ts[1] == Sym(KW_DEF)
    requires (k in PLAIN_KINDS || k == KW_ATTRIBUTE) && k != KW_END
    ensures Body(v, Undirected, Modifiers(false, isAbstract, false, false), ts)
      == Node(DefinitionRest(k, v, isAbstract, ts[2..]))
  {
    hide DefinitionRest, UsageRest, AttributeRest, NamedBody, PackageRest, ImportRest, AliasRest, DependencyRest,
         TransitionRest, SuccessionOf;
    KindStartsBody(k);
    assert ts[1..][1..] == ts[2..] && Head(ts[1..]) == Sym(KW_DEF);
    assert DefinitionOrUsage(k, v, Undirected, Modifiers(false, isAbstract, false, false), ts[1..])
      == DefinitionRest(k, v, isAbstract, ts[2..]);
  }

  // ---- usages ----------------------------------------------------------------------------------

  /** The printed end of a usage: its members, or a semicolon when it has none. */
  function UsageEnd(members: seq<Decl>, rest: seq<Token>): seq<Token> {
    if members == [] then [Sym(SEMICOLON)] + rest
    else [Sym(LEFT_BRACE)] + MembersToks(members, [Sym(RIGHT_BRACE)] + rest)
  }

  lemma {:induction false} ReadUsageEnd(d: Decl, rest: seq<Token>)
    requires d.Usage? && Printable(d)
    ensures BracedOrEmpty(UsageEnd(d.members, rest)) == Ok(ReparsedAll(d.members), rest)
    ensures Head(UsageEnd(d.members, rest)) == if d.members == [] then Sym(SEMICOLON) else Sym(LEFT_BRACE)
    decreases d, 1
  {
    hide Members, MembersToks;
    Tail1(Sym(SEMICOLON), rest);
    if d.members != [] {
      Tail1(Sym(LEFT_BRACE), MembersToks(d.members, [Sym(RIGHT_BRACE)] + rest));
      ReadMembers([], d.members, rest);
      assert [] + ReparsedAll(d.members) == ReparsedAll(d.members);
    }
  }

  /** The token ends a usage or starts its value. */
  predicate EndsEnds(t: Token) { t == Sym(SEMICOLON) || t == Sym(LEFT_BRACE) || t == Sym(EQUAL) }

  lemma ReadEnds(k: Kind, name: string, f: Features, ends: seq<QName>, rest: seq<Token>)
    requires GoodEnds(k, ends) && EndsEnds(Head(rest))
    ensures DeclGrammar.Ends(k, name, None, f, EndsToks(k, ends, rest)) == Ok(ends, rest)
  {
    hide TwoEnds, QNameToks;
    SemicolonEnds();
    if ends != [] {
      var more := QNameToks(ends[0], [Sym(KW_TO)] + QNameToks(ends[1], rest));
      Tail1(Sym(if IsFlow(k) then KW_FROM else KW_CONNECT), more);
      ReadTwoEnds(ends[0], ends[1], rest);
      assert ends == [ends[0], ends[1]];
    }
  }

  lemma EndsHead(k: Kind, ends: seq<QName>, rest: seq<Token>)
    requires GoodEnds(k, ends) && EndsEnds(Head(rest))
    ensures var t := Head(EndsToks(k, ends, rest));
      && (ends == [] ==> t == Head(rest)) && (ends != [] ==> OpensEnds(k, t))
      && EndsClauses(t) && !t.Name? && t != Sym(KW_OF) && t != Sym(KW_TO) && t != Sym(PERIOD)
  {
  }

  lemma {:induction false} ReadUsageTail(d: Decl, rest: seq<Token>)
    requires d.Usage? && Printable(d)
    ensures UsageTail(d.kind, d.visibility, d.direction, d.modifiers, d.name, None, d.features,
        EndsToks(d.kind, d.ends, ValueToks(d.value, UsageEnd(d.members, rest)))) == Ok(Reparsed(d), rest)
    decreases d, 2
  {
    hide DeclGrammar.Ends, EndsToks, Value, ValueToks, BracedOrEmpty, UsageEnd, GoodEnds, GoodFeatures, GoodValue, OpensEnds, EndsClauses,
         EndsExpression;
    var end := UsageEnd(d.members, rest);
    var value := ValueToks(d.value, end);
    ReadUsageEnd(d, rest);
    SemicolonEnds();
    ReadValue(d.value, end, false);
    ValueHead(d.value, end);
    ReadEnds(d.kind, d.name, d.features, d.ends, value);
    EndsHead(d.kind, d.ends, value);
  }

  /** Two printed ends are read back exactly on the kinds whose keyword the parser expects; an
      allocation prints `connect`, which no allocation is read with. */
  lemma {:induction false} EndsRoundTrip(d: Decl, rest: seq<Token>)
    requires d.Usage? && |d.ends| == 2 && Printable(d.(ends := [])) && d.kind in PLAIN_KINDS
    requires GoodQName(d.ends[0]) && !d.ends[0].conjugated && GoodQName(d.ends[1]) && !d.ends[1].conjugated
    requires d.name == "" ==> MayBeAnonymous(d)
    ensures UsageTail(d.kind, d.visibility, d.direction, d.modifiers, d.name, None, d.features,
        EndsToks(d.kind, d.ends, ValueToks(d.value, UsageEnd(d.members, rest)))) == Ok(Reparsed(d), rest)
       <==> d.kind in {KW_CONNECTION, KW_INTERFACE, KW_FLOW, KW_MESSAGE}
  {
    hide ValueToks, UsageEnd, QNameToks, GoodQName, Reparsed;
    var ts := EndsToks(d.kind, d.ends, ValueToks(d.value, UsageEnd(d.members, rest)));
    if IsConnector(d.kind) || IsFlow(d.kind) {
      EndsMakeGood(d);
      ReadUsageTail(d, rest);
    } else {
      assert Head(ts) == Sym(KW_CONNECT);
      assert BracedOrEmpty(ts) == Fail;
    }
  }

  lemma EndsMakeGood(d: Decl)
    requires d.Usage? && |d.ends| == 2 && Printable(d.(ends := [])) && d.kind in PLAIN_KINDS && GoodEnds(d.kind, d.ends)
    requires d.name == "" ==> MayBeAnonymous(d)
    ensures Printable(d)
  {
    hide GoodFeatures, GoodValue, GoodEnds, OptionalNameOk;
    assert GoodUsage(d.(ends := []));
    assert GoodUsage(d);
  }

  /** What may stand where the name of a printed usage ends. */
  predicate AfterUsageName(t: Token) {
    !t.Name? && t !in {Sym(PERIOD), Sym(KW_TO), Sym(KW_DEF), Sym(HASH), Sym(AT_SIGN), Sym(LESS)}
  }

  lemma ReadUsageName(d: Decl, rest: seq<Token>)
    requires d.Usage? && (d.name == "" ==> AnonymousOk(d.kind, Head(rest)))
    requires AfterUsageName(Head(rest))
    ensures UsageName(d.kind, NameToks(d.name, rest)) == Ok((d.name, None), rest)
  {
    Tail1(Name(d.name), rest);
  }

  /** The head of the part of a usage after its name. */
  lemma UsageClausesHead(d: Decl, rest: seq<Token>)
    requires d.Usage? && Printable(d)
    ensures var t := Head(FeaturesToks(d.features, EndsToks(d.kind, d.ends, ValueToks(d.value, UsageEnd(d.members, rest)))));
      && AfterUsageName(t)
      && (d.name == "" || (d.kind == KW_REF && !d.modifiers.isReference && d.direction == Undirected) ==> AnonymousOk(d.kind, t))
  {
    hide FeaturesToks, EndsToks, ValueToks, UsageEnd, GoodFeatures, GoodValue, EndsClauses, EndsExpression, Printable;
    UsageIsGood(d);
    var value := ValueToks(d.value, UsageEnd(d.members, rest));
    var ends := EndsToks(d.kind, d.ends, value);
    UsageEndHead(d.members, rest);
    SemicolonEnds();
    ValueHead(d.value, UsageEnd(d.members, rest));
    EndsHead(d.kind, d.ends, value);
    FeaturesHead(d.features, ends);
  }

  lemma UsageIsGood(d: Decl)
    requires d.Usage? && Printable(d)
    ensures GoodUsage(d)
  {
  }

  lemma UsageEndHead(members: seq<Decl>, rest: seq<Token>)
    ensures Head(UsageEnd(members, rest)) == if members == [] then Sym(SEMICOLON) else Sym(LEFT_BRACE)
  {
    hide MembersToks;
  }

  lemma UsageToksSplit(d: Decl, rest: seq<Token>)
    requires d.Usage?
    ensures UsageToks(d, rest) == NameToks(d.name, FeaturesToks(d.features,
      EndsToks(d.kind, d.ends, ValueToks(d.value, UsageEnd(d.members, rest)))))
  {
    hide NameToks, FeaturesToks, EndsToks, ValueToks, MembersToks;
  }

  lemma {:induction false} ReadUsageRest(d: Decl, rest: seq<Token>)
    requires d.Usage? && Printable(d)
    ensures UsageRest(d.kind, d.visibility, d.direction, d.modifiers, UsageToks(d, rest)) == Ok(Reparsed(d), rest)
    decreases d, 3
  {
    hide UsageName, NameToks, Relationships, FeaturesToks, UsageTail, EndsToks, ValueToks, UsageEnd, UsageToks,
         Printable, AfterUsageName, AnonymousOk, EndsClauses, PrintableFeatures, GoodFeatures, GoodEnds, GoodValue;
    var tail := EndsToks(d.kind, d.ends, ValueToks(d.value, UsageEnd(d.members, rest)));
    UsageIsGood(d);
    UsageToksSplit(d, rest);
    UsageClausesHead(d, rest);
    ReadUsageName(d, FeaturesToks(d.features, tail));
    GoodFeaturesPrintable(d.features);
    UsageTailHead(d, rest);
    ReadFeatures(d.features, tail);
    ReadUsageTail(d, rest);
  }

  lemma UsageTailHead(d: Decl, rest: seq<Token>)
    requires d.Usage? && GoodUsage(d)
    ensures EndsClauses(Head(EndsToks(d.kind, d.ends, ValueToks(d.value, UsageEnd(d.members, rest)))))
  {
    hide EndsToks, ValueToks, UsageEnd, GoodFeatures, GoodValue, EndsClauses, EndsExpression;
    UsageEndHead(d.members, rest);
    SemicolonEnds();
    ValueHead(d.value, UsageEnd(d.members, rest));
    EndsHead(d.kind, d.ends, ValueToks(d.value, UsageEnd(d.members, rest)));
  }

  lemma BodyOfUsage(d: Decl, ts: seq<Token>)
    requires d.Usage? && GoodUsage(d) && d.kind != KW_REF
    requires ts != [] && ts[0] == Sym(d.kind) && Head(ts[1..]) != Sym(KW_DEF)
    ensures Body(d.visibility, d.direction, d.modifiers, ts)
      == Node(UsageRest(d.kind, d.visibility, d.direction, d.modifiers, ts[1..]))
  {
    hide DefinitionRest, UsageRest, AttributeOrDef, NamedBody, PackageRest, ImportRest, AliasRest, DependencyRest,
         TransitionRest, SuccessionOf, GoodFeatures, GoodEnds, GoodValue;
    KindStartsBody(d.kind);
  }

  lemma UsageToksHead(d: Decl, rest: seq<Token>)
    requires d.Usage? && Printable(d)
    ensures Head(UsageToks(d, rest)) != Sym(KW_DEF)
    ensures d.name != "" ==> UsageToks(d, rest) != [] && Head(UsageToks(d, rest)) == Name(d.name)
  {
    hide UsageToks, FeaturesToks, EndsToks, ValueToks, UsageEnd, Printable;
    UsageToksSplit(d, rest);
    UsageClausesHead(d, rest);
  }

  lemma {:induction false} ReadUsage(d: Decl, rest: seq<Token>)
    requires d.Usage? && Printable(d)
    ensures Declaration(DeclToks(d, rest)) == Ok(Some(Reparsed(d)), rest)
    decreases d, 5
  {
    hide Declaration, UsageToks, UsageRest, Body, Printable, GoodFeatures, GoodEnds, GoodValue;
    var u := UsageToks(d, rest);
    UsageIsGood(d);
    UsageToksHead(d, rest);
    if d.kind == KW_REF {
      ReadPrefixes(d.visibility, d.direction, d.modifiers, u);
      ReadBareUsage(d, rest);
    } else {
      ReadUsageRest(d, rest);
      Tail1(Sym(d.kind), u);
      KindStartsBody(d.kind);
      ReadPrefixes(d.visibility, d.direction, d.modifiers, [Sym(d.kind)] + u);
      BodyOfUsage(d, [Sym(d.kind)] + u);
    }
  }

  /** A usage without keyword, after its prefixes. */
  lemma {:induction false} ReadBareUsage(d: Decl, rest: seq<Token>)
    requires d.Usage? && Printable(d) && d.kind == KW_REF
    ensures Body(d.visibility, d.direction, d.modifiers, UsageToks(d, rest)) == Ok(Some(Reparsed(d)), rest)
    decreases d, 4
  {
    hide UsageToks, UsageRest, BareRest, Printable, GoodFeatures, GoodEnds, GoodValue, FeaturesToks, EndsToks, ValueToks,
         UsageEnd, AnonymousOk, PackageRest, ImportRest, AliasRest, DependencyRest, TransitionRest, SuccessionOf,
         AttributeOrDef, DefinitionOrUsage;
    var u := UsageToks(d, rest);
    UsageIsGood(d);
    UsageToksHead(d, rest);
    assert Body(d.visibility, d.direction, d.modifiers, u) == Node(NamedBody(d.visibility, d.direction, d.modifiers, u));
    if d.modifiers.isReference || d.direction != Undirected {
      ReadUsageRest(d, rest);
    } else {
      UsageToksSplit(d, rest);
      UsageClausesHead(d, rest);
      Tail1(Name(d.name), FeaturesToks(d.features, EndsToks(d.kind, d.ends, ValueToks(d.value, UsageEnd(d.members, rest)))));
      ReadBareRest(d, rest);
    }
  }

  lemma {:induction false} ReadBareRest(d: Decl, rest: seq<Token>)
    requires d.Usage? && Printable(d) && d.kind == KW_REF && d.modifiers == PLAIN && d.direction == Undirected
    ensures BareRest(d.visibility, d.name,
      FeaturesToks(d.features, EndsToks(d.kind, d.ends, ValueToks(d.value, UsageEnd(d.members, rest))))) == Ok(Reparsed(d), rest)
    decreases d, 2
  {
    hide Relationships, FeaturesToks, Value, ValueToks, BracedOrEmpty, UsageEnd, GoodFeatures, GoodValue, EndsClauses,
         EndsExpression, PrintableFeatures;
    var end := UsageEnd(d.members, rest);
    var value := ValueToks(d.value, end);
    UsageIsGood(d);
    assert d.ends == [] && EndsToks(d.kind, d.ends, value) == value;
    ReadUsageEnd(d, rest);
    SemicolonEnds();
    ReadValue(d.value, end, true);
    ValueHead(d.value, end);
    GoodFeaturesPrintable(d.features);
    ReadFeatures(d.features, value);
  }

  // ---- transitions ------------------------------------------------------------------------------

  /** The tokens that may begin what follows a part of a transition. */
  predicate Continues(t: Token) {
    t == Sym(KW_FIRST) || t == Sym(KW_ACCEPT) || t == Sym(KW_IF) || t == Sym(KW_DO) || t == Sym(KW_THEN)
  }

  lemma ReadAccept(q: Option<QName>, rest: seq<Token>)
    requires GoodOption(q) && Continues(Head(rest)) && Head(rest) != Sym(KW_ACCEPT)
    requires q.Some? ==> !q.value.conjugated && !StartsWith(q.value, WORD_AT) && !StartsWith(q.value, WORD_WHEN)
    ensures Accept(OptionalToks(KW_ACCEPT, q, rest)) == Ok(q, rest)
  {
    hide QualifiedName, PartsToks;
    if q.Some? {
      ReadQName(q.value, rest);
      Tail1(Sym(KW_ACCEPT), QNameToks(q.value, rest));
    }
  }

  lemma ReadEffect(q: Option<QName>, rest: seq<Token>)
    requires GoodOption(q) && Continues(Head(rest)) && Head(rest) != Sym(KW_DO)
    requires q.Some? ==> q.value.conjugated || !StartsWith(q.value, WORD_SEND)
    ensures Effect(OptionalToks(KW_DO, q, rest)) == Ok(q, rest)
  {
    hide QualifiedName, PartsToks, OptionalQName;
    ReadOptionalQName(KW_DO, q, rest);
    if q.Some? { Tail1(Sym(KW_DO), QNameToks(q.value, rest)); }
  }

  lemma ReadTransitionEnd(target: QName, rest: seq<Token>)
    requires GoodQName(target)
    ensures TransitionEnd([Sym(KW_THEN)] + QNameToks(target, [Sym(SEMICOLON)] + rest)) == Ok(target, rest)
  {
    hide QualifiedName, QNameToks;
    var end := [Sym(SEMICOLON)] + rest;
    Tail1(Sym(SEMICOLON), rest);
    ReadQName(target, end);
    Tail1(Sym(KW_THEN), QNameToks(target, end));
  }

  /** The printed parts of a transition from its guard on. */
  function LateParts(d: Decl, rest: seq<Token>): seq<Token>
    requires d.Transition?
  {
    GuardToks(d.guard, OptionalToks(KW_DO, d.effect, [Sym(KW_THEN)] + QNameToks(d.target, [Sym(SEMICOLON)] + rest)))
  }

  function EarlyParts(d: Decl, rest: seq<Token>): seq<Token>
    requires d.Transition?
  {
    OptionalToks(KW_FIRST, d.first, OptionalToks(KW_ACCEPT, d.accept_, LateParts(d, rest)))
  }

  lemma PartsHeads(d: Decl, rest: seq<Token>)
    requires d.Transition?
    ensures Continues(Head(LateParts(d, rest))) && Head(LateParts(d, rest)) !in {Sym(KW_FIRST), Sym(KW_ACCEPT)}
    ensures var t := Head(OptionalToks(KW_ACCEPT, d.accept_, LateParts(d, rest))); Continues(t) && t != Sym(KW_FIRST)
    ensures Continues(Head(EarlyParts(d, rest)))
    ensures Head(EarlyParts(d, rest)) == Sym(KW_THEN) <==> !HasMiddle(d)
  {
    hide QNameToks, Spell;
  }

  /** What a printed transition is read as. */
  function ReadAs(d: Decl): Decl
    requires d.Transition?
  {
    if d.name != "" && !HasMiddle(d) then Transition("", Some(QName(false, [d.name])), None, None, None, d.target)
    else Reparsed(d)
  }

  lemma ReadLateParts(d: Decl, rest: seq<Token>)
    requires d.Transition? && GoodTransition(d) && GoodValue(d.guard)
    ensures var g := Guard(LateParts(d, rest));
      && g.Ok? && g.value == ReparsedValue(d.guard)
      && var e := Effect(g.rest);
      && e.Ok? && e.value == d.effect && TransitionEnd(e.rest) == Ok(d.target, rest)
  {
    hide GuardToks, OptionalToks, QNameToks, Guard, Effect, TransitionEnd, GoodQName, GoodValue;
    var end := [Sym(KW_THEN)] + QNameToks(d.target, [Sym(SEMICOLON)] + rest);
    var effect := OptionalToks(KW_DO, d.effect, end);
    Tail1(Sym(KW_THEN), QNameToks(d.target, [Sym(SEMICOLON)] + rest));
    ReadTransitionEnd(d.target, rest);
    ReadEffect(d.effect, end);
    EffectHead(d.effect, end);
    ReadGuard(d.guard, effect);
  }

  lemma EffectHead(q: Option<QName>, rest: seq<Token>)
    requires Head(rest) == Sym(KW_THEN)
    ensures EndsExpression(Head(OptionalToks(KW_DO, q, rest)))
  {
  }

  lemma ReadTransitionParts(d: Decl, rest: seq<Token>)
    requires d.Transition? && GoodTransition(d) && GoodValue(d.guard)
    ensures TransitionRest(NameToks(d.name, EarlyParts(d, rest))) == Ok(ReadAs(d), rest)
  {
    hide OptionalToks, LateParts, Guard, Effect, TransitionEnd, OptionalQName, Accept, OptionalName, NameToks, GoodQName,
         GoodValue, GoodOption;
    var late := LateParts(d, rest);
    var accept_ := OptionalToks(KW_ACCEPT, d.accept_, late);
    PartsHeads(d, rest);
    ReadOptionalName(d.name, EarlyParts(d, rest));
    NameHead(d.name, EarlyParts(d, rest));
    ReadOptionalQName(KW_FIRST, d.first, accept_);
    ReadAccept(d.accept_, late);
    ReadLateParts(d, rest);
  }

  lemma NameHead(name: string, rest: seq<Token>)
    requires !Head(rest).Name?
    ensures Head(NameToks(name, rest)).Name? <==> name != ""
  {
  }

  /** A printed transition is read back as itself exactly when it has no name or something
      stands between its name and `then`; otherwise its name is read as the source state. */
  lemma TransitionRoundTrip(d: Decl, rest: seq<Token>)
    requires d.Transition? && GoodTransition(d) && GoodValue(d.guard)
    ensures Declaration(DeclToks(d, rest)) == Ok(Some(ReadAs(d)), rest)
    ensures Declaration(DeclToks(d, rest)) == Ok(Some(Reparsed(d)), rest) <==> d.name == "" || HasMiddle(d)
  {
    hide Declaration, OptionalToks, LateParts, GuardToks, NameToks, TransitionRest, GoodTransition, GoodValue,
         QNameToks;
    var ts := [Sym(KW_TRANSITION)] + NameToks(d.name, EarlyParts(d, rest));
    LatePartsAre(d, rest);
    Tail1(Sym(KW_TRANSITION), NameToks(d.name, EarlyParts(d, rest)));
    ReadTransitionParts(d, rest);
    ReadPlainPrefix(DefaultVisibility, ts);
    BodyOf(DefaultVisibility, ts);
  }

  lemma LatePartsAre(d: Decl, rest: seq<Token>)
    requires d.Transition?
    ensures DeclToks(d, rest) == [Sym(KW_TRANSITION)] + NameToks(d.name, EarlyParts(d, rest))
  {
    hide OptionalToks, GuardToks, NameToks, QNameToks;
  }

  lemma ReadTransition(d: Decl, rest: seq<Token>)
    requires d.Transition? && Printable(d)
    ensures Declaration(DeclToks(d, rest)) == Ok(Some(Reparsed(d)), rest)
  {
    hide Declaration, DeclToks, GoodTransition, GoodValue, HasMiddle;
    TransitionRoundTrip(d, rest);
  }

  // ---- successions ---------------------------------------------------------------------------------

  /** The token ends a target of a succession. */
  predicate EndsStep(t: Token) { t == Sym(KW_THEN) || t == Sym(SEMICOLON) }

  lemma StepEnds(t: Token)
    requires EndsStep(t)
    ensures EndsPath(t) && EndsName(t) && !StartsRefinement(t) && !t.Name? && t != Sym(LEFT_BRACE) && t != Sym(COLON)
  {
  }

  lemma ReadTypes(qs: seq<QName>, rest: seq<Token>)
    requires GoodQNames(qs) && EndsName(Head(rest)) && Head(rest) != Sym(COLON)
    ensures OptionalTypes(ClauseToks(COLON, qs, rest)) == Ok(qs, rest)
  {
    hide NameList, QNamesToks;
    if qs != [] {
      GoodNamesNonempty(qs);
      ReadNames([], qs, rest);
      assert [] + qs == qs;
      Tail1(Sym(COLON), QNamesToks(qs, rest));
    }
  }

  /** The printed body of an inline action, if it has members. */
  function InlineEnd(members: seq<Decl>, rest: seq<Token>): seq<Token> {
    if members == [] then rest else [Sym(LEFT_BRACE)] + MembersToks(members, [Sym(RIGHT_BRACE)] + rest)
  }

  lemma {:induction false} ReadInlineEnd(s: Decl, rest: seq<Token>)
    requires s.Usage? && PrintableStep(s) && EndsStep(Head(rest))
    ensures OptionalBody(InlineEnd(s.members, rest)) == Ok(ReparsedAll(s.members), rest)
    decreases s, 1
  {
    hide Members, MembersToks;
    if s.members != [] {
      Tail1(Sym(LEFT_BRACE), MembersToks(s.members, [Sym(RIGHT_BRACE)] + rest));
      ReadMembers([], s.members, rest);
      assert [] + ReparsedAll(s.members) == ReparsedAll(s.members);
    }
  }

  lemma {:induction false} ReadInline(s: Decl, rest: seq<Token>)
    requires s.Usage? && GoodStepHead(s) && PrintableStep(s) && EndsStep(Head(rest))
    ensures InlineRest(NameToks(s.name, ClauseToks(COLON, s.features.types, InlineEnd(s.members, rest)))) == Ok(Reparsed(s), rest)
    decreases s, 2
  {
    hide OptionalName, NameToks, OptionalTypes, ClauseToks, OptionalBody, InlineEnd, GoodQNames;
    var end := InlineEnd(s.members, rest);
    var types := ClauseToks(COLON, s.features.types, end);
    StepEnds(Head(rest));
    InlineHeads(s, rest);
    ReadInlineEnd(s, rest);
    ReadTypes(s.features.types, end);
    ReadOptionalName(s.name, types);
  }

  lemma InlineHeads(s: Decl, rest: seq<Token>)
    requires s.Usage? && EndsStep(Head(rest))
    ensures var t := Head(InlineEnd(s.members, rest)); EndsName(t) && t != Sym(COLON) && !t.Name?
    ensures !Head(ClauseToks(COLON, s.features.types, InlineEnd(s.members, rest))).Name?
  {
    hide MembersToks;
  }

  lemma {:induction false} ReadStep(s: Decl, rest: seq<Token>)
    requires GoodStepHead(s) && PrintableStep(s) && EndsStep(Head(rest))
    ensures ThenTarget(StepToks(s, rest)) == Ok(Reparsed(s), rest)
    decreases s, 3
  {
    hide InlineRest, NameToks, ClauseToks, MembersToks;
    if s.Usage? {
      ReadInline(s, rest);
      Tail1(Sym(KW_ACTION), NameToks(s.name, ClauseToks(COLON, s.features.types, InlineEnd(s.members, rest))));
    } else {
      ReadLink(s.ref, rest);
    }
  }

  lemma ReadLink(q: QName, rest: seq<Token>)
    requires GoodStepHead(Link(q)) && EndsStep(Head(rest))
    ensures ThenTarget(ActionToks(q, rest)) == Ok(Link(q), rest)
  {
    hide ActionRef, InlineRest;
    StepEnds(Head(rest));
    ReadAction(q, rest);
    if q.parts != ["start"] && q.parts != ["done"] && IsForkJoin(Name(q.parts[0])) {
      assert q.parts == [q.parts[0]];
      Tail1(Name(q.parts[0]), rest);
    }
  }

  lemma {:induction false} ReadSteps(before: seq<Decl>, steps: seq<Decl>, rest: seq<Token>)
    requires forall i | 0 <= i < |steps| :: GoodStepHead(steps[i]) && PrintableStep(steps[i])
    requires Head(rest) == Sym(SEMICOLON)
    ensures MoreTargets(before, StepsToks(steps, rest)) == Ok(before + ReparsedAll(steps), rest)
    decreases steps, 4
  {
    hide ThenTarget, StepToks, GoodStepHead, PrintableStep, Reparsed;
    if steps == [] {
      assert before + [] == before;
    } else {
      var more := StepsToks(steps[1..], rest);
      Tail1(Sym(KW_THEN), StepToks(steps[0], more));
      StepsHead(steps[1..], rest);
      ReadStep(steps[0], more);
      ReadSteps(before + [Reparsed(steps[0])], steps[1..], rest);
      assert before + [Reparsed(steps[0])] + ReparsedAll(steps[1..]) == before + ReparsedAll(steps);
    }
  }

  lemma StepsHead(steps: seq<Decl>, rest: seq<Token>)
    ensures Head(StepsToks(steps, rest)) == if steps == [] then Head(rest) else Sym(KW_THEN)
  {
    hide StepToks;
  }

  /** At least one target, the first `then` being the current token or already consumed. */
  lemma {:induction false} ReadAllSteps(d: Decl, rest: seq<Token>)
    requires d.Succession? && Printable(d) && d.steps != [] && Head(rest) == Sym(SEMICOLON)
    ensures Steps(KW_SUCCESSION, StepsToks(d.steps, rest)) == Ok(ReparsedAll(d.steps), rest)
    ensures Head(StepsToks(d.steps, rest)) == Sym(KW_THEN)
    ensures Steps(KW_THEN, StepsToks(d.steps, rest)[1..]) == Ok(ReparsedAll(d.steps), rest)
    decreases d, 3
  {
    hide ThenTarget, StepToks, GoodStepHead, PrintableStep, Reparsed, MoreTargets;
    var steps := d.steps;
    assert forall i | 0 <= i < |steps[1..]| :: steps[1..][i] == steps[i + 1];
    var more := StepsToks(steps[1..], rest);
    Tail1(Sym(KW_THEN), StepToks(steps[0], more));
    StepsHead(steps[1..], rest);
    ReadStep(steps[0], more);
    ReadSteps([Reparsed(steps[0])], steps[1..], rest);
  }

  lemma ReadFirst(first: Option<QName>, rest: seq<Token>)
    requires (first.Some? ==> GoodAction(first.value)) && EndsStep(Head(rest))
    ensures OptionalRef(KW_FIRST, FirstToks(first, rest)) == Ok(first, rest)
  {
    hide ActionRef, ActionToks, GoodAction;
    StepEnds(Head(rest));
    if first.Some? {
      ReadAction(first.value, rest);
      Tail1(Sym(KW_FIRST), ActionToks(first.value, rest));
    }
  }

  lemma {:induction false} ReadSuccession(d: Decl, rest: seq<Token>)
    requires d.Succession? && Printable(d)
    ensures Declaration(DeclToks(d, rest)) == Ok(Some(Reparsed(d)), rest)
    decreases d, 5
  {
    hide Declaration, SuccessionOf, Steps, StepsToks, ActionToks, FirstToks, NameToks, Reparsed, GoodStepHead,
         PrintableStep, GoodAction;
    var end := [Sym(SEMICOLON)] + rest;
    if d.name == "" && d.first.Some? && d.steps == [] {
      ReadFirstOnly(d, rest);
      ReadSuccessionAt(KW_FIRST, ActionToks(d.first.value, end), Reparsed(d), rest);
    } else if d.name == "" && d.first.None? {
      var steps := StepsToks(d.steps, end);
      ReadThenOnly(d, rest);
      ReadSuccessionAt(KW_THEN, steps[1..], Reparsed(d), rest);
      assert [Sym(KW_THEN)] + steps[1..] == steps;
    } else {
      ReadFullSuccession(d, rest);
      ReadSuccessionAt(KW_SUCCESSION, NameToks(d.name, FirstToks(d.first, StepsToks(d.steps, end))), Reparsed(d), rest);
    }
  }

  lemma ReadSuccessionAt(kw: Kind, tail: seq<Token>, d: Decl, rest: seq<Token>)
    requires kw == KW_SUCCESSION || kw == KW_FIRST || kw == KW_THEN
    requires SuccessionOf(kw, tail) == Ok(d, rest)
    ensures Declaration([Sym(kw)] + tail) == Ok(Some(d), rest)
  {
    hide Declaration, SuccessionOf;
    Tail1(Sym(kw), tail);
    ReadPlainPrefix(DefaultVisibility, [Sym(kw)] + tail);
    BodyOf(DefaultVisibility, [Sym(kw)] + tail);
  }

  lemma ReadFirstOnly(d: Decl, rest: seq<Token>)
    requires d.Succession? && Printable(d) && d.name == "" && d.first.Some? && d.steps == []
    ensures SuccessionOf(KW_FIRST, ActionToks(d.first.value, [Sym(SEMICOLON)] + rest)) == Ok(Reparsed(d), rest)
  {
    hide ActionRef, ActionToks, GoodAction, ThenTarget;
    var end := [Sym(SEMICOLON)] + rest;
    Tail1(Sym(SEMICOLON), rest);
    StepEnds(Sym(SEMICOLON));
    ReadAction(d.first.value, end);
    assert MoreTargets([], end) == Ok([], end);
  }

  lemma {:induction false} ReadThenOnly(d: Decl, rest: seq<Token>)
    requires d.Succession? && Printable(d) && d.name == "" && d.first.None?
    ensures Head(StepsToks(d.steps, [Sym(SEMICOLON)] + rest)) == Sym(KW_THEN)
    ensures SuccessionOf(KW_THEN, StepsToks(d.steps, [Sym(SEMICOLON)] + rest)[1..]) == Ok(Reparsed(d), rest)
    decreases d, 4
  {
    hide Steps, StepsToks, GoodStepHead, PrintableStep;
    Tail1(Sym(SEMICOLON), rest);
    ReadAllSteps(d, [Sym(SEMICOLON)] + rest);
  }

  lemma {:induction false} ReadFullSuccession(d: Decl, rest: seq<Token>)
    requires d.Succession? && Printable(d) && d.steps != []
    ensures SuccessionOf(KW_SUCCESSION, NameToks(d.name, FirstToks(d.first, StepsToks(d.steps, [Sym(SEMICOLON)] + rest))))
      == Ok(Reparsed(d), rest)
    decreases d, 4
  {
    hide Steps, StepsToks, GoodStepHead, PrintableStep, OptionalName, NameToks, OptionalRef, FirstToks, GoodAction;
    var end := [Sym(SEMICOLON)] + rest;
    var steps := StepsToks(d.steps, end);
    Tail1(Sym(SEMICOLON), rest);
    ReadAllSteps(d, end);
    ReadFirst(d.first, steps);
    FirstHead(d.first, steps);
    ReadOptionalName(d.name, FirstToks(d.first, steps));
  }

  lemma FirstHead(first: Option<QName>, rest: seq<Token>)
    requires !Head(rest).Name?
    ensures !Head(FirstToks(first, rest)).Name?
  {
  }
}
