/** The tokens of printed declarations.  Every function takes the tokens that follow. */
module DeclSpelling {
  import opened Basics
  import opened Tokens
  import opened Syntax
  import opened Outline
  import opened Printing
  import opened DeclGrammar

  /** The `::`-separated parts after the first one. */
  function PartsToks(parts: seq<string>, rest: seq<Token>): seq<Token> {
    if parts == [] then rest else [Sym(COLON_COLON)] + ([Name(parts[0])] + PartsToks(parts[1..], rest))
  }

  function QNameToks(q: QName, rest: seq<Token>): seq<Token> {
    var path := if q.parts == [] then rest else [Name(q.parts[0])] + PartsToks(q.parts[1..], rest);
    if q.conjugated then [Sym(TILDE)] + path else path
  }

  function QNamesToks(qs: seq<QName>, rest: seq<Token>): seq<Token> {
    if qs == [] then rest
    else QNameToks(qs[0], if |qs| == 1 then rest else [Sym(COMMA)] + QNamesToks(qs[1..], rest))
  }

  function ClauseToks(k: Kind, qs: seq<QName>, rest: seq<Token>): seq<Token> {
    if qs == [] then rest else [Sym(k)] + QNamesToks(qs, rest)
  }

  function Decimal(n: nat): string {
    if n < 10 then [('0' as int + n) as char] else Decimal(n / 10) + [('0' as int + n % 10) as char]
  }

  function BoundTok(b: Bound): Token {
    match b
    case Star => Sym(STAR)
    case Count(n) => Number(Decimal(n))
  }

  function MultiplicityToks(m: Option<Multiplicity>, rest: seq<Token>): seq<Token> {
    match m
    case None => rest
    case Some(x) =>
      [Sym(LEFT_BRACKET)] + ([BoundTok(x.lower)] + match x.upper
        case None => [Sym(RIGHT_BRACKET)] + rest
        case Some(b) => [Sym(DOT_DOT)] + ([BoundTok(b)] + ([Sym(RIGHT_BRACKET)] + rest)))
  }

  function FeaturesToks(f: Features, rest: seq<Token>): seq<Token> {
    ClauseToks(COLON, f.types,
      ClauseToks(COLON_GREATER, f.supers,
        ClauseToks(COLON_GREATER_GREATER, f.redefines,
          MultiplicityToks(f.multiplicity, rest))))
  }

  function ValueToks(v: Option<Expr>, rest: seq<Token>): seq<Token> {
    match v
    case None => rest
    case Some(e) => [Sym(EQUAL)] + (Spell(e) + rest)
  }

  /** An optional name. */
  function NameToks(name: string, rest: seq<Token>): seq<Token> {
    if name == "" then rest else [Name(name)] + rest
  }

  function VisibilityToks(v: Visibility, rest: seq<Token>): seq<Token> {
    match v
    case DefaultVisibility => rest
    case Public => [Sym(KW_PUBLIC)] + rest
    case Private => [Sym(KW_PRIVATE)] + rest
    case Protected => [Sym(KW_PROTECTED)] + rest
  }

  function DirectionToks(d: Direction, rest: seq<Token>): seq<Token> {
    match d
    case Undirected => rest
    case In => [Sym(KW_IN)] + rest
    case Out => [Sym(KW_OUT)] + rest
    case InOut => [Sym(KW_INOUT)] + rest
  }

  function FlagToks(flag: bool, k: Kind, rest: seq<Token>): seq<Token> {
    if flag then [Sym(k)] + rest else rest
  }

  function ModifiersToks(m: Modifiers, rest: seq<Token>): seq<Token> {
    FlagToks(m.isDerived, KW_DERIVED,
      FlagToks(m.isAbstract, KW_ABSTRACT,
        FlagToks(m.isConstant, KW_CONSTANT,
          FlagToks(m.isReference, KW_REF, rest))))
  }

  /** `emitEnds`: flows print `from`, everything else `connect`. */
  function EndsToks(k: Kind, ends: seq<QName>, rest: seq<Token>): seq<Token> {
    if |ends| != 2 then rest
    else [Sym(if IsFlow(k) then KW_FROM else KW_CONNECT)] + QNameToks(ends[0], [Sym(KW_TO)] + QNameToks(ends[1], rest))
  }

  /** A reference to an action; the built-in ones are keywords. */
  function ActionToks(q: QName, rest: seq<Token>): seq<Token> {
    if q == QName(false, ["start"]) then [Sym(KW_START)] + rest
    else if q == QName(false, ["done"]) then [Sym(KW_DONE)] + rest
    else QNameToks(q, rest)
  }

  function OptionalToks(k: Kind, q: Option<QName>, rest: seq<Token>): seq<Token> {
    match q
    case None => rest
    case Some(x) => [Sym(k)] + QNameToks(x, rest)
  }

  /** The tokens of a printed declaration. */
  function DeclToks(d: Decl, rest: seq<Token>): seq<Token>
    decreases d, 1
  {
    match d
    case Package(v, name, members) =>
      VisibilityToks(v, [Sym(KW_PACKAGE)] + ([Name(name)] + ([Sym(LEFT_BRACE)] + MembersToks(members, [Sym(RIGHT_BRACE)] + rest))))
    case Definition(v, k, isAbstract, name, supers, redefines, members) =>
      VisibilityToks(v, FlagToks(isAbstract, KW_ABSTRACT, [Sym(k)] + ([Sym(KW_DEF)] + ([Name(name)] +
        ClauseToks(COLON_GREATER, supers, ClauseToks(COLON_GREATER_GREATER, redefines,
          [Sym(LEFT_BRACE)] + MembersToks(members, [Sym(RIGHT_BRACE)] + rest)))))))
    case Usage(v, k, dir, m, name, f, ends, value, members) =>
      VisibilityToks(v, DirectionToks(dir, ModifiersToks(m, FlagToks(k != KW_REF, k, UsageToks(d, rest)))))
    case Attribute(v, m, name, f, value) =>
      VisibilityToks(v, ModifiersToks(m, [Sym(KW_ATTRIBUTE)] + NameToks(name, FeaturesToks(f, ValueToks(value, [Sym(SEMICOLON)] + rest)))))
    case EnumValue(name, value) =>
      (if name == "" then [Sym(KW_ENUM)] else [Name(name)]) + ValueToks(value, [Sym(SEMICOLON)] + rest)
    case Import(v, parts, wildcard) =>
      VisibilityToks(v, [Sym(KW_IMPORT)] + QNameToks(QName(false, parts),
        if wildcard then [Sym(COLON_COLON)] + ([Sym(STAR)] + ([Sym(SEMICOLON)] + rest)) else [Sym(SEMICOLON)] + rest))
    case Alias(v, name, target) =>
      VisibilityToks(v, [Sym(KW_ALIAS)] + ([Name(name)] + ([Sym(KW_FOR)] + QNameToks(target, [Sym(SEMICOLON)] + rest))))
    case Dependency(v, name, sources, targets) =>
      VisibilityToks(v, [Sym(KW_DEPENDENCY)] + NameToks(name, [Sym(KW_FROM)] +
        QNamesToks(sources, [Sym(KW_TO)] + QNamesToks(targets, [Sym(SEMICOLON)] + rest))))
    case Doc(body) => [DocBody(body)] + rest
    case Link(q) => ActionToks(q, rest)
    case Succession(name, first, steps) => SuccessionToks(d, rest)
    case Transition(name, first, accept_, guard, effect, target) =>
      [Sym(KW_TRANSITION)] + NameToks(name, OptionalToks(KW_FIRST, first, OptionalToks(KW_ACCEPT, accept_,
        GuardToks(guard, OptionalToks(KW_DO, effect, [Sym(KW_THEN)] + QNameToks(target, [Sym(SEMICOLON)] + rest))))))
    case Other => rest
  }

  function GuardToks(guard: Option<Expr>, rest: seq<Token>): seq<Token> {
    match guard
    case None => rest
    case Some(e) => [Sym(KW_IF)] + (Spell(e) + rest)
  }

  /** A usage after its prefixes and keyword. */
  function UsageToks(d: Decl, rest: seq<Token>): seq<Token>
    requires d.Usage?
    decreases d, 0
  {
    NameToks(d.name, FeaturesToks(d.features, EndsToks(d.kind, d.ends, ValueToks(d.value,
      if d.members == [] then [Sym(SEMICOLON)] + rest
      else [Sym(LEFT_BRACE)] + MembersToks(d.members, [Sym(RIGHT_BRACE)] + rest)))))
  }

  function MembersToks(ds: seq<Decl>, rest: seq<Token>): seq<Token>
    decreases ds, 2
  {
    if ds == [] then rest else DeclToks(ds[0], MembersToks(ds[1..], rest))
  }

  /** The three printed shapes of a succession. */
  function SuccessionToks(d: Decl, rest: seq<Token>): seq<Token>
    requires d.Succession?
    decreases d, 0
  {
    var end := [Sym(SEMICOLON)] + rest;
    if d.name == "" && d.first.Some? && d.steps == [] then [Sym(KW_FIRST)] + ActionToks(d.first.value, end)
    else if d.name == "" && d.first.None? && d.steps != [] then StepsToks(d.steps, end)
    else [Sym(KW_SUCCESSION)] + NameToks(d.name, FirstToks(d.first, StepsToks(d.steps, end)))
  }

  function FirstToks(first: Option<QName>, rest: seq<Token>): seq<Token> {
    match first
    case None => rest
    case Some(q) => [Sym(KW_FIRST)] + ActionToks(q, rest)
  }

  /** Targets, each after `then`. */
  function StepsToks(steps: seq<Decl>, rest: seq<Token>): seq<Token>
    decreases steps, 3
  {
    if steps == [] then rest else [Sym(KW_THEN)] + StepToks(steps[0], StepsToks(steps[1..], rest))
  }

  /** One target: a reference, or an action declared in place. */
  function StepToks(s: Decl, rest: seq<Token>): seq<Token>
    decreases s, 2
  {
    if s.Usage? then
      [Sym(KW_ACTION)] + NameToks(s.name, ClauseToks(COLON, s.features.types,
        if s.members == [] then rest else [Sym(LEFT_BRACE)] + MembersToks(s.members, [Sym(RIGHT_BRACE)] + rest)))
    else DeclToks(s, rest)
  }
}
