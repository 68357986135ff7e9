/** The canonical text of declarations.  Every function takes the text that follows. */
module DeclPrinting {
  import opened Basics
  import opened Tokens
  import opened Syntax
  import opened Outline
  import opened Printing
  import opened DeclGrammar
  import opened DeclSpelling

  /** The keyword that introduces a kind of definition or usage. */
  function KindText(k: Kind): string {
    if k == KW_PART then "part"
    else if k == KW_PORT then "port"
    else if k == KW_INTERFACE then "interface"
    else if k == KW_ITEM then "item"
    else if k == KW_CONNECTION then "connection"
    else if k == KW_FLOW then "flow"
    else if k == KW_END then "end"
    else if k == KW_ENUM then "enum"
    else if k == KW_REQUIREMENT then "requirement"
    else if k == KW_ACTION then "action"
    else if k == KW_STATE then "state"
    else if k == KW_ATTRIBUTE then "attribute"
    else if k == KW_OCCURRENCE then "occurrence"
    else if k == KW_INDIVIDUAL then "individual"
    else if k == KW_SNAPSHOT then "snapshot"
    else MoreKindText(k)
  }

  function MoreKindText(k: Kind): string {
    if k == KW_TIMESLICE then "timeslice"
    else if k == KW_ALLOCATION then "allocation"
    else if k == KW_VIEW then "view"
    else if k == KW_VIEWPOINT then "viewpoint"
    else if k == KW_RENDERING then "rendering"
    else if k == KW_CONCERN then "concern"
    else if k == KW_ACTOR then "actor"
    else if k == KW_MESSAGE then "message"
    else if k == KW_METADATA then "metadata"
    else if k == KW_VERIFICATION then "verification"
    else if k == KW_OBJECTIVE then "objective"
    else if k == KW_ANALYSIS then "analysis"
    else "?"
  }

  function IndentText(depth: nat, rest: string): string {
    if depth == 0 then rest else "    " + IndentText(depth - 1, rest)
  }

  function VisibilityText(v: Visibility, rest: string): string {
    match v
    case DefaultVisibility => rest
    case Public => "public " + rest
    case Private => "private " + rest
    case Protected => "protected " + rest
  }

  function DirectionText(d: Direction, rest: string): string {
    match d
    case Undirected => rest
    case In => "in " + rest
    case Out => "out " + rest
    case InOut => "inout " + rest
  }

  function FlagText(flag: bool, word: string, rest: string): string {
    if flag then word + rest else rest
  }

  function ModifiersText(m: Modifiers, rest: string): string {
    FlagText(m.isDerived, "derived ",
      FlagText(m.isAbstract, "abstract ",
        FlagText(m.isConstant, "constant ",
          FlagText(m.isReference, "ref ", rest))))
  }

  function QNameText(q: QName, rest: string): string {
    FlagText(q.conjugated, "~", PathText(q.parts) + rest)
  }

  function NamesText(qs: seq<QName>, rest: string): string {
    if qs == [] then rest
    else QNameText(qs[0], if |qs| == 1 then rest else ", " + NamesText(qs[1..], rest))
  }

  /** `emitNameList`. */
  function ClauseText(prefix: string, qs: seq<QName>, rest: string): string {
    if qs == [] then rest else prefix + NamesText(qs, rest)
  }

  function BoundText(b: Bound): string {
    match b
    case Star => "*"
    case Count(n) => Decimal(n)
  }

  function MultiplicityText(m: Option<Multiplicity>, rest: string): string {
    match m
    case None => rest
    case Some(x) =>
      " [" + (BoundText(x.lower) + match x.upper
        case None => "]" + rest
        case Some(b) => ".." + (BoundText(b) + ("]" + rest)))
  }

  function FeaturesText(f: Features, rest: string): string {
    ClauseText(" : ", f.types,
      ClauseText(" :> ", f.supers,
        ClauseText(" :>> ", f.redefines,
          MultiplicityText(f.multiplicity, rest))))
  }

  function ValueText(prefix: string, v: Option<Expr>, rest: string): string {
    match v
    case None => rest
    case Some(e) => prefix + (ExprText(e) + rest)
  }

  /** A blank and a name, if there is one. */
  function SpacedName(name: string, rest: string): string {
    if name == "" then rest else " " + (NameText(name) + rest)
  }

  /** `emitEnds`, also for numbers of ends the grammar does not have. */
  function EndsText(k: Kind, ends: seq<QName>, rest: string): string {
    if ends == [] then rest
    else (if IsFlow(k) then " from " else " connect ") + QNameText(ends[0], MoreEndsText(ends[1..], " to ", rest))
  }

  function MoreEndsText(ends: seq<QName>, prefix: string, rest: string): string {
    if ends == [] then rest else prefix + QNameText(ends[0], MoreEndsText(ends[1..], ", ", rest))
  }

  function OptionalText(prefix: string, q: Option<QName>, rest: string): string {
    match q
    case None => rest
    case Some(x) => prefix + QNameText(x, rest)
  }

  /** A body in braces, each member on its own lines. */
  function BracedText(members: seq<Decl>, depth: nat, rest: string): string
    decreases members, 3
  {
    " {\n" + MembersText(members, depth + 1, IndentText(depth, "}" + rest))
  }

  function MembersText(ds: seq<Decl>, depth: nat, rest: string): string
    decreases ds, 2
  {
    if ds == [] then rest else DeclText(ds[0], depth, MembersText(ds[1..], depth, rest))
  }

  /** `emitNode` at indentation `depth`. */
  function DeclText(d: Decl, depth: nat, rest: string): string
    decreases d, 1
  {
    match d
    case Package(v, name, members) =>
      IndentText(depth, VisibilityText(v, "package " + (NameText(name) +
        if members == [] then " { }\n" + rest else BracedText(members, depth, "\n" + rest))))
    case Definition(v, k, isAbstract, name, supers, redefines, members) =>
      IndentText(depth, VisibilityText(v, FlagText(isAbstract, "abstract ", KindText(k) + (" def " + (NameText(name) +
        ClauseText(" :> ", supers, ClauseText(" :>> ", redefines,
          if members == [] then " { }\n" + rest else BracedText(members, depth, "\n" + rest))))))))
    case Usage(v, k, dir, m, name, f, ends, value, members) =>
      IndentText(depth, VisibilityText(v, DirectionText(dir, ModifiersText(m, UsageText(d, depth, rest)))))
    case Attribute(v, m, name, f, value) =>
      IndentText(depth, VisibilityText(v, ModifiersText(m, "attribute " + (NameText(name) +
        FeaturesText(f, ValueText(" = ", value, ";\n" + rest))))))
    case EnumValue(name, value) =>
      IndentText(depth, (if name == "" then "enum" else NameText(name)) + ValueText(" = ", value, ";\n" + rest))
    case Import(v, parts, wildcard) =>
      IndentText(depth, VisibilityText(v, "import " + (PathText(parts) + FlagText(wildcard, "::*", ";\n" + rest))))
    case Alias(v, name, target) =>
      IndentText(depth, VisibilityText(v, "alias " + (NameText(name) + (" for " + QNameText(target, ";\n" + rest)))))
    case Dependency(v, name, sources, targets) =>
      IndentText(depth, VisibilityText(v, "dependency" + SpacedName(name,
        " from " + NamesText(sources, " to " + NamesText(targets, ";\n" + rest)))))
    case Doc(body) => IndentText(depth, "/**" + (body + ("*/\n" + rest)))
    case Link(q) => QNameText(q, rest)
    case Succession(_, _, _) => IndentText(depth, SuccessionText(d, depth, rest))
    case Transition(name, first, accept_, guard, effect, target) =>
      IndentText(depth, "transition" + SpacedName(name, OptionalText(" first ", first, OptionalText(" accept ", accept_,
        ValueText(" if ", guard, OptionalText(" do ", effect, " then " + QNameText(target, ";\n" + rest)))))))
    case Other => rest
  }

  /** A usage after its prefixes. */
  function UsageText(d: Decl, depth: nat, rest: string): string
    requires d.Usage?
    decreases d, 0
  {
    var tail := FeaturesText(d.features, EndsText(d.kind, d.ends, ValueText(" = ", d.value,
      if d.members == [] then ";\n" + rest else BracedText(d.members, depth, "\n" + rest))));
    if d.kind == KW_REF then NameText(d.name) + tail else KindText(d.kind) + SpacedName(d.name, tail)
  }

  /** `emitSuccession`: three shapes. */
  function SuccessionText(d: Decl, depth: nat, rest: string): string
    requires d.Succession?
    decreases d, 0
  {
    if d.name == "" && d.first.Some? && d.steps == [] then "first " + QNameText(d.first.value, ";\n" + rest)
    else if d.name == "" && d.first.None? && d.steps != [] then
      "then " + StepText(d.steps[0], depth, StepsText(d.steps[1..], depth, ";\n" + rest))
    else "succession" + SpacedName(d.name, OptionalText(" first ", d.first, StepsText(d.steps, depth, ";\n" + rest)))
  }

  function StepsText(steps: seq<Decl>, depth: nat, rest: string): string
    decreases steps, 3
  {
    if steps == [] then rest else " then " + StepText(steps[0], depth, StepsText(steps[1..], depth, rest))
  }

  /** `emitSuccessionTarget`. */
  function StepText(s: Decl, depth: nat, rest: string): string
    decreases s, 2
  {
    if s.Usage? then
      "action" + SpacedName(s.name, ClauseText(" : ", s.features.types,
        if s.members == [] then rest else BracedText(s.members, depth, rest)))
    else DeclText(s, depth, rest)
  }

  /** `emitSysml`. */
  function ProgramText(ds: seq<Decl>): string { MembersText(ds, 0, "") }
}
