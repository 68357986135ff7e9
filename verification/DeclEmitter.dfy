/** The declaration emitter, proved against `DeclPrinting`.  The ghost argument `rest` is the
    text still to be written when the method returns. */
module DeclEmitter {
  import opened Basics
  import opened Tokens
  import opened Syntax
  import opened Outline
  import opened Sequences
  import opened Printing
  import opened DeclGrammar
  import opened DeclPrinting
  import opened Emitter

  method Write(p: Printer, text: string, ghost rest: string)
    modifies p`out
    ensures p.out + rest == old(p.out) + (text + rest)
  {
    p.Put(text);
    Regroup3(old(p.out), text, rest);
  }

  method WriteName(p: Printer, w: string, ghost rest: string)
    modifies p`out
    ensures p.out + rest == old(p.out) + (NameText(w) + rest)
  {
    p.EmitToken(w);
    Regroup3(old(p.out), NameText(w), rest);
  }

  /** `emitIndent`. */
  method EmitIndent(p: Printer, ghost rest: string)
    modifies p`out
    ensures p.out + rest == old(p.out) + IndentText(p.depth, rest)
  {
    var i := 0;
    ghost var all := old(p.out) + IndentText(p.depth, rest);
    while i < p.depth
      invariant i <= p.depth && p.out + IndentText(p.depth - i, rest) == all
    {
      Write(p, "    ", IndentText(p.depth - i - 1, rest));
      i := i + 1;
    }
  }

  method EmitVisibility(p: Printer, v: Visibility, ghost rest: string)
    modifies p`out
    ensures p.out + rest == old(p.out) + VisibilityText(v, rest)
  {
    match v
    case DefaultVisibility =>
    case Public => Write(p, "public ", rest);
    case Private => Write(p, "private ", rest);
    case Protected => Write(p, "protected ", rest);
  }

  method EmitDirection(p: Printer, d: Direction, ghost rest: string)
    modifies p`out
    ensures p.out + rest == old(p.out) + DirectionText(d, rest)
  {
    match d
    case Undirected =>
    case In => Write(p, "in ", rest);
    case Out => Write(p, "out ", rest);
    case InOut => Write(p, "inout ", rest);
  }

  method EmitFlag(p: Printer, flag: bool, word: string, ghost rest: string)
    modifies p`out
    ensures p.out + rest == old(p.out) + FlagText(flag, word, rest)
  {
    if flag { Write(p, word, rest); }
  }

  method EmitModifiers(p: Printer, m: Modifiers, ghost rest: string)
    modifies p`out
    ensures p.out + rest == old(p.out) + ModifiersText(m, rest)
  {
    ghost var r3 := FlagText(m.isReference, "ref ", rest);
    ghost var r2 := FlagText(m.isConstant, "constant ", r3);
    EmitFlag(p, m.isDerived, "derived ", FlagText(m.isAbstract, "abstract ", r2));
    EmitFlag(p, m.isAbstract, "abstract ", r2);
    EmitFlag(p, m.isConstant, "constant ", r3);
    EmitFlag(p, m.isReference, "ref ", rest);
  }

  /** `emitQualifiedName`. */
  method EmitQName(p: Printer, q: QName, ghost rest: string)
    modifies p`out
    ensures p.out + rest == old(p.out) + QNameText(q, rest)
  {
    EmitFlag(p, q.conjugated, "~", PathText(q.parts) + rest);
    ghost var before := p.out;
    p.EmitPath(q.parts);
    Regroup3(before, PathText(q.parts), rest);
  }

  /** The loop of `emitNameList`. */
  method EmitNames(p: Printer, qs: seq<QName>, ghost rest: string)
    modifies p`out
    ensures p.out + rest == old(p.out) + NamesText(qs, rest)
  {
    ghost var all := old(p.out) + NamesText(qs, rest);
    var i := 0;
    while i < |qs|
      invariant i <= |qs|
      invariant p.out + (if i == 0 then NamesText(qs, rest) else MoreNamesText(qs[i..], rest)) == all
    {
      assert qs[i..][1..] == qs[i + 1..];
      ghost var more := MoreNamesText(qs[i + 1..], rest);
      NamesUnfold(qs[i..], rest);
      if i > 0 { Write(p, ", ", QNameText(qs[i], more)); }
      assert qs[0..] == qs;
      EmitQName(p, qs[i], more);
      i := i + 1;
    }
  }

  /** The names after the first one, each after its comma. */
  function MoreNamesText(qs: seq<QName>, rest: string): string {
    if qs == [] then rest else ", " + NamesText(qs, rest)
  }

  lemma NamesUnfold(qs: seq<QName>, rest: string)
    requires qs != []
    ensures NamesText(qs, rest) == QNameText(qs[0], MoreNamesText(qs[1..], rest))
  {
  }

  /** `emitNameList`. */
  method EmitClause(p: Printer, prefix: string, qs: seq<QName>, ghost rest: string)
    modifies p`out
    ensures p.out + rest == old(p.out) + ClauseText(prefix, qs, rest)
  {
    if |qs| == 0 {
      return;
    }
    Write(p, prefix, NamesText(qs, rest));
    EmitNames(p, qs, rest);
  }

  /** `emitMultiplicity`. */
  method EmitMultiplicity(p: Printer, m: Option<Multiplicity>, ghost rest: string)
    modifies p`out
    ensures p.out + rest == old(p.out) + MultiplicityText(m, rest)
  {
    if m.None? {
      return;
    }
    var x := m.value;
    ghost var tail := match x.upper
      case None => "]" + rest
      case Some(b) => ".." + (BoundText(b) + ("]" + rest));
    Write(p, " [", BoundText(x.lower) + tail);
    Write(p, BoundText(x.lower), tail);
    if x.upper.Some? {
      Write(p, "..", BoundText(x.upper.value) + ("]" + rest));
      Write(p, BoundText(x.upper.value), "]" + rest);
    }
    Write(p, "]", rest);
  }

  method EmitFeatures(p: Printer, f: Features, ghost rest: string)
    modifies p`out
    ensures p.out + rest == old(p.out) + FeaturesText(f, rest)
  {
    ghost var r3 := MultiplicityText(f.multiplicity, rest);
    ghost var r2 := ClauseText(" :>> ", f.redefines, r3);
    EmitClause(p, " : ", f.types, ClauseText(" :> ", f.supers, r2));
    EmitClause(p, " :> ", f.supers, r2);
    EmitClause(p, " :>> ", f.redefines, r3);
    EmitMultiplicity(p, f.multiplicity, rest);
  }

  method EmitValue(p: Printer, prefix: string, v: Option<Expr>, ghost rest: string)
    modifies p`out
    ensures p.out + rest == old(p.out) + ValueText(prefix, v, rest)
  {
    if v.Some? {
      Write(p, prefix, ExprText(v.value) + rest);
      ghost var before := p.out;
      p.EmitExpression(v.value);
      Regroup3(before, ExprText(v.value), rest);
    }
  }

  method EmitSpacedName(p: Printer, name: string, ghost rest: string)
    modifies p`out
    ensures p.out + rest == old(p.out) + SpacedName(name, rest)
  {
    if |name| > 0 {
      Write(p, " ", NameText(name) + rest);
      WriteName(p, name, rest);
    }
  }

  /** `emitEnds`. */
  method EmitEnds(p: Printer, k: Kind, ends: seq<QName>, ghost rest: string)
    modifies p`out
    ensures p.out + rest == old(p.out) + EndsText(k, ends, rest)
  {
    if |ends| == 0 {
      return;
    }
    ghost var more := MoreEndsText(ends[1..], " to ", rest);
    Write(p, if IsFlow(k) then " from " else " connect ", QNameText(ends[0], more));
    EmitQName(p, ends[0], more);
    ghost var all := p.out + more;
    var i := 1;
    while i < |ends|
      invariant 1 <= i <= |ends|
      invariant p.out + MoreEndsText(ends[i..], if i == 1 then " to " else ", ", rest) == all
    {
      assert ends[i..][1..] == ends[i + 1..];
      ghost var others := MoreEndsText(ends[i + 1..], ", ", rest);
      Write(p, if i == 1 then " to " else ", ", QNameText(ends[i], others));
      EmitQName(p, ends[i], others);
      i := i + 1;
    }
  }

  method EmitOptional(p: Printer, prefix: string, q: Option<QName>, ghost rest: string)
    modifies p`out
    ensures p.out + rest == old(p.out) + OptionalText(prefix, q, rest)
  {
    if q.Some? {
      Write(p, prefix, QNameText(q.value, rest));
      EmitQName(p, q.value, rest);
    }
  }

  // ---- declarations -----------------------------------------------------------------------

  /** The members of a body, one level deeper. */
  method EmitBraced(p: Printer, members: seq<Decl>, ghost rest: string)
    modifies p
    ensures p.out + rest == old(p.out) + BracedText(members, old(p.depth), rest) && p.depth == old(p.depth)
    decreases members, 3
  {
    ghost var end := IndentText(p.depth, "}" + rest);
    Write(p, " {\n", MembersText(members, p.depth + 1, end));
    p.depth := p.depth + 1;
    EmitMembers(p, members, end);
    p.depth := p.depth - 1;
    EmitIndent(p, "}" + rest);
    Write(p, "}", rest);
  }

  method EmitMembers(p: Printer, ds: seq<Decl>, ghost rest: string)
    modifies p
    ensures p.out + rest == old(p.out) + MembersText(ds, old(p.depth), rest) && p.depth == old(p.depth)
    decreases ds, 2
  {
    ghost var depth, all := p.depth, p.out + MembersText(ds, p.depth, rest);
    var i := 0;
    while i < |ds|
      invariant i <= |ds| && p.depth == depth && p.out + MembersText(ds[i..], depth, rest) == all
    {
      assert ds[i..][1..] == ds[i + 1..];
      EmitDecl(p, ds[i], MembersText(ds[i + 1..], depth, rest));
      i := i + 1;
    }
    assert ds[i..] == [];
  }

  /** The end of a definition or package. */
  method EmitScope(p: Printer, members: seq<Decl>, ghost rest: string)
    modifies p
    ensures p.out + rest == old(p.out) + ScopeText(members, old(p.depth), rest) && p.depth == old(p.depth)
    decreases members, 4
  {
    if |members| == 0 {
      Write(p, " { }\n", rest);
    } else {
      EmitBraced(p, members, "\n" + rest);
      Write(p, "\n", rest);
    }
  }

  function ScopeText(members: seq<Decl>, depth: nat, rest: string): string {
    if members == [] then " { }\n" + rest else BracedText(members, depth, "\n" + rest)
  }

  /** `emitPackage`. */
  method EmitPackage(p: Printer, d: Decl, ghost rest: string)
    requires d.Package?
    modifies p
    ensures p.out + rest == old(p.out) + DeclText(d, old(p.depth), rest) && p.depth == old(p.depth)
    decreases d, 0
  {
    hide BracedText;
    ghost var scope := ScopeText(d.members, p.depth, rest);
    ghost var named := "package " + (NameText(d.name) + scope);
    EmitIndent(p, VisibilityText(d.visibility, named));
    EmitVisibility(p, d.visibility, named);
    Write(p, "package ", NameText(d.name) + scope);
    WriteName(p, d.name, scope);
    EmitScope(p, d.members, rest);
  }

  /** `emitDefinition`. */
  method EmitDefinition(p: Printer, d: Decl, ghost rest: string)
    requires d.Definition?
    modifies p
    ensures p.out + rest == old(p.out) + DeclText(d, old(p.depth), rest) && p.depth == old(p.depth)
    decreases d, 0
  {
    hide BracedText, KindText;
    ghost var scope := ScopeText(d.members, p.depth, rest);
    ghost var redefines := ClauseText(" :>> ", d.redefines, scope);
    ghost var clauses := ClauseText(" :> ", d.supers, redefines);
    ghost var kind := KindText(d.kind) + (" def " + (NameText(d.name) + clauses));
    ghost var flagged := FlagText(d.isAbstract, "abstract ", kind);
    EmitIndent(p, VisibilityText(d.visibility, flagged));
    EmitVisibility(p, d.visibility, flagged);
    EmitFlag(p, d.isAbstract, "abstract ", kind);
    Write(p, KindText(d.kind), " def " + (NameText(d.name) + clauses));
    Write(p, " def ", NameText(d.name) + clauses);
    WriteName(p, d.name, clauses);
    EmitClause(p, " :> ", d.supers, redefines);
    EmitClause(p, " :>> ", d.redefines, scope);
    EmitScope(p, d.members, rest);
  }

  /** `emitUsage`. */
  method EmitUsage(p: Printer, d: Decl, ghost rest: string)
    requires d.Usage?
    modifies p
    ensures p.out + rest == old(p.out) + DeclText(d, old(p.depth), rest) && p.depth == old(p.depth)
    decreases d, 0
  {
    hide BracedText, KindText, FeaturesText, EndsText, ValueText;
    ghost var usage := UsageText(d, p.depth, rest);
    ghost var flagged := ModifiersText(d.modifiers, usage);
    ghost var directed := DirectionText(d.direction, flagged);
    EmitIndent(p, VisibilityText(d.visibility, directed));
    EmitVisibility(p, d.visibility, directed);
    EmitDirection(p, d.direction, flagged);
    EmitModifiers(p, d.modifiers, usage);
    ghost var end := if d.members == [] then ";\n" + rest else BracedText(d.members, p.depth, "\n" + rest);
    ghost var value := ValueText(" = ", d.value, end);
    ghost var ends := EndsText(d.kind, d.ends, value);
    ghost var tail := FeaturesText(d.features, ends);
    if d.kind != KW_REF {
      Write(p, KindText(d.kind), SpacedName(d.name, tail));
      EmitSpacedName(p, d.name, tail);
    } else {
      WriteName(p, d.name, tail);
    }
    EmitFeatures(p, d.features, ends);
    EmitEnds(p, d.kind, d.ends, value);
    EmitValue(p, " = ", d.value, end);
    if |d.members| == 0 {
      Write(p, ";\n", rest);
    } else {
      EmitBraced(p, d.members, "\n" + rest);
      Write(p, "\n", rest);
    }
  }

  /** `emitAttribute`. */
  method EmitAttribute(p: Printer, d: Decl, ghost rest: string)
    requires d.Attribute?
    modifies p`out
    ensures p.out + rest == old(p.out) + DeclText(d, p.depth, rest)
  {
    hide FeaturesText, ValueText;
    ghost var value := ValueText(" = ", d.value, ";\n" + rest);
    ghost var tail := FeaturesText(d.features, value);
    ghost var word := "attribute " + (NameText(d.name) + tail);
    ghost var flagged := ModifiersText(d.modifiers, word);
    EmitIndent(p, VisibilityText(d.visibility, flagged));
    EmitVisibility(p, d.visibility, flagged);
    EmitModifiers(p, d.modifiers, word);
    Write(p, "attribute ", NameText(d.name) + tail);
    WriteName(p, d.name, tail);
    EmitFeatures(p, d.features, value);
    EmitValue(p, " = ", d.value, ";\n" + rest);
    Write(p, ";\n", rest);
  }

  /** `emitImport`. */
  method EmitImport(p: Printer, d: Decl, ghost rest: string)
    requires d.Import?
    modifies p`out
    ensures p.out + rest == old(p.out) + DeclText(d, p.depth, rest)
  {
    ghost var end := ";\n" + rest;
    ghost var star := FlagText(d.wildcard, "::*", end);
    EmitIndent(p, VisibilityText(d.visibility, "import " + (PathText(d.parts) + star)));
    EmitVisibility(p, d.visibility, "import " + (PathText(d.parts) + star));
    Write(p, "import ", PathText(d.parts) + star);
    EmitQName(p, QName(false, d.parts), star);
    EmitFlag(p, d.wildcard, "::*", end);
    Write(p, ";\n", rest);
  }

  /** `emitEnumValue`, `emitAlias` and `emitDoc`. */
  method EmitSimple(p: Printer, d: Decl, ghost rest: string)
    requires d.EnumValue? || d.Alias? || d.Doc?
    modifies p`out
    ensures p.out + rest == old(p.out) + DeclText(d, p.depth, rest)
  {
    hide ValueText;
    ghost var end := ";\n" + rest;
    match d
    case EnumValue(name, value) =>
      ghost var tail := ValueText(" = ", value, end);
      EmitIndent(p, (if name == "" then "enum" else NameText(name)) + tail);
      if |name| > 0 { WriteName(p, name, tail); } else { Write(p, "enum", tail); }
      EmitValue(p, " = ", value, end);
      Write(p, ";\n", rest);
    case Alias(v, name, target) =>
      ghost var tail := " for " + QNameText(target, end);
      EmitIndent(p, VisibilityText(v, "alias " + (NameText(name) + tail)));
      EmitVisibility(p, v, "alias " + (NameText(name) + tail));
      Write(p, "alias ", NameText(name) + tail);
      WriteName(p, name, tail);
      Write(p, " for ", QNameText(target, end));
      EmitQName(p, target, end);
      Write(p, ";\n", rest);
    case Doc(body) =>
      EmitIndent(p, "/**" + (body + ("*/\n" + rest)));
      Write(p, "/**", body + ("*/\n" + rest));
      Write(p, body, "*/\n" + rest);
      Write(p, "*/\n", rest);
  }

  method EmitDependency(p: Printer, d: Decl, ghost rest: string)
    requires d.Dependency?
    modifies p`out
    ensures p.out + rest == old(p.out) + DeclText(d, p.depth, rest)
  {
    hide NamesText;
    ghost var end := ";\n" + rest;
    ghost var to := " to " + NamesText(d.targets, end);
    ghost var from := " from " + NamesText(d.sources, to);
    EmitIndent(p, VisibilityText(d.visibility, "dependency" + SpacedName(d.name, from)));
    EmitVisibility(p, d.visibility, "dependency" + SpacedName(d.name, from));
    Write(p, "dependency", SpacedName(d.name, from));
    EmitSpacedName(p, d.name, from);
    Write(p, " from ", NamesText(d.sources, to));
    EmitNames(p, d.sources, to);
    Write(p, " to ", NamesText(d.targets, end));
    EmitNames(p, d.targets, end);
    Write(p, ";\n", rest);
  }

  /** `emitTransition`. */
  method EmitTransition(p: Printer, d: Decl, ghost rest: string)
    requires d.Transition?
    modifies p`out
    ensures p.out + rest == old(p.out) + DeclText(d, p.depth, rest)
  {
    hide QNameText, ValueText;
    ghost var end := ";\n" + rest;
    ghost var target := " then " + QNameText(d.target, end);
    ghost var effect := OptionalText(" do ", d.effect, target);
    ghost var guard := ValueText(" if ", d.guard, effect);
    ghost var accept_ := OptionalText(" accept ", d.accept_, guard);
    ghost var first := OptionalText(" first ", d.first, accept_);
    EmitIndent(p, "transition" + SpacedName(d.name, first));
    Write(p, "transition", SpacedName(d.name, first));
    EmitSpacedName(p, d.name, first);
    EmitOptional(p, " first ", d.first, accept_);
    EmitOptional(p, " accept ", d.accept_, guard);
    EmitValue(p, " if ", d.guard, effect);
    EmitOptional(p, " do ", d.effect, target);
    Write(p, " then ", QNameText(d.target, end));
    EmitQName(p, d.target, end);
    Write(p, ";\n", rest);
  }

  /** `emitSuccessionTarget`. */
  method EmitStep(p: Printer, s: Decl, ghost rest: string)
    modifies p
    ensures p.out + rest == old(p.out) + StepText(s, old(p.depth), rest) && p.depth == old(p.depth)
    decreases s, 2
  {
    hide BracedText;
    if !s.Usage? {
      EmitDecl(p, s, rest);
      return;
    }
    ghost var end := if s.members == [] then rest else BracedText(s.members, p.depth, rest);
    ghost var types := ClauseText(" : ", s.features.types, end);
    Write(p, "action", SpacedName(s.name, types));
    EmitSpacedName(p, s.name, types);
    EmitClause(p, " : ", s.features.types, end);
    if |s.members| > 0 { EmitBraced(p, s.members, rest); }
  }

  method EmitSteps(p: Printer, steps: seq<Decl>, ghost rest: string)
    modifies p
    ensures p.out + rest == old(p.out) + StepsText(steps, old(p.depth), rest) && p.depth == old(p.depth)
    decreases steps, 3
  {
    ghost var depth, all := p.depth, p.out + StepsText(steps, p.depth, rest);
    var i := 0;
    while i < |steps|
      invariant i <= |steps| && p.depth == depth && p.out + StepsText(steps[i..], depth, rest) == all
    {
      assert steps[i..][1..] == steps[i + 1..];
      ghost var more := StepsText(steps[i + 1..], depth, rest);
      Write(p, " then ", StepText(steps[i], depth, more));
      EmitStep(p, steps[i], more);
      i := i + 1;
    }
    assert steps[i..] == [];
  }

  /** `emitSuccession`. */
  method EmitSuccession(p: Printer, d: Decl, ghost rest: string)
    requires d.Succession?
    modifies p
    ensures p.out + rest == old(p.out) + DeclText(d, old(p.depth), rest) && p.depth == old(p.depth)
    decreases d, 0
  {
    hide StepText, StepsText, QNameText;
    ghost var end := ";\n" + rest;
    EmitIndent(p, SuccessionText(d, p.depth, rest));
    if d.first.Some? && |d.steps| == 0 && |d.name| == 0 {
      Write(p, "first ", QNameText(d.first.value, end));
      EmitQName(p, d.first.value, end);
    } else if d.first.None? && |d.steps| > 0 && |d.name| == 0 {
      ghost var more := StepsText(d.steps[1..], p.depth, end);
      Write(p, "then ", StepText(d.steps[0], p.depth, more));
      EmitStep(p, d.steps[0], more);
      EmitSteps(p, d.steps[1..], end);
    } else {
      ghost var steps := StepsText(d.steps, p.depth, end);
      ghost var first := OptionalText(" first ", d.first, steps);
      Write(p, "succession", SpacedName(d.name, first));
      EmitSpacedName(p, d.name, first);
      EmitOptional(p, " first ", d.first, steps);
      EmitSteps(p, d.steps, end);
    }
    Write(p, ";\n", rest);
  }

  /** `emitNode`. */
  method EmitDecl(p: Printer, d: Decl, ghost rest: string)
    modifies p
    ensures p.out + rest == old(p.out) + DeclText(d, old(p.depth), rest) && p.depth == old(p.depth)
    decreases d, 1
  {
    hide DeclText;
    match d
    case Package(_, _, _) => EmitPackage(p, d, rest);
    case Definition(_, _, _, _, _, _, _) => EmitDefinition(p, d, rest);
    case Usage(_, _, _, _, _, _, _, _, _) => EmitUsage(p, d, rest);
    case Attribute(_, _, _, _, _) => EmitAttribute(p, d, rest);
    case Dependency(_, _, _, _) => EmitDependency(p, d, rest);
    case Succession(_, _, _) => EmitSuccession(p, d, rest);
    case Transition(_, _, _, _, _, _) => EmitTransition(p, d, rest);
    case Link(q) =>
      LinkText(q, p.depth, rest);
      EmitQName(p, q, rest);
    case Other => OtherText(p.depth, rest);
    case Import(_, _, _) => EmitImport(p, d, rest);
    case _ => EmitSimple(p, d, rest);
  }

  lemma LinkText(q: QName, depth: nat, rest: string)
    ensures DeclText(Link(q), depth, rest) == QNameText(q, rest)
  {
  }

  lemma OtherText(depth: nat, rest: string)
    ensures DeclText(Other, depth, rest) == rest
  {
  }

  /** `emitSysml`: writes the canonical text of a program. */
  method EmitProgram(ds: seq<Decl>) returns (text: string)
    ensures text == ProgramText(ds)
  {
    var p := new Printer();
    EmitMembers(p, ds, "");
    text := p.out;
    assert p.out + "" == p.out && "" + ProgramText(ds) == ProgramText(ds);
  }
}
