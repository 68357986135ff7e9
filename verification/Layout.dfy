/** The layout of printed programs: every line is indented by four blanks for each brace that is open there. */
module Layout {
  import opened Basics
  import opened Tokens
  import opened Syntax
  import opened Outline
  import opened Printing
  import opened DeclSpelling
  import opened DeclPrinting

  // ---- lines ----------------------------------------------------------------------------------------------------

  predicate OneLine(w: string) { '\n' !in w }

  function Blanks(n: nat): string { seq(n, _ => ' ') }

  predicate OpensBody(line: string) { line != "" && line[|line| - 1] == '{' }

  predicate ClosesBody(line: string) { line != "" && line[0] == '}' }

  /** The first line of `t`, and what follows it. */
  predicate IsFirstLine(t: string, depth: nat, line: string, rest: string) {
    var outer := if ClosesBody(line) then depth - 1 else depth;
    && outer >= 0 && t == Blanks(4 * outer) + (line + ("\n" + rest))
    && OneLine(line) && line != "" && line[0] != ' '
  }

  function DepthAfter(depth: int, line: string): int {
    depth - (if ClosesBody(line) then 1 else 0) + if OpensBody(line) then 1 else 0
  }

  /** `t` consists of whole lines; the first one stands inside `depth` braces, which are all closed in the end. */
  ghost predicate Laid(t: string, depth: nat)
    decreases |t|
  {
    (t == "" && depth == 0) || exists line: string, rest: string ::
      IsFirstLine(t, depth, line, rest) && |rest| < |t| && DepthAfter(depth, line) >= 0 && Laid(rest, DepthAfter(depth, line))
  }

  /** `t` is the end of a line, which is not empty, and then lines inside `depth` braces, or one more if it opens one. */
  ghost predicate Finishes(t: string, depth: nat) { exists line: string, rest: string :: EndsLine(t, depth, line, rest) }

  ghost predicate EndsLine(t: string, depth: nat, line: string, rest: string) {
    t == line + ("\n" + rest) && OneLine(line) && line != "" && Laid(rest, if OpensBody(line) then depth + 1 else depth)
  }

  /** `t` goes on to `r` on the same line. */
  ghost predicate Through(t: string, r: string) { exists head: string :: t == head + r && OneLine(head) }

  lemma ThroughTrans(t: string, r: string, u: string)
    requires Through(t, r) && Through(r, u)
    ensures Through(t, u)
  {
    var a: string :| t == a + r && OneLine(a);
    var b: string :| r == b + u && OneLine(b);
    assert a + (b + u) == (a + b) + u;
  }

  lemma ThroughSelf(t: string)
    ensures Through(t, t)
  {
    assert t == "" + t;
  }

  lemma ThroughWord(w: string, t: string, r: string)
    requires OneLine(w) && Through(t, r)
    ensures Through(w + t, r)
  {
    var a: string :| t == a + r && OneLine(a);
    assert w + (a + r) == (w + a) + r;
  }

  lemma ThroughFinishes(t: string, r: string, depth: nat)
    requires Through(t, r) && Finishes(r, depth)
    ensures Finishes(t, depth)
  {
    hide Laid;
    var a: string :| t == a + r && OneLine(a);
    var line: string, rest: string :| EndsLine(r, depth, line, rest);
    assert a + (line + ("\n" + rest)) == (a + line) + ("\n" + rest);
    assert OpensBody(a + line) == OpensBody(line);
    assert EndsLine(t, depth, a + line, rest);
  }

  lemma {:induction false} IndentIs(depth: nat, rest: string)
    ensures IndentText(depth, rest) == Blanks(4 * depth) + rest
  {
    if depth > 0 {
      IndentIs(depth - 1, rest);
      assert Blanks(4 * depth) == "    " + Blanks(4 * (depth - 1));
    }
  }

  predicate StartsLine(t: string) { t != "" && t[0] !in {' ', '}', '\n'} }

  lemma LaidStep(t: string, depth: nat, line: string, rest: string)
    requires IsFirstLine(t, depth, line, rest) && DepthAfter(depth, line) >= 0 && Laid(rest, DepthAfter(depth, line))
    ensures Laid(t, depth)
  {
    assert |rest| < |t|;
  }

  /** An indented line that begins with a word. */
  lemma LineLaid(depth: nat, t: string)
    requires Finishes(t, depth) && StartsLine(t)
    ensures Laid(IndentText(depth, t), depth)
  {
    hide Laid;
    IndentIs(depth, t);
    var line: string, rest: string :| EndsLine(t, depth, line, rest);
    assert line[0] == t[0];
    assert IsFirstLine(Blanks(4 * depth) + t, depth, line, rest);
    LaidStep(Blanks(4 * depth) + t, depth, line, rest);
  }

  lemma SemicolonFinishes(depth: nat, rest: string)
    requires Laid(rest, depth)
    ensures Finishes(";\n" + rest, depth)
  {
    hide Laid;
    assert ";\n" + rest == ";" + ("\n" + rest);
    assert EndsLine(";\n" + rest, depth, ";", rest);
  }

  /** What follows a closing brace. */
  ghost predicate FollowsBrace(t: string, depth: nat) {
    Finishes(t, depth) || exists rest: string :: t == "\n" + rest && Laid(rest, depth)
  }

  lemma BraceLaid(depth: nat, t: string)
    requires FollowsBrace(t, depth)
    ensures Laid(IndentText(depth, "}" + t), depth + 1)
  {
    hide Laid;
    IndentIs(depth, "}" + t);
    if Finishes(t, depth) {
      var line: string, rest: string :| EndsLine(t, depth, line, rest);
      assert "}" + (line + ("\n" + rest)) == ("}" + line) + ("\n" + rest);
      assert OpensBody("}" + line) == OpensBody(line);
      assert IsFirstLine(Blanks(4 * depth) + ("}" + t), depth + 1, "}" + line, rest);
      LaidStep(Blanks(4 * depth) + ("}" + t), depth + 1, "}" + line, rest);
    } else {
      var rest: string :| t == "\n" + rest && Laid(rest, depth);
      assert IsFirstLine(Blanks(4 * depth) + ("}" + t), depth + 1, "}", rest);
      LaidStep(Blanks(4 * depth) + ("}" + t), depth + 1, "}", rest);
    }
  }

  // ---- the parts of a line --------------------------------------------------------------------------------------

  predicate OneLineAll(ws: seq<string>) { forall w | w in ws :: OneLine(w) }

  predicate OneLineQName(q: QName) { OneLineAll(q.parts) }

  predicate OneLineQNames(qs: seq<QName>) { forall q | q in qs :: OneLineQName(q) }

  predicate OneLineExpr(e: Expr) {
    match e
    case Literal(_, x) => OneLine(x)
    case Path(parts) => OneLineAll(parts)
    case Binary(_, l, r) => OneLineExpr(l) && OneLineExpr(r)
    case Unary(_, x) => OneLineExpr(x)
    case Call(f, args) => OneLineExpr(f) && forall i | 0 <= i < |args| :: OneLineExpr(args[i])
    case Tuple(items) => forall i | 0 <= i < |items| :: OneLineExpr(items[i])
    case Member(x, m) => OneLineExpr(x) && OneLine(m)
  }

  predicate OneLineValue(v: Option<Expr>) { v.Some? ==> OneLineExpr(v.value) }

  predicate OneLineFeatures(f: Features) {
    OneLineQNames(f.types) && OneLineQNames(f.supers) && OneLineQNames(f.redefines)
  }

  lemma NameOne(w: string)
    requires OneLine(w)
    ensures OneLine(NameText(w))
  {
  }

  lemma {:induction false} PathOne(parts: seq<string>)
    requires OneLineAll(parts)
    ensures OneLine(PathText(parts))
    decreases |parts|
  {
    hide NameText;
    if parts != [] {
      NameOne(parts[|parts| - 1]);
      PathOne(parts[..|parts| - 1]);
    }
  }

  lemma {:induction false} ExprOne(e: Expr)
    requires OneLineExpr(e)
    ensures OneLine(ExprText(e))
    decreases e, 0
  {
    hide PathText, NameText, ListText, OperatorText;
    match e
    case Literal(_, x) =>
    case Path(parts) => PathOne(parts);
    case Binary(op, l, r) =>
      ExprOne(l);
      ExprOne(r);
      OperatorOne(op);
    case Unary(op, x) =>
      ExprOne(x);
      OperatorOne(op);
    case Call(f, args) =>
      ExprOne(f);
      ListOne(e, args);
    case Tuple(items) => ListOne(e, items);
    case Member(x, m) =>
      ExprOne(x);
      NameOne(m);
  }

  lemma OperatorOne(k: Kind)
    ensures OneLine(OperatorText(k))
  {
  }

  lemma {:induction false} ListOne(e: Expr, items: seq<Expr>)
    requires (forall i | 0 <= i < |items| :: items[i] < e) && forall i | 0 <= i < |items| :: OneLineExpr(items[i])
    ensures OneLine(ListText(items))
    decreases e, 0, |items|
  {
    hide ExprText;
    if items != [] {
      ExprOne(items[|items| - 1]);
      ListOne(e, items[..|items| - 1]);
    }
  }

  lemma QNameThrough(q: QName, rest: string)
    requires OneLineQName(q)
    ensures Through(QNameText(q, rest), rest)
  {
    hide PathText;
    PathOne(q.parts);
    ThroughSelf(rest);
    ThroughWord(PathText(q.parts), rest, rest);
    if q.conjugated { ThroughWord("~", PathText(q.parts) + rest, rest); }
  }

  lemma {:induction false} NamesThrough(qs: seq<QName>, rest: string)
    requires OneLineQNames(qs)
    ensures Through(NamesText(qs, rest), rest)
    decreases |qs|
  {
    hide QNameText, Through;
    if qs == [] {
      ThroughSelf(rest);
    } else if |qs| == 1 {
      QNameThrough(qs[0], rest);
    } else {
      NamesThrough(qs[1..], rest);
      ThroughWord(", ", NamesText(qs[1..], rest), rest);
      QNameThrough(qs[0], ", " + NamesText(qs[1..], rest));
      ThroughTrans(NamesText(qs, rest), ", " + NamesText(qs[1..], rest), rest);
    }
  }

  lemma ClauseThrough(prefix: string, qs: seq<QName>, rest: string)
    requires OneLine(prefix) && OneLineQNames(qs)
    ensures Through(ClauseText(prefix, qs, rest), rest)
  {
    hide NamesText, Through;
    ThroughSelf(rest);
    NamesThrough(qs, rest);
    ThroughWord(prefix, NamesText(qs, rest), rest);
  }

  lemma {:induction false} DecimalOne(n: nat)
    ensures OneLine(Decimal(n))
  {
    if n >= 10 { DecimalOne(n / 10); }
  }

  lemma BoundOne(b: Bound)
    ensures OneLine(BoundText(b))
  {
    if b.Count? { DecimalOne(b.n); }
  }

  lemma MultiplicityThrough(m: Option<Multiplicity>, rest: string)
    ensures Through(MultiplicityText(m, rest), rest)
  {
    hide Through, BoundText;
    ThroughSelf(rest);
    if m.Some? {
      BoundOne(m.value.lower);
      ThroughWord("]", rest, rest);
      var end := "]" + rest;
      if m.value.upper.Some? {
        BoundOne(m.value.upper.value);
        ThroughWord(BoundText(m.value.upper.value), end, rest);
        ThroughWord("..", BoundText(m.value.upper.value) + end, rest);
        ThroughWord(BoundText(m.value.lower), ".." + (BoundText(m.value.upper.value) + end), rest);
        ThroughWord(" [", BoundText(m.value.lower) + (".." + (BoundText(m.value.upper.value) + end)), rest);
      } else {
        ThroughWord(BoundText(m.value.lower), end, rest);
        ThroughWord(" [", BoundText(m.value.lower) + end, rest);
      }
    }
  }

  lemma FeaturesThrough(f: Features, rest: string)
    requires OneLineFeatures(f)
    ensures Through(FeaturesText(f, rest), rest)
  {
    hide Through, ClauseText, MultiplicityText;
    var r1 := MultiplicityText(f.multiplicity, rest);
    var r2 := ClauseText(" :>> ", f.redefines, r1);
    var r3 := ClauseText(" :> ", f.supers, r2);
    MultiplicityThrough(f.multiplicity, rest);
    ClauseThrough(" :>> ", f.redefines, r1);
    ClauseThrough(" :> ", f.supers, r2);
    ClauseThrough(" : ", f.types, r3);
    ThroughTrans(r2, r1, rest);
    ThroughTrans(r3, r2, rest);
    ThroughTrans(FeaturesText(f, rest), r3, rest);
  }

  lemma ValueThrough(prefix: string, v: Option<Expr>, rest: string)
    requires OneLine(prefix) && OneLineValue(v)
    ensures Through(ValueText(prefix, v, rest), rest)
  {
    hide Through, ExprText;
    ThroughSelf(rest);
    if v.Some? {
      ExprOne(v.value);
      ThroughWord(ExprText(v.value), rest, rest);
      ThroughWord(prefix, ExprText(v.value) + rest, rest);
    }
  }

  lemma SpacedThrough(name: string, rest: string)
    requires OneLine(name)
    ensures Through(SpacedName(name, rest), rest)
  {
    hide Through, NameText;
    ThroughSelf(rest);
    NameOne(name);
    ThroughWord(NameText(name), rest, rest);
    ThroughWord(" ", NameText(name) + rest, rest);
  }

  lemma {:induction false} MoreEndsThrough(ends: seq<QName>, prefix: string, rest: string)
    requires OneLineQNames(ends) && OneLine(prefix)
    ensures Through(MoreEndsText(ends, prefix, rest), rest)
    decreases |ends|
  {
    hide Through, QNameText;
    if ends == [] {
      ThroughSelf(rest);
    } else {
      var more := MoreEndsText(ends[1..], ", ", rest);
      MoreEndsThrough(ends[1..], ", ", rest);
      QNameThrough(ends[0], more);
      ThroughTrans(QNameText(ends[0], more), more, rest);
      ThroughWord(prefix, QNameText(ends[0], more), rest);
    }
  }

  lemma EndsThrough(k: Kind, ends: seq<QName>, rest: string)
    requires OneLineQNames(ends)
    ensures Through(EndsText(k, ends, rest), rest)
  {
    hide Through, QNameText, MoreEndsText;
    ThroughSelf(rest);
    if ends != [] {
      var more := MoreEndsText(ends[1..], " to ", rest);
      MoreEndsThrough(ends[1..], " to ", rest);
      QNameThrough(ends[0], more);
      ThroughTrans(QNameText(ends[0], more), more, rest);
      ThroughWord(" from ", QNameText(ends[0], more), rest);
      ThroughWord(" connect ", QNameText(ends[0], more), rest);
    }
  }

  lemma OptionalThrough(prefix: string, q: Option<QName>, rest: string)
    requires OneLine(prefix) && (q.Some? ==> OneLineQName(q.value))
    ensures Through(OptionalText(prefix, q, rest), rest)
  {
    hide Through, QNameText;
    ThroughSelf(rest);
    if q.Some? {
      QNameThrough(q.value, rest);
      ThroughWord(prefix, QNameText(q.value, rest), rest);
    }
  }

  /** The words before a declaration keep the line, and what it starts with is a word either way. */
  lemma PrefixesThrough(v: Visibility, d: Direction, m: Modifiers, rest: string)
    requires StartsLine(rest)
    ensures var t := VisibilityText(v, DirectionText(d, ModifiersText(m, rest))); Through(t, rest) && StartsLine(t)
  {
    hide Through;
    ThroughSelf(rest);
    var r1 := FlagText(m.isReference, "ref ", rest);
    ThroughWord("ref ", rest, rest);
    var r2 := FlagText(m.isConstant, "constant ", r1);
    ThroughWord("constant ", r1, rest);
    var r3 := FlagText(m.isAbstract, "abstract ", r2);
    ThroughWord("abstract ", r2, rest);
    var r4 := FlagText(m.isDerived, "derived ", r3);
    ThroughWord("derived ", r3, rest);
    DirectionThrough(d, r4, rest);
    VisibilityThrough(v, DirectionText(d, r4), rest);
  }

  lemma DirectionThrough(d: Direction, t: string, rest: string)
    requires Through(t, rest) && StartsLine(t)
    ensures Through(DirectionText(d, t), rest) && StartsLine(DirectionText(d, t))
  {
    hide Through;
    ThroughWord("in ", t, rest);
    ThroughWord("out ", t, rest);
    ThroughWord("inout ", t, rest);
  }

  lemma VisibilityThrough(v: Visibility, t: string, rest: string)
    requires Through(t, rest) && StartsLine(t)
    ensures Through(VisibilityText(v, t), rest) && StartsLine(VisibilityText(v, t))
  {
    hide Through;
    ThroughWord("public ", t, rest);
    ThroughWord("private ", t, rest);
    ThroughWord("protected ", t, rest);
  }

  // ---- declarations ---------------------------------------------------------------------------------------------

  /** No name, literal or comment of the declaration breaks a line. */
  predicate OneLineDecl(d: Decl) {
    match d
    case Package(_, name, members) => OneLine(name) && OneLineMembers(members)
    case Definition(_, _, _, name, supers, redefines, members) =>
      OneLine(name) && OneLineQNames(supers) && OneLineQNames(redefines) && OneLineMembers(members)
    case Usage(_, k, _, _, name, f, ends, value, members) =>
      && OneLine(name) && (k == KW_REF ==> name != "") && OneLineFeatures(f) && OneLineQNames(ends) && OneLineValue(value)
      && OneLineMembers(members)
    case Attribute(_, _, name, f, value) => OneLine(name) && OneLineFeatures(f) && OneLineValue(value)
    case EnumValue(name, value) => OneLine(name) && OneLineValue(value)
    case Import(_, parts, _) => OneLineAll(parts)
    case Alias(_, name, target) => OneLine(name) && OneLineQName(target)
    case Dependency(_, name, sources, targets) => OneLine(name) && OneLineQNames(sources) && OneLineQNames(targets)
    case Doc(body) => OneLine(body)
    case Link(q) => OneLineQName(q)
    case Succession(name, first, steps) => OneLine(name) && OneLineOption(first) && OneLineSteps(steps)
    case Transition(name, first, accept_, guard, effect, target) =>
      && OneLine(name) && OneLineOption(first) && OneLineOption(accept_) && OneLineValue(guard) && OneLineOption(effect)
      && OneLineQName(target)
    case Other => true
  }

  predicate OneLineOption(q: Option<QName>) { q.Some? ==> OneLineQName(q.value) }

  predicate OneLineMembers(ds: seq<Decl>) { forall i | 0 <= i < |ds| :: OneLineDecl(ds[i]) && !ds[i].Link? }

  predicate OneLineSteps(ds: seq<Decl>) { forall i | 0 <= i < |ds| :: OneLineDecl(ds[i]) && (ds[i].Link? || ds[i].Usage?) }

  lemma NameStarts(w: string, t: string)
    requires w != ""
    ensures StartsLine(NameText(w) + t)
  {
  }

  lemma NameThrough(w: string, t: string)
    requires OneLine(w)
    ensures Through(NameText(w) + t, t)
  {
    hide Through, NameText;
    NameOne(w);
    ThroughSelf(t);
    ThroughWord(NameText(w), t, t);
  }

  lemma KindStarts(k: Kind, t: string)
    ensures StartsLine(KindText(k) + t) && OneLine(KindText(k))
  {
    hide MoreKindText;
    MoreKindStarts(k);
  }

  lemma MoreKindStarts(k: Kind)
    ensures StartsLine(MoreKindText(k)) && OneLine(MoreKindText(k))
  {
  }

  lemma {:induction false} BracedFinishes(members: seq<Decl>, depth: nat, rest: string)
    requires OneLineMembers(members) && FollowsBrace(rest, depth)
    ensures Finishes(BracedText(members, depth, rest), depth)
    decreases members, 3
  {
    hide Laid, MembersText, IndentText, OneLineDecl;
    BraceLaid(depth, rest);
    MembersLaid(members, depth + 1, IndentText(depth, "}" + rest));
    var inner := MembersText(members, depth + 1, IndentText(depth, "}" + rest));
    assert " {\n" + inner == " {" + ("\n" + inner);
    assert EndsLine(BracedText(members, depth, rest), depth, " {", inner);
  }

  lemma {:induction false} MembersLaid(ds: seq<Decl>, depth: nat, rest: string)
    requires OneLineMembers(ds) && Laid(rest, depth)
    ensures Laid(MembersText(ds, depth, rest), depth)
    decreases ds, 2
  {
    hide Laid, DeclText, OneLineDecl;
    if ds != [] {
      MembersLaid(ds[1..], depth, rest);
      DeclLaid(ds[0], depth, MembersText(ds[1..], depth, rest));
    }
  }

  /** The body of a package or definition, on its own lines or empty. */
  lemma {:induction false} BodyFinishes(members: seq<Decl>, depth: nat, rest: string)
    requires OneLineMembers(members) && Laid(rest, depth)
    ensures Finishes(if members == [] then " { }\n" + rest else BracedText(members, depth, "\n" + rest), depth)
    decreases members, 4
  {
    hide Laid, OneLineDecl, BracedText;
    if members == [] {
      assert " { }\n" + rest == " { }" + ("\n" + rest);
      assert EndsLine(" { }\n" + rest, depth, " { }", rest);
    } else {
      BracedFinishes(members, depth, "\n" + rest);
    }
  }

  /** Every declaration keeps the layout. */
  lemma {:induction false} DeclLaid(d: Decl, depth: nat, rest: string)
    requires OneLineDecl(d) && !d.Link? && Laid(rest, depth)
    ensures Laid(DeclText(d, depth, rest), depth)
    decreases d, 5
  {
    hide Laid, OneLineDecl;
    match d
    case Package(_, _, _) => PackageLaid(d, depth, rest);
    case Definition(_, _, _, _, _, _, _) => DefinitionLaid(d, depth, rest);
    case Usage(_, _, _, _, _, _, _, _, _) => UsageLaid(d, depth, rest);
    case Succession(_, _, _) => SuccessionLaid(d, depth, rest);
    case Transition(_, _, _, _, _, _) => TransitionLaid(d, depth, rest);
    case Other =>
    case _ => FlatLaid(d, depth, rest);
  }

  lemma {:induction false} PackageLaid(d: Decl, depth: nat, rest: string)
    requires OneLineDecl(d) && d.Package? && Laid(rest, depth)
    ensures Laid(DeclText(d, depth, rest), depth)
    decreases d, 4
  {
    hide Laid, Finishes, Through, OneLineMembers, BracedText, NameText, IndentText;
    var body := if d.members == [] then " { }\n" + rest else BracedText(d.members, depth, "\n" + rest);
    BodyFinishes(d.members, depth, rest);
    NameThrough(d.name, body);
    var t := "package " + (NameText(d.name) + body);
    ThroughWord("package ", NameText(d.name) + body, body);
    VisibilityThrough(d.visibility, t, body);
    ThroughFinishes(VisibilityText(d.visibility, t), body, depth);
    LineLaid(depth, VisibilityText(d.visibility, t));
  }

  lemma {:induction false} DefinitionLaid(d: Decl, depth: nat, rest: string)
    requires OneLineDecl(d) && d.Definition? && Laid(rest, depth)
    ensures Laid(DeclText(d, depth, rest), depth)
    decreases d, 4
  {
    hide Laid, Finishes, Through, OneLineMembers, BracedText, NameText, IndentText, ClauseText, KindText;
    var body := if d.members == [] then " { }\n" + rest else BracedText(d.members, depth, "\n" + rest);
    BodyFinishes(d.members, depth, rest);
    var r1 := ClauseText(" :>> ", d.redefines, body);
    var r2 := ClauseText(" :> ", d.supers, r1);
    ClauseThrough(" :>> ", d.redefines, body);
    ClauseThrough(" :> ", d.supers, r1);
    ThroughTrans(r2, r1, body);
    var t0 := " def " + (NameText(d.name) + r2);
    NameThrough(d.name, r2);
    ThroughTrans(NameText(d.name) + r2, r2, body);
    ThroughWord(" def ", NameText(d.name) + r2, body);
    KindStarts(d.kind, t0);
    ThroughWord(KindText(d.kind), t0, body);
    var t := FlagText(d.isAbstract, "abstract ", KindText(d.kind) + t0);
    ThroughWord("abstract ", KindText(d.kind) + t0, body);
    VisibilityThrough(d.visibility, t, body);
    ThroughFinishes(VisibilityText(d.visibility, t), body, depth);
    LineLaid(depth, VisibilityText(d.visibility, t));
  }

  lemma {:induction false} UsageLaid(d: Decl, depth: nat, rest: string)
    requires OneLineDecl(d) && d.Usage? && Laid(rest, depth)
    ensures Laid(DeclText(d, depth, rest), depth)
    decreases d, 4
  {
    hide Laid, Finishes, Through, OneLineMembers, UsageText, IndentText, StartsLine, ModifiersText, DirectionText, VisibilityText;
    UsageFinishes(d, depth, rest);
    var u := UsageText(d, depth, rest);
    PrefixesThrough(d.visibility, d.direction, d.modifiers, u);
    var t := VisibilityText(d.visibility, DirectionText(d.direction, ModifiersText(d.modifiers, u)));
    ThroughFinishes(t, u, depth);
    LineLaid(depth, t);
  }

  lemma {:induction false} UsageFinishes(d: Decl, depth: nat, rest: string)
    requires OneLineDecl(d) && d.Usage? && Laid(rest, depth)
    ensures Finishes(UsageText(d, depth, rest), depth) && StartsLine(UsageText(d, depth, rest))
    decreases d, 3
  {
    hide Laid, Finishes, Through, OneLineMembers, BracedText, NameText, KindText, FeaturesText, EndsText, ValueText;
    var end := if d.members == [] then ";\n" + rest else BracedText(d.members, depth, "\n" + rest);
    if d.members == [] { SemicolonFinishes(depth, rest); } else { BracedFinishes(d.members, depth, "\n" + rest); }
    var r1 := ValueText(" = ", d.value, end);
    var r2 := EndsText(d.kind, d.ends, r1);
    var tail := FeaturesText(d.features, r2);
    ValueThrough(" = ", d.value, end);
    EndsThrough(d.kind, d.ends, r1);
    FeaturesThrough(d.features, r2);
    ThroughTrans(r2, r1, end);
    ThroughTrans(tail, r2, end);
    if d.kind == KW_REF {
      NameThrough(d.name, tail);
      ThroughTrans(NameText(d.name) + tail, tail, end);
      NameStarts(d.name, tail);
    } else {
      KindThrough(d.kind, d.name, tail);
      ThroughTrans(KindText(d.kind) + SpacedName(d.name, tail), tail, end);
      KindStarts(d.kind, SpacedName(d.name, tail));
    }
    ThroughFinishes(UsageText(d, depth, rest), end, depth);
  }

  lemma KindThrough(k: Kind, name: string, t: string)
    requires OneLine(name)
    ensures Through(KindText(k) + SpacedName(name, t), t)
  {
    hide Through, SpacedName, KindText;
    SpacedThrough(name, t);
    KindStarts(k, t);
    ThroughWord(KindText(k), SpacedName(name, t), t);
  }

  /** The declarations without a body. */
  lemma FlatLaid(d: Decl, depth: nat, rest: string)
    requires OneLineDecl(d) && Laid(rest, depth)
    requires d.Attribute? || d.EnumValue? || d.Import? || d.Alias? || d.Dependency? || d.Doc?
    ensures Laid(DeclText(d, depth, rest), depth)
  {
    hide Laid, OneLineDecl;
    match d
    case Attribute(_, _, _, _, _) => AttributeLaid(d, depth, rest);
    case EnumValue(_, _) => EnumLaid(d, depth, rest);
    case Import(_, _, _) => ImportLaid(d, depth, rest);
    case Alias(_, _, _) => AliasLaid(d, depth, rest);
    case Dependency(_, _, _, _) => DependencyLaid(d, depth, rest);
    case Doc(_) => DocLaid(d, depth, rest);
  }

  lemma AttributeLaid(d: Decl, depth: nat, rest: string)
    requires OneLineDecl(d) && d.Attribute? && Laid(rest, depth)
    ensures Laid(DeclText(d, depth, rest), depth)
  {
    hide Laid, Finishes, Through, NameText, FeaturesText, ValueText, IndentText;
    var end := ";\n" + rest;
    SemicolonFinishes(depth, rest);
    var r1 := ValueText(" = ", d.value, end);
    var r2 := FeaturesText(d.features, r1);
    ValueThrough(" = ", d.value, end);
    FeaturesThrough(d.features, r1);
    ThroughTrans(r2, r1, end);
    NameThrough(d.name, r2);
    ThroughTrans(NameText(d.name) + r2, r2, end);
    var t := "attribute " + (NameText(d.name) + r2);
    ThroughWord("attribute ", NameText(d.name) + r2, end);
    PrefixedLaid(d.visibility, d.modifiers, depth, t, end);
  }

  lemma PrefixedLaid(v: Visibility, m: Modifiers, depth: nat, t: string, end: string)
    requires Through(t, end) && StartsLine(t) && Finishes(end, depth)
    ensures Laid(IndentText(depth, VisibilityText(v, ModifiersText(m, t))), depth)
  {
    hide Laid, Finishes, Through, IndentText, ModifiersText, VisibilityText, StartsLine;
    PrefixesThrough(v, Undirected, m, t);
    var all := VisibilityText(v, DirectionText(Undirected, ModifiersText(m, t)));
    ThroughTrans(all, t, end);
    ThroughFinishes(all, end, depth);
    LineLaid(depth, all);
  }

  lemma EnumLaid(d: Decl, depth: nat, rest: string)
    requires OneLineDecl(d) && d.EnumValue? && Laid(rest, depth)
    ensures Laid(DeclText(d, depth, rest), depth)
  {
    hide Laid, Finishes, Through, ValueText, IndentText;
    var end := ";\n" + rest;
    SemicolonFinishes(depth, rest);
    var r := ValueText(" = ", d.value, end);
    ValueThrough(" = ", d.value, end);
    var w := if d.name == "" then "enum" else NameText(d.name);
    NameOne(d.name);
    if d.name != "" { NameStarts(d.name, r); }
    ThroughWord(w, r, end);
    ThroughFinishes(w + r, end, depth);
    LineLaid(depth, w + r);
  }

  lemma ImportLaid(d: Decl, depth: nat, rest: string)
    requires OneLineDecl(d) && d.Import? && Laid(rest, depth)
    ensures Laid(DeclText(d, depth, rest), depth)
  {
    hide Laid, Finishes, Through, PathText, IndentText;
    var end := ";\n" + rest;
    SemicolonFinishes(depth, rest);
    ThroughSelf(end);
    var r := FlagText(d.wildcard, "::*", end);
    ThroughWord("::*", end, end);
    PathOne(d.parts);
    ThroughWord(PathText(d.parts), r, end);
    var t := "import " + (PathText(d.parts) + r);
    ThroughWord("import ", PathText(d.parts) + r, end);
    VisibleLaid(d.visibility, depth, t, end);
  }

  lemma VisibleLaid(v: Visibility, depth: nat, t: string, end: string)
    requires Through(t, end) && StartsLine(t) && Finishes(end, depth)
    ensures Laid(IndentText(depth, VisibilityText(v, t)), depth)
  {
    hide Laid, Finishes, Through, IndentText, VisibilityText, StartsLine;
    VisibilityThrough(v, t, end);
    ThroughFinishes(VisibilityText(v, t), end, depth);
    LineLaid(depth, VisibilityText(v, t));
  }

  lemma AliasLaid(d: Decl, depth: nat, rest: string)
    requires OneLineDecl(d) && d.Alias? && Laid(rest, depth)
    ensures Laid(DeclText(d, depth, rest), depth)
  {
    hide Laid, Finishes, Through, QNameText, NameText, IndentText;
    var end := ";\n" + rest;
    SemicolonFinishes(depth, rest);
    var r1 := QNameText(d.target, end);
    QNameThrough(d.target, end);
    var r2 := " for " + r1;
    ThroughWord(" for ", r1, end);
    NameThrough(d.name, r2);
    ThroughTrans(NameText(d.name) + r2, r2, end);
    ThroughWord("alias ", NameText(d.name) + r2, end);
    VisibleLaid(d.visibility, depth, "alias " + (NameText(d.name) + r2), end);
  }

  lemma DependencyLaid(d: Decl, depth: nat, rest: string)
    requires OneLineDecl(d) && d.Dependency? && Laid(rest, depth)
    ensures Laid(DeclText(d, depth, rest), depth)
  {
    hide Laid, Finishes, Through, NamesText, SpacedName, IndentText;
    var end := ";\n" + rest;
    SemicolonFinishes(depth, rest);
    var r1 := NamesText(d.targets, end);
    NamesThrough(d.targets, end);
    var r2 := " to " + r1;
    ThroughWord(" to ", r1, end);
    var r3 := NamesText(d.sources, r2);
    NamesThrough(d.sources, r2);
    ThroughTrans(r3, r2, end);
    var r4 := " from " + r3;
    ThroughWord(" from ", r3, end);
    var r5 := SpacedName(d.name, r4);
    SpacedThrough(d.name, r4);
    ThroughTrans(r5, r4, end);
    ThroughWord("dependency", r5, end);
    VisibleLaid(d.visibility, depth, "dependency" + r5, end);
  }

  lemma DocLaid(d: Decl, depth: nat, rest: string)
    requires OneLineDecl(d) && d.Doc? && Laid(rest, depth)
    ensures Laid(DeclText(d, depth, rest), depth)
  {
    hide Laid, Finishes, Through, IndentText;
    var end := "*/\n" + rest;
    assert end == "*/" + ("\n" + rest);
    assert Finishes(end, depth) by { StarFinishes(depth, rest); }
    ThroughSelf(end);
    ThroughWord(d.body, end, end);
    var t := "/**" + (d.body + end);
    ThroughWord("/**", d.body + end, end);
    ThroughFinishes(t, end, depth);
    LineLaid(depth, t);
  }

  lemma StarFinishes(depth: nat, rest: string)
    requires Laid(rest, depth)
    ensures Finishes("*/\n" + rest, depth)
  {
    hide Laid;
    assert "*/\n" + rest == "*/" + ("\n" + rest);
    assert EndsLine("*/\n" + rest, depth, "*/", rest);
  }

  lemma TransitionLaid(d: Decl, depth: nat, rest: string)
    requires OneLineDecl(d) && d.Transition? && Laid(rest, depth)
    ensures Laid(DeclText(d, depth, rest), depth)
  {
    hide Laid, Finishes, Through, QNameText, SpacedName, OptionalText, ValueText, IndentText;
    var end := ";\n" + rest;
    SemicolonFinishes(depth, rest);
    var r1 := " then " + QNameText(d.target, end);
    QNameThrough(d.target, end);
    ThroughWord(" then ", QNameText(d.target, end), end);
    var r2 := OptionalText(" do ", d.effect, r1);
    OptionalThrough(" do ", d.effect, r1);
    ThroughTrans(r2, r1, end);
    var r3 := ValueText(" if ", d.guard, r2);
    ValueThrough(" if ", d.guard, r2);
    ThroughTrans(r3, r2, end);
    var r4 := OptionalText(" accept ", d.accept_, r3);
    OptionalThrough(" accept ", d.accept_, r3);
    ThroughTrans(r4, r3, end);
    var r5 := OptionalText(" first ", d.first, r4);
    OptionalThrough(" first ", d.first, r4);
    ThroughTrans(r5, r4, end);
    var r6 := SpacedName(d.name, r5);
    SpacedThrough(d.name, r5);
    ThroughTrans(r6, r5, end);
    ThroughWord("transition", r6, end);
    ThroughFinishes("transition" + r6, end, depth);
    LineLaid(depth, "transition" + r6);
  }

  // ---- successions ----------------------------------------------------------------------------------------------

  lemma {:induction false} SuccessionLaid(d: Decl, depth: nat, rest: string)
    requires OneLineDecl(d) && d.Succession? && Laid(rest, depth)
    ensures Laid(DeclText(d, depth, rest), depth)
    decreases d, 4
  {
    hide Laid, Finishes, Through, QNameText, SpacedName, OptionalText, IndentText, StepText, StepsText, OneLineSteps, OneLineQName;
    var end := ";\n" + rest;
    SemicolonFinishes(depth, rest);
    if d.name == "" && d.first.Some? && d.steps == [] {
      QNameThrough(d.first.value, end);
      ThroughWord("first ", QNameText(d.first.value, end), end);
      ThroughFinishes("first " + QNameText(d.first.value, end), end, depth);
    } else if d.name == "" && d.first.None? && d.steps != [] {
      ThenLaid(d, depth, rest);
    } else {
      var r1 := StepsText(d.steps, depth, end);
      StepsFinish(d, d.steps, depth, end);
      var r2 := OptionalText(" first ", d.first, r1);
      OptionalThrough(" first ", d.first, r1);
      var r3 := SpacedName(d.name, r2);
      SpacedThrough(d.name, r2);
      ThroughTrans(r3, r2, r1);
      ThroughWord("succession", r3, r1);
      ThroughFinishes("succession" + r3, r1, depth);
    }
    LineLaid(depth, SuccessionText(d, depth, rest));
  }

  lemma {:induction false} ThenLaid(d: Decl, depth: nat, rest: string)
    requires OneLineDecl(d) && d.Succession? && d.steps != [] && Laid(rest, depth)
    ensures Finishes("then " + StepText(d.steps[0], depth, StepsText(d.steps[1..], depth, ";\n" + rest)), depth)
    decreases d, 3
  {
    hide Laid, Finishes, Through, StepText, StepsText, OneLineDecl;
    var end := ";\n" + rest;
    SemicolonFinishes(depth, rest);
    assert OneLineSteps(d.steps) by { StepsOf(d); }
    var r1 := StepsText(d.steps[1..], depth, end);
    StepsFinish(d, d.steps[1..], depth, end);
    StepFinishes(d.steps[0], depth, r1);
    var r2 := StepText(d.steps[0], depth, r1);
    ThroughSelf(r2);
    ThroughWord("then ", r2, r2);
    ThroughFinishes("then " + r2, r2, depth);
  }

  lemma StepsOf(d: Decl)
    requires OneLineDecl(d) && d.Succession?
    ensures OneLineSteps(d.steps)
  {
  }

  lemma {:induction false} StepsFinish(d: Decl, steps: seq<Decl>, depth: nat, rest: string)
    requires OneLineSteps(steps) && Finishes(rest, depth) && forall i | 0 <= i < |steps| :: steps[i] < d
    ensures Finishes(StepsText(steps, depth, rest), depth)
    decreases d, 2, |steps|
  {
    hide Finishes, Through, StepText, OneLineDecl;
    if steps != [] {
      var r1 := StepsText(steps[1..], depth, rest);
      StepsFinish(d, steps[1..], depth, rest);
      StepFinishes(steps[0], depth, r1);
      var r2 := StepText(steps[0], depth, r1);
      ThroughSelf(r2);
      ThroughWord(" then ", r2, r2);
      ThroughFinishes(" then " + r2, r2, depth);
    }
  }

  lemma {:induction false} StepFinishes(s: Decl, depth: nat, rest: string)
    requires OneLineDecl(s) && (s.Link? || s.Usage?) && Finishes(rest, depth)
    ensures Finishes(StepText(s, depth, rest), depth)
    decreases s, 2
  {
    hide Finishes, Through, QNameText, SpacedName, ClauseText, BracedText, OneLineMembers, OneLineQName;
    if s.Link? {
      QNameThrough(s.ref, rest);
      ThroughFinishes(QNameText(s.ref, rest), rest, depth);
    } else {
      var r1 := if s.members == [] then rest else BracedText(s.members, depth, rest);
      if s.members != [] { BracedFinishes(s.members, depth, rest); }
      var r2 := ClauseText(" : ", s.features.types, r1);
      ClauseThrough(" : ", s.features.types, r1);
      var r3 := SpacedName(s.name, r2);
      SpacedThrough(s.name, r2);
      ThroughTrans(r3, r2, r1);
      ThroughWord("action", r3, r1);
      ThroughFinishes("action" + r3, r1, depth);
    }
  }

  /** A printed program consists of whole lines, each indented by four blanks for every brace that is open there: a line
      ends with `{` exactly if its body follows, and begins with `}` exactly if it closes one. */
  lemma ProgramLaid(ds: seq<Decl>)
    requires OneLineMembers(ds)
    ensures Laid(ProgramText(ds), 0)
  {
    hide Laid, MembersText, OneLineMembers;
    assert Laid("", 0) by { EmptyLaid(); }
    MembersLaid(ds, 0, "");
  }

  lemma EmptyLaid()
    ensures Laid("", 0)
  {
  }
}
