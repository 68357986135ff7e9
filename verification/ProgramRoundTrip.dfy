/** Printing a whole program with the emitter and reading the text back with the scanner and
    the parser. */
module ProgramRoundTrip {
  import opened Basics
  import opened Tokens
  import opened Lexical
  import opened Scanning
  import opened Syntax
  import opened Outline
  import opened Pratt
  import opened ParserCommon
  import opened RoundTrip
  import opened DeclGrammar
  import opened DeclSpelling
  import opened DeclReading
  import opened DeclPrinting
  import opened DeclEmitter
  import opened DeclParser
  import opened DeclLexing

  // ---- printing produces no scanner error ----------------------------------------------

  lemma {:induction false} PartsClean(parts: seq<string>, rest: seq<Token>)
    requires Clean(rest)
    ensures Clean(PartsToks(parts, rest))
    ensures Commentless(rest) ==> Commentless(PartsToks(parts, rest))
    decreases |parts|
  {
    if parts != [] { PartsClean(parts[1..], rest); }
  }

  lemma QNameClean(q: QName, rest: seq<Token>)
    requires Clean(rest)
    ensures Clean(QNameToks(q, rest))
    ensures Commentless(rest) ==> Commentless(QNameToks(q, rest))
  {
    if q.parts != [] { PartsClean(q.parts[1..], rest); }
  }

  lemma {:induction false} QNamesClean(qs: seq<QName>, rest: seq<Token>)
    requires Clean(rest)
    ensures Clean(QNamesToks(qs, rest))
    ensures Commentless(rest) ==> Commentless(QNamesToks(qs, rest))
    decreases |qs|
  {
    if qs != [] {
      QNamesClean(qs[1..], rest);
      QNameClean(qs[0], if |qs| == 1 then rest else [Sym(COMMA)] + QNamesToks(qs[1..], rest));
    }
  }

  lemma ActionClean(q: QName, rest: seq<Token>)
    requires Clean(rest)
    ensures Clean(ActionToks(q, rest))
    ensures Commentless(rest) ==> Commentless(ActionToks(q, rest))
  {
    QNameClean(q, rest);
  }

  lemma OptionalClean(k: Kind, q: Option<QName>, rest: seq<Token>)
    requires Clean(rest)
    ensures Clean(OptionalToks(k, q, rest))
    ensures k != KW_COMMENT && Commentless(rest) ==> Commentless(OptionalToks(k, q, rest))
  {
    if q.Some? { QNameClean(q.value, rest); }
  }

  lemma MultiplicityClean(m: Option<Multiplicity>, rest: seq<Token>)
    requires Clean(rest)
    ensures Clean(MultiplicityToks(m, rest))
    ensures Commentless(rest) ==> Commentless(MultiplicityToks(m, rest))
  {
    hide Clean, Commentless;
    if m.Some? {
      var close := [Sym(RIGHT_BRACKET)] + rest;
      PutClean(Sym(RIGHT_BRACKET), rest);
      var upper := close;
      if m.value.upper.Some? {
        upper := [BoundTok(m.value.upper.value)] + close;
        PutClean(BoundTok(m.value.upper.value), close);
        PutClean(Sym(DOT_DOT), upper);
        upper := [Sym(DOT_DOT)] + upper;
      }
      PutClean(BoundTok(m.value.lower), upper);
      PutClean(Sym(LEFT_BRACKET), [BoundTok(m.value.lower)] + upper);
    }
  }

  lemma PutClean(t: Token, rest: seq<Token>)
    requires Clean(rest) && !t.Bad?
    ensures Clean([t] + rest)
    ensures t != Sym(KW_COMMENT) && Commentless(rest) ==> Commentless([t] + rest)
  {
  }

  lemma FeaturesClean(f: Features, rest: seq<Token>)
    requires Clean(rest)
    ensures Clean(FeaturesToks(f, rest))
    ensures Commentless(rest) ==> Commentless(FeaturesToks(f, rest))
  {
    hide QNamesToks, MultiplicityToks;
    MultiplicityClean(f.multiplicity, rest);
    var more := MultiplicityToks(f.multiplicity, rest);
    ClauseClean(COLON_GREATER_GREATER, f.redefines, more);
    more := ClauseToks(COLON_GREATER_GREATER, f.redefines, more);
    ClauseClean(COLON_GREATER, f.supers, more);
    more := ClauseToks(COLON_GREATER, f.supers, more);
    ClauseClean(COLON, f.types, more);
  }

  lemma ClauseClean(k: Kind, qs: seq<QName>, rest: seq<Token>)
    requires Clean(rest)
    ensures Clean(ClauseToks(k, qs, rest))
    ensures k != KW_COMMENT && Commentless(rest) ==> Commentless(ClauseToks(k, qs, rest))
  {
    QNamesClean(qs, rest);
  }

  lemma ValueClean(v: Option<Expr>, rest: seq<Token>)
    requires Clean(rest)
    ensures Clean(ValueToks(v, rest)) && Clean(GuardToks(v, rest))
    ensures GoodValue(v) && Commentless(rest) ==> Commentless(ValueToks(v, rest)) && Commentless(GuardToks(v, rest))
  {
    if v.Some? { SpellClean(v.value); }
  }

  lemma ModifiersClean(m: Modifiers, rest: seq<Token>)
    requires Clean(rest)
    ensures Clean(ModifiersToks(m, rest))
    ensures Commentless(rest) ==> Commentless(ModifiersToks(m, rest))
  {
  }

  lemma PrefixesClean(v: Visibility, d: Direction, rest: seq<Token>)
    requires Clean(rest)
    ensures Clean(VisibilityToks(v, rest)) && Clean(VisibilityToks(v, DirectionToks(d, rest)))
    ensures Commentless(rest) ==> Commentless(VisibilityToks(v, rest)) && Commentless(VisibilityToks(v, DirectionToks(d, rest)))
  {
  }

  lemma EndsClean(k: Kind, ends: seq<QName>, rest: seq<Token>)
    requires Clean(rest)
    ensures Clean(EndsToks(k, ends, rest))
    ensures Commentless(rest) ==> Commentless(EndsToks(k, ends, rest))
  {
    if |ends| == 2 {
      QNameClean(ends[1], rest);
      QNameClean(ends[0], [Sym(KW_TO)] + QNameToks(ends[1], rest));
    }
  }

  lemma {:induction false} MembersClean(ds: seq<Decl>, rest: seq<Token>)
    requires Clean(rest)
    ensures Clean(MembersToks(ds, rest))
    ensures (forall i | 0 <= i < |ds| :: Printable(ds[i])) && Commentless(rest) ==> Commentless(MembersToks(ds, rest))
    decreases ds, 2
  {
    hide DeclToks, Clean;
    if ds != [] {
      MembersClean(ds[1..], rest);
      DeclClean(ds[0], MembersToks(ds[1..], rest));
    }
  }

  lemma {:induction false} BodyClean(members: seq<Decl>, rest: seq<Token>)
    requires Clean(rest)
    ensures Clean([Sym(LEFT_BRACE)] + MembersToks(members, [Sym(RIGHT_BRACE)] + rest))
    ensures (forall i | 0 <= i < |members| :: Printable(members[i])) && Commentless(rest) ==> Commentless([Sym(LEFT_BRACE)] + MembersToks(members, [Sym(RIGHT_BRACE)] + rest))
    decreases members, 3
  {
    hide MembersToks;
    MembersClean(members, [Sym(RIGHT_BRACE)] + rest);
  }

  lemma {:induction false} StepsClean(steps: seq<Decl>, rest: seq<Token>)
    requires Clean(rest)
    ensures Clean(StepsToks(steps, rest))
    ensures (forall i | 0 <= i < |steps| :: GoodStepHead(steps[i]) && PrintableStep(steps[i])) && Commentless(rest) ==> Commentless(StepsToks(steps, rest))
    decreases steps, 4
  {
    hide DeclToks, MembersToks;
    if steps != [] {
      StepsClean(steps[1..], rest);
      var s, more := steps[0], StepsToks(steps[1..], rest);
      if s.Usage? {
        BodyClean(s.members, more);
        var body := if s.members == [] then more else [Sym(LEFT_BRACE)] + MembersToks(s.members, [Sym(RIGHT_BRACE)] + more);
        ClauseClean(COLON, s.features.types, body);
      } else {
        DeclClean(s, more);
      }
    }
  }

  lemma {:induction false} DeclClean(d: Decl, rest: seq<Token>)
    requires Clean(rest)
    ensures Clean(DeclToks(d, rest))
    ensures Printable(d) && Commentless(rest) ==> Commentless(DeclToks(d, rest))
    decreases d, 6
  {
    hide Clean, MembersToks, UsageToks, StepsToks;
    match d
    case Package(v, name, members) => PackageClean(d, rest);
    case Definition(_, _, _, _, _, _, members) => DefinitionClean(d, rest);
    case Usage(v, k, dir, m, name, f, ends, value, members) => PrefixedUsageClean(d, rest);
    case Succession(name, first, steps) => SuccessionClean(d, rest);
    case Link(q) => ActionClean(q, rest);
    case Attribute(_, _, _, _, _) => AttributeClean(d, rest);
    case Transition(_, _, _, _, _, _) => TransitionClean(d, rest);
    case Import(_, _, _) => ImportClean(d, rest);
    case Dependency(_, _, _, _) => DependencyClean(d, rest);
    case Other =>
    case _ => PlainClean(d, rest);
  }

  /** The simplest declarations. */
  lemma PlainClean(d: Decl, rest: seq<Token>)
    requires d.EnumValue? || d.Alias? || d.Doc?
    requires Clean(rest)
    ensures Clean(DeclToks(d, rest))
    ensures Printable(d) && Commentless(rest) ==> Commentless(DeclToks(d, rest))
  {
    hide ValueToks, QNameToks;
    var end := [Sym(SEMICOLON)] + rest;
    match d
    case EnumValue(name, value) => ValueClean(value, end);
    case Alias(v, name, target) => QNameClean(target, end);
    case Doc(body) =>
  }

  lemma ImportClean(d: Decl, rest: seq<Token>)
    requires d.Import? && Clean(rest)
    ensures Clean(DeclToks(d, rest))
    ensures Printable(d) && Commentless(rest) ==> Commentless(DeclToks(d, rest))
  {
    hide QNameToks;
    var end := [Sym(SEMICOLON)] + rest;
    QNameClean(QName(false, d.parts), if d.wildcard then [Sym(COLON_COLON)] + ([Sym(STAR)] + end) else end);
  }

  lemma DependencyClean(d: Decl, rest: seq<Token>)
    requires d.Dependency? && Clean(rest)
    ensures Clean(DeclToks(d, rest))
    ensures Printable(d) && Commentless(rest) ==> Commentless(DeclToks(d, rest))
  {
    hide QNamesToks;
    var end := [Sym(SEMICOLON)] + rest;
    QNamesClean(d.targets, end);
    QNamesClean(d.sources, [Sym(KW_TO)] + QNamesToks(d.targets, end));
  }

  lemma AttributeClean(d: Decl, rest: seq<Token>)
    requires d.Attribute? && Clean(rest)
    ensures Clean(DeclToks(d, rest))
    ensures Printable(d) && Commentless(rest) ==> Commentless(DeclToks(d, rest))
  {
    hide ModifiersToks, FeaturesToks, ValueToks;
    var end := [Sym(SEMICOLON)] + rest;
    ValueClean(d.value, end);
    FeaturesClean(d.features, ValueToks(d.value, end));
    var words := [Sym(KW_ATTRIBUTE)] + NameToks(d.name, FeaturesToks(d.features, ValueToks(d.value, end)));
    ModifiersClean(d.modifiers, words);
    PrefixesClean(d.visibility, Undirected, ModifiersToks(d.modifiers, words));
  }

  lemma {:induction false} PackageClean(d: Decl, rest: seq<Token>)
    requires d.Package? && Clean(rest)
    ensures Clean(DeclToks(d, rest))
    ensures Printable(d) && Commentless(rest) ==> Commentless(DeclToks(d, rest))
    decreases d, 5
  {
    hide MembersToks;
    BodyClean(d.members, rest);
  }

  lemma {:induction false} DefinitionClean(d: Decl, rest: seq<Token>)
    requires d.Definition? && Clean(rest)
    ensures Clean(DeclToks(d, rest))
    ensures Printable(d) && Commentless(rest) ==> Commentless(DeclToks(d, rest))
    decreases d, 5
  {
    hide MembersToks, ClauseToks;
    BodyClean(d.members, rest);
    var body := [Sym(LEFT_BRACE)] + MembersToks(d.members, [Sym(RIGHT_BRACE)] + rest);
    ClauseClean(COLON_GREATER_GREATER, d.redefines, body);
    ClauseClean(COLON_GREATER, d.supers, ClauseToks(COLON_GREATER_GREATER, d.redefines, body));
  }

  lemma {:induction false} PrefixedUsageClean(d: Decl, rest: seq<Token>)
    requires d.Usage? && Clean(rest)
    ensures Clean(DeclToks(d, rest))
    ensures Printable(d) && Commentless(rest) ==> Commentless(DeclToks(d, rest))
    decreases d, 5
  {
    hide MembersToks, UsageToks, ModifiersToks;
    UsageClean(d, rest);
    var words := FlagToks(d.kind != KW_REF, d.kind, UsageToks(d, rest));
    ModifiersClean(d.modifiers, words);
    PrefixesClean(d.visibility, d.direction, ModifiersToks(d.modifiers, words));
  }

  lemma {:induction false} SuccessionClean(d: Decl, rest: seq<Token>)
    requires d.Succession? && Clean(rest)
    ensures Clean(DeclToks(d, rest))
    ensures Printable(d) && Commentless(rest) ==> Commentless(DeclToks(d, rest))
    decreases d, 5
  {
    hide MembersToks, StepsToks, ActionToks;
    var end := [Sym(SEMICOLON)] + rest;
    StepsClean(d.steps, end);
    if d.first.Some? {
      ActionClean(d.first.value, end);
      ActionClean(d.first.value, StepsToks(d.steps, end));
    }
  }

  lemma TransitionClean(d: Decl, rest: seq<Token>)
    requires d.Transition? && Clean(rest)
    ensures Clean(DeclToks(d, rest))
    ensures Printable(d) && Commentless(rest) ==> Commentless(DeclToks(d, rest))
  {
    hide GuardToks, OptionalToks, QNameToks;
    QNameClean(d.target, [Sym(SEMICOLON)] + rest);
    var more := [Sym(KW_THEN)] + QNameToks(d.target, [Sym(SEMICOLON)] + rest);
    OptionalClean(KW_DO, d.effect, more);
    more := OptionalToks(KW_DO, d.effect, more);
    ValueClean(d.guard, more);
    more := GuardToks(d.guard, more);
    OptionalClean(KW_ACCEPT, d.accept_, more);
    more := OptionalToks(KW_ACCEPT, d.accept_, more);
    OptionalClean(KW_FIRST, d.first, more);
  }

  lemma {:induction false} UsageClean(d: Decl, rest: seq<Token>)
    requires d.Usage? && Clean(rest)
    ensures Clean(UsageToks(d, rest))
    ensures Printable(d) && Commentless(rest) ==> Commentless(UsageToks(d, rest))
    decreases d, 4
  {
    hide MembersToks, FeaturesToks, ValueToks, EndsToks;
    var end := [Sym(SEMICOLON)] + rest;
    var body := if d.members == [] then end else [Sym(LEFT_BRACE)] + MembersToks(d.members, [Sym(RIGHT_BRACE)] + rest);
    BodyClean(d.members, rest);
    ValueClean(d.value, body);
    EndsClean(d.kind, d.ends, ValueToks(d.value, body));
    FeaturesClean(d.features, EndsToks(d.kind, d.ends, ValueToks(d.value, body)));
  }

  // ---- the whole trip ---------------------------------------------------------------------

  /** The grammar reads the tokens of a printed program as that program, reread. */
  lemma {:induction false} ReadProgram(before: seq<Decl>, ds: seq<Decl>)
    requires forall i | 0 <= i < |ds| :: IsMember(ds[i]) && Printable(ds[i])
    ensures ProgramOf(before, MembersToks(ds, [])) == Ok(before + ReparsedAll(ds), [])
    decreases |ds|
  {
    hide DeclGrammar.Declaration, DeclToks, Printable, Reparsed;
    if ds == [] {
      assert before + [] == before;
    } else {
      var more := MembersToks(ds[1..], []);
      ReadDeclaration(ds[0], more);
      DeclarationHead(DeclToks(ds[0], more));
      ReadProgram(before + [Reparsed(ds[0])], ds[1..]);
      assert before + [Reparsed(ds[0])] + ReparsedAll(ds[1..]) == before + ReparsedAll(ds);
    }
  }

  /** Every printable program is parsed back from its canonical text without an error, as the
      same declarations with every expression reread. */
  method PrintAndParseProgram(ds: seq<Decl>) returns (back: seq<Decl>, clean: bool)
    requires forall i | 0 <= i < |ds| :: IsMember(ds[i]) && Printable(ds[i])
    requires IsSource(ProgramText(ds))
    ensures clean && back == ReparsedAll(ds)
  {
    hide Clean, Lex, ProgramText, MembersToks, Printable, Reparsed, ReparsedAll, IsSource, DeclGrammar.Declaration,
         ProgramOf;
    var text := EmitProgram(ds);
    LexProgram(ds);
    CleanNone();
    MembersClean(ds, []);
    ReadProgram([], ds);
    assert [] + ReparsedAll(ds) == ReparsedAll(ds);
    var p;
    back, p := DeclParser.Parse(text);
    clean := !p.hadError;
  }
}
