/** The declaration parser: it terminates on every input, keeps the panic-mode invariants, and
    without an error builds exactly the nodes of `DeclGrammar`. */
module DeclParser {
  import opened Basics
  import opened Tokens
  import opened Syntax
  import opened Outline
  import opened Pratt
  import opened DeclGrammar
  import opened ParserCommon
  import opened Lexical
  import opened Scanning
  import opened ExprParser
  import opened ClauseParser

  /** `b` is reached from `a` by consuming tokens, with or without recovery, which alone ends a panic. */
  predicate Reaches(a: Snapshot, b: Snapshot) {
    && IsSuffix(b.rest, a.rest) && |b.rest| <= |a.rest|
    && (Clean(a.rest) ==> Clean(b.rest)) && (Readable(a.rest) ==> Readable(b.rest))
    && a.syncs <= b.syncs && (a.panic && b.syncs == a.syncs ==> b.panic)
  }

  lemma FollowsReaches(a: Snapshot, b: Snapshot)
    requires Follows(a, b)
    ensures Reaches(a, b)
  {
    hide IsSuffix, Clean, Readable;
    if Readable(a.rest) { SuffixReadable(b.rest, a.rest); }
  }

  lemma ReachesRefl(a: Snapshot)
    ensures Reaches(a, a)
  {
    SuffixRefl(a.rest);
  }

  lemma ReachesTrans(a: Snapshot, b: Snapshot, c: Snapshot)
    requires Reaches(a, b) && Reaches(b, c)
    ensures Reaches(a, c)
  {
    hide IsSuffix, Clean, Readable;
    SuffixTrans(a.rest, b.rest, c.rest);
  }

  lemma ReachesThen(a: Snapshot, b: Snapshot, c: Snapshot)
    requires Reaches(a, b) && Follows(b, c)
    ensures Reaches(a, c) && |c.rest| <= |b.rest|
    ensures Readable(a.rest) ==> Readable(b.rest)
    ensures a.syncs <= b.syncs && (b.syncs == a.syncs && a.panic ==> b.panic)
  {
    hide IsSuffix, Clean, Readable;
    FollowsReaches(b, c);
    ReachesTrans(a, b, c);
  }

  // ---- loops that skip ------------------------------------------------------------------

  /** `skipBracedBlock`: the opening brace is already consumed. */
  method SkipBracedBlock(p: Parser)
    requires p.Valid()
    modifies p, p.sc
    ensures p.Valid() && Follows(old(p.Snap()), p.Snap())
    ensures Leads(old(p.Snap()), Ok((), Closed(LEFT_BRACE, RIGHT_BRACE, old(p.rest), 1)), p.Snap(), Ok((), p.rest))
  {
    SkipNested(p, LEFT_BRACE, RIGHT_BRACE);
  }

  /** Advances to the next of the tokens `stops`, or to the end. */
  method SkipUntil(p: Parser, stops: set<Kind>)
    requires p.Valid()
    modifies p, p.sc
    ensures p.Valid() && Follows(old(p.Snap()), p.Snap())
    ensures Leads(old(p.Snap()), Ok((), From(stops, old(p.rest))), p.Snap(), Ok((), p.rest))
  {
    hide Clean, IsSuffix, Lookahead;
    ghost var a := p.Snap();
    FollowsRefl(a);
    while p.current != Sym(EOF) && !(p.current.Sym? && p.current.kind in stops)
      invariant p.Valid() && Follows(a, p.Snap())
      invariant Leads(a, Ok((), From(stops, a.rest)), p.Snap(), Ok((), From(stops, p.rest)))
      decreases |p.rest|
    {
      ghost var b := p.Snap();
      p.Advance();
      FollowsFrom(a, b, p.Snap());
    }
  }

  /** The name of a metadata application. */
  method SkipMetadataName(p: Parser)
    requires p.Valid()
    modifies p, p.sc
    ensures p.Valid() && Follows(old(p.Snap()), p.Snap())
    ensures Leads(old(p.Snap()), Ok((), MetadataName(OptionalName(old(p.rest)).1)), p.Snap(), Ok((), p.rest))
  {
    hide Clean, IsSuffix, Lookahead;
    ghost var a := p.Snap();
    var w := TakeName(p);
    while p.current == Sym(COLON_COLON)
      invariant p.Valid() && Follows(a, p.Snap())
      invariant Leads(a, Ok((), MetadataName(OptionalName(a.rest).1)), p.Snap(), Ok((), MetadataName(p.rest)))
      decreases |p.rest|
    {
      ghost var b := p.Snap();
      p.Advance();
      FollowsFrom(a, b, p.Snap());
      ghost var c := p.Snap();
      w := TakeName(p);
      FollowsFrom(a, c, p.Snap());
    }
  }

  method SkipMetadataTail(p: Parser) returns (statement: bool)
    requires p.Valid()
    modifies p, p.sc
    ensures p.Valid() && Follows(old(p.Snap()), p.Snap())
    ensures Leads(old(p.Snap()), Ok(MetadataTail(old(p.rest)).0, MetadataTail(old(p.rest)).1), p.Snap(), Ok(statement, p.rest))
  {
    hide Clean, IsSuffix, Lookahead, From, Closed;
    ghost var a := p.Snap();
    FollowsRefl(a);
    var about := p.Match(KW_ABOUT);
    if about {
      ghost var b := p.Snap();
      SkipUntil(p, {LEFT_BRACE, SEMICOLON});
      FollowsFrom(a, b, p.Snap());
    }
    ghost var c := p.Snap();
    var braced := p.Match(LEFT_BRACE);
    if braced {
      FollowsFrom(a, c, p.Snap());
      ghost var d := p.Snap();
      SkipBracedBlock(p);
      FollowsFrom(a, d, p.Snap());
    }
    ghost var e := p.Snap();
    var ended := p.Match(SEMICOLON);
    if ended { FollowsFrom(a, e, p.Snap()); }
    statement := about || braced || ended;
  }

  /** One metadata application: `#name` or `@name` with its optional tail. */
  method SkipOneMetadata(p: Parser) returns (statement: bool)
    requires p.Valid() && StartsMetadata(p.current) && p.rest != []
    modifies p, p.sc
    ensures p.Valid() && Consumes(old(p.Snap()), p.Snap())
    ensures Leads(old(p.Snap()), Ok(OneMetadata(old(p.rest)).0, OneMetadata(old(p.rest)).1), p.Snap(), Ok(statement, p.rest))
  {
    hide Clean, IsSuffix, Lookahead, MetadataTail, MetadataName, OptionalName;
    ghost var a := p.Snap();
    var short := p.current == Sym(HASH);
    p.Advance();
    ghost var b := p.Snap();
    SkipMetadataName(p);
    FollowsFrom(a, b, p.Snap());
    if short {
      return false;
    }
    ghost var c := p.Snap();
    statement := SkipMetadataTail(p);
    FollowsFrom(a, c, p.Snap());
  }

  /** `skipMetadataPrefixIsStatement`. */
  method SkipMetadata(p: Parser) returns (statement: bool)
    requires p.Valid()
    modifies p, p.sc
    ensures p.Valid() && Follows(old(p.Snap()), p.Snap())
    ensures !StartsMetadata(old(p.current)) ==> p.Snap() == old(p.Snap()) && !statement && p.current == old(p.current)
    ensures StartsMetadata(old(p.current)) ==> Consumes(old(p.Snap()), p.Snap())
    ensures Leads(old(p.Snap()), Ok(Metadata(false, old(p.rest)).0, Metadata(false, old(p.rest)).1), p.Snap(),
                  Ok(statement, p.rest))
  {
    hide Clean, IsSuffix, Lookahead, OneMetadata;
    ghost var a := p.Snap();
    statement := false;
    FollowsRefl(a);
    while StartsMetadata(p.current)
      invariant p.Valid() && Follows(a, p.Snap())
      invariant (p.Snap() == a && !statement) || |p.rest| < |a.rest|
      invariant !StartsMetadata(old(p.current)) ==> p.Snap() == a && p.current == old(p.current)
      invariant Leads(a, Ok(Metadata(false, a.rest).0, Metadata(false, a.rest).1), p.Snap(),
                      Ok(Metadata(statement, p.rest).0, Metadata(statement, p.rest).1))
      decreases |p.rest|
    {
      ghost var b := p.Snap();
      var s := SkipOneMetadata(p);
      FollowsFrom(a, b, p.Snap());
      statement := statement || s;
    }
  }

  /** An optional `<short>` annotation. */
  method SkipShortName(p: Parser)
    requires p.Valid()
    modifies p, p.sc
    ensures p.Valid() && Follows(old(p.Snap()), p.Snap())
    ensures old(p.current) != Sym(LESS) ==> p.Snap() == old(p.Snap()) && p.current == old(p.current)
    ensures Leads(old(p.Snap()), ShortName(old(p.rest)), p.Snap(), Ok((), p.rest))
  {
    hide Clean, IsSuffix, Lookahead;
    ghost var a := p.Snap();
    FollowsRefl(a);
    var less := p.Match(LESS);
    if less {
      ghost var b := p.Snap();
      var w := TakeName(p);
      FollowsFrom(a, b, p.Snap());
      ghost var c := p.Snap();
      Require(p, GREATER);
      FollowsFrom(a, c, p.Snap());
    }
  }

  /** `parseFeatureModifiers`. */
  method ParseModifiers(p: Parser) returns (m: Modifiers)
    requires p.Valid()
    modifies p, p.sc
    ensures p.Valid() && Follows(old(p.Snap()), p.Snap())
    ensures Leads(old(p.Snap()), Ok(ModifiersOf(old(p.rest)).0, ModifiersOf(old(p.rest)).1), p.Snap(), Ok(m, p.rest))
    ensures m != PLAIN || old(p.Snap()) == p.Snap()
    ensures m != PLAIN ==> Consumes(old(p.Snap()), p.Snap())
  {
    hide Clean, IsSuffix, Lookahead;
    ghost var a := p.Snap();
    FollowsRefl(a);
    var derived := p.Match(KW_DERIVED);
    ghost var b := p.Snap();
    var abstract_ := p.Match(KW_ABSTRACT);
    if abstract_ { FollowsFrom(a, b, p.Snap()); }
    ghost var c := p.Snap();
    var constant := p.Match(KW_CONSTANT);
    if constant { FollowsFrom(a, c, p.Snap()); }
    ghost var d := p.Snap();
    var ref_ := p.Match(KW_REF);
    if ref_ { FollowsFrom(a, d, p.Snap()); }
    m := Modifiers(derived, abstract_, constant, ref_);
  }

  /** The checks that a prefix is not used where it does not belong. */
  method RejectPrefix(p: Parser, rejected: bool)
    requires p.Valid()
    modifies p
    ensures p.Valid() && Follows(old(p.Snap()), p.Snap()) && p.rest == old(p.rest) && p.current == old(p.current)
    ensures if rejected then p.panicMode else p.Snap() == old(p.Snap())
  {
    hide Clean, IsSuffix, Lookahead;
    FollowsRefl(p.Snap());
    if rejected { p.ErrorAtCurrent(); }
  }

  // ---- statements without a body -----------------------------------------------------------

  /** `importDecl`. */
  method ParseImport(p: Parser, v: Visibility) returns (d: Decl)
    requires p.Valid()
    modifies p, p.sc
    ensures p.Valid() && Follows(old(p.Snap()), p.Snap())
    ensures Leads(old(p.Snap()), ImportRest(v, old(p.rest)), p.Snap(), Ok(d, p.rest))
  {
    hide Clean, IsSuffix, Lookahead, ImportPath;
    ghost var a := p.Snap();
    FollowsRefl(a);
    var parts, wildcard := [], false;
    if !p.current.Name? {
      p.ErrorAtCurrent();
    } else {
      parts := [p.current.text];
      p.Advance();
      ghost var b := p.Snap();
      parts, wildcard := ParseImportPath(p, parts);
      FollowsFrom(a, b, p.Snap());
    }
    ghost var c := p.Snap();
    Require(p, SEMICOLON);
    FollowsFrom(a, c, p.Snap());
    d := Import(v, parts, wildcard);
  }

  method ParseImportPath(p: Parser, first: seq<string>) returns (parts: seq<string>, wildcard: bool)
    requires p.Valid()
    modifies p, p.sc
    ensures p.Valid() && Follows(old(p.Snap()), p.Snap())
    ensures Leads(old(p.Snap()), ImportPath(first, old(p.rest)), p.Snap(), Ok((parts, wildcard), p.rest))
  {
    hide Clean, IsSuffix, Lookahead;
    ghost var a := p.Snap();
    FollowsRefl(a);
    parts, wildcard := first, false;
    while p.current == Sym(COLON_COLON) && !wildcard
      invariant p.Valid() && Follows(a, p.Snap())
      invariant Leads(a, ImportPath(first, a.rest), p.Snap(),
                      if wildcard then Ok((parts, true), p.rest) else ImportPath(parts, p.rest))
      decreases |p.rest|
    {
      ghost var b := p.Snap();
      p.Advance();
      FollowsFrom(a, b, p.Snap());
      ghost var c := p.Snap();
      if p.current == Sym(STAR) || p.current == Sym(STAR_STAR) {
        wildcard := true;
        p.Advance();
      } else if p.current.Name? {
        parts := parts + [p.current.text];
        p.Advance();
      } else {
        p.ErrorAtCurrent();
        break;
      }
      FollowsFrom(a, c, p.Snap());
    }
  }

  /** `aliasDecl`. */
  method ParseAlias(p: Parser, v: Visibility) returns (d: Decl)
    requires p.Valid()
    modifies p, p.sc
    ensures p.Valid() && Follows(old(p.Snap()), p.Snap())
    ensures Leads(old(p.Snap()), AliasRest(v, old(p.rest)), p.Snap(), Ok(d, p.rest))
  {
    hide Clean, IsSuffix, Lookahead, Identifier, QualifiedName;
    ghost var a := p.Snap();
    var name := ConsumeName(p);
    ghost var b := p.Snap();
    Require(p, KW_FOR);
    FollowsFrom(a, b, p.Snap());
    ghost var c := p.Snap();
    var target := ParseQualifiedName(p);
    FollowsFrom(a, c, p.Snap());
    ghost var e := p.Snap();
    Require(p, SEMICOLON);
    FollowsFrom(a, e, p.Snap());
    d := Alias(v, name, target);
  }

  /** `dependencyDecl`. */
  method ParseDependency(p: Parser, v: Visibility) returns (d: Decl)
    requires p.Valid()
    modifies p, p.sc
    ensures p.Valid() && Follows(old(p.Snap()), p.Snap())
    ensures Leads(old(p.Snap()), DependencyRest(v, old(p.rest)), p.Snap(), Ok(d, p.rest))
  {
    hide Clean, IsSuffix, Lookahead, NameList, OptionalName;
    ghost var a := p.Snap();
    var name := TakeName(p);
    ghost var b := p.Snap();
    Require(p, KW_FROM);
    FollowsFrom(a, b, p.Snap());
    ghost var c := p.Snap();
    var sources := ParseNameList(p, []);
    FollowsFrom(a, c, p.Snap());
    ghost var e := p.Snap();
    Require(p, KW_TO);
    FollowsFrom(a, e, p.Snap());
    ghost var f := p.Snap();
    var targets := ParseNameList(p, []);
    FollowsFrom(a, f, p.Snap());
    ghost var g := p.Snap();
    Require(p, SEMICOLON);
    FollowsFrom(a, g, p.Snap());
    d := Dependency(v, name, sources, targets);
  }

  /** An optional value after `=`, or also after `default`. */
  method ParseValue(p: Parser, orDefault: bool) returns (value: Option<Expr>)
    requires p.Valid()
    modifies p, p.sc
    ensures p.Valid() && Follows(old(p.Snap()), p.Snap())
    ensures Leads(old(p.Snap()), Value(old(p.rest), orDefault), p.Snap(), Ok(value, p.rest))
  {
    hide Clean, IsSuffix, Lookahead, Level;
    ghost var a := p.Snap();
    FollowsRefl(a);
    value := None;
    if p.current == Sym(EQUAL) || (orDefault && p.current == Sym(KW_DEFAULT)) {
      p.Advance();
      ghost var b := p.Snap();
      var e; ghost var t;
      e, t := ExprParser.Expression(p);
      FollowsFrom(a, b, p.Snap());
      value := Some(e);
    }
  }

  /** `attributeDecl`. */
  method ParseAttribute(p: Parser, v: Visibility, m: Modifiers) returns (d: Decl)
    requires p.Valid()
    modifies p, p.sc
    ensures p.Valid() && Follows(old(p.Snap()), p.Snap())
    ensures Leads(old(p.Snap()), AttributeRest(v, m, old(p.rest)), p.Snap(), Ok(d, p.rest))
    ensures IsRelationToken(old(p.current)) ==> Consumes(old(p.Snap()), p.Snap())
  {
    hide Clean, IsSuffix, Lookahead, Relationships, Value;
    ghost var a := p.Snap();
    var name := TakeName(p);
    ghost var z := p.Snap();
    RejectPrefix(p, name == "" && !IsRelationToken(p.current));
    FollowsFrom(a, z, p.Snap());
    ghost var b := p.Snap();
    var f := ParseRelationships(p);
    FollowsFrom(a, b, p.Snap());
    ghost var c := p.Snap();
    var value := ParseValue(p, true);
    FollowsFrom(a, c, p.Snap());
    ghost var e := p.Snap();
    EndOrSkipBody(p);
    FollowsFrom(a, e, p.Snap());
    d := Attribute(v, m, name, f, value);
  }

  /** A semicolon, or a body in braces that leaves no trace. */
  method EndOrSkipBody(p: Parser)
    requires p.Valid()
    modifies p, p.sc
    ensures p.Valid() && Follows(old(p.Snap()), p.Snap())
    ensures Leads(old(p.Snap()), EndOrBlock(old(p.rest)), p.Snap(), Ok((), p.rest))
  {
    hide Clean, IsSuffix, Lookahead, Closed;
    ghost var a := p.Snap();
    var braced := p.Match(LEFT_BRACE);
    if braced {
      ghost var g := p.Snap();
      SkipBracedBlock(p);
      FollowsFrom(a, g, p.Snap());
    } else {
      Require(p, SEMICOLON);
    }
  }

  /** `a to b`, as in `parseEndsClause`. */
  method ParseEnds(p: Parser) returns (ends: seq<QName>)
    requires p.Valid()
    modifies p, p.sc
    ensures p.Valid() && Follows(old(p.Snap()), p.Snap())
    ensures Leads(old(p.Snap()), TwoEnds(old(p.rest)), p.Snap(), Ok(ends, p.rest))
  {
    hide Clean, IsSuffix, Lookahead, Reference;
    ghost var a := p.Snap();
    var source := DottedReference(p);
    ghost var b := p.Snap();
    Require(p, KW_TO);
    FollowsFrom(a, b, p.Snap());
    ghost var c := p.Snap();
    var target := DottedReference(p);
    FollowsFrom(a, c, p.Snap());
    ends := [source, target];
  }

  // ---- statements whose nodes are not modelled ------------------------------------------------

  /** `commentDecl`: the body is what the scanner skipped last. */
  method ParseComment(p: Parser)
    requires p.Valid()
    modifies p, p.sc
    ensures p.Valid() && Follows(old(p.Snap()), p.Snap())
    ensures Agrees(old(p.Snap()), CommentRest(old(p.rest)), p.Snap(), Ok((), p.rest))
  {
    hide Clean, IsSuffix, Lookahead;
    ghost var a := p.Snap();
    var name := TakeName(p);
    ghost var b := p.Snap();
    var about := p.Match(KW_ABOUT);
    if about {
      FollowsFrom(a, b, p.Snap());
      ghost var c := p.Snap();
      var qs := ParseNameList(p, []);
      FollowsFrom(a, c, p.Snap());
    }
    var body := p.sc.TakeLastBlockComment();
    if body.NoBlock? {
      ghost var e := p.Snap();
      RejectPrefix(p, true);
      FollowsFrom(a, e, p.Snap());
    }
  }

  /** `connectStatement` and, with a body, `allocateStatement`. */
  method ParseConnect(p: Parser, mayHaveBody: bool)
    requires p.Valid()
    modifies p, p.sc
    ensures p.Valid() && Follows(old(p.Snap()), p.Snap())
    ensures Leads(old(p.Snap()), ConnectRest(mayHaveBody, old(p.rest)), p.Snap(), Ok((), p.rest))
  {
    hide Clean, IsSuffix, Lookahead;
    ghost var a := p.Snap();
    var ends := ParseEnds(p);
    ghost var b := p.Snap();
    if mayHaveBody { EndOrSkipBody(p); } else { Require(p, SEMICOLON); }
    FollowsFrom(a, b, p.Snap());
  }

  /** `bindStatement`. */
  method ParseBind(p: Parser)
    requires p.Valid()
    modifies p, p.sc
    ensures p.Valid() && Follows(old(p.Snap()), p.Snap())
    ensures Leads(old(p.Snap()), BindRest(old(p.rest)), p.Snap(), Ok((), p.rest))
  {
    hide Clean, IsSuffix, Lookahead;
    ghost var a := p.Snap();
    var left := DottedReference(p);
    ghost var b := p.Snap();
    Require(p, EQUAL);
    FollowsFrom(a, b, p.Snap());
    ghost var c := p.Snap();
    var right := DottedReference(p);
    FollowsFrom(a, c, p.Snap());
    ghost var d := p.Snap();
    Require(p, SEMICOLON);
    FollowsFrom(a, d, p.Snap());
  }

  /** An expression in braces whose opening brace is already consumed. */
  method ParseInlineBody(p: Parser)
    requires p.Valid()
    modifies p, p.sc
    ensures p.Valid() && Follows(old(p.Snap()), p.Snap())
    ensures Leads(old(p.Snap()), InlineBody(old(p.rest)), p.Snap(), Ok((), p.rest))
  {
    hide Clean, IsSuffix, Lookahead;
    ghost var a := p.Snap();
    var e; ghost var t;
    e, t := ExprParser.Expression(p);
    ghost var b := p.Snap();
    Require(p, RIGHT_BRACE);
    FollowsFrom(a, b, p.Snap());
  }

  /** An optional `: T, U` clause. */
  method ParseOptionalTypes(p: Parser) returns (types: seq<QName>)
    requires p.Valid()
    modifies p, p.sc
    ensures p.Valid() && Follows(old(p.Snap()), p.Snap())
    ensures Leads(old(p.Snap()), OptionalTypes(old(p.rest)), p.Snap(), Ok(types, p.rest))
  {
    hide Clean, IsSuffix, Lookahead, NameList;
    ghost var a := p.Snap();
    FollowsRefl(a);
    types := [];
    var colon := p.Match(COLON);
    if colon {
      ghost var b := p.Snap();
      types := ParseNameList(p, []);
      FollowsFrom(a, b, p.Snap());
    }
  }

  /** `assertedConstraintOrRequirement`, after the assertion keyword. */
  method ParseAssertion(p: Parser, isAssume: bool)
    requires p.Valid()
    modifies p, p.sc
    ensures p.Valid() && Follows(old(p.Snap()), p.Snap())
    ensures Leads(old(p.Snap()), AssertionRest(isAssume, old(p.rest)), p.Snap(), Ok((), p.rest))
  {
    hide Clean, IsSuffix, Lookahead, AssertedRest;
    ghost var a := p.Snap();
    FollowsRefl(a);
    var isReq := p.current == Sym(KW_REQUIREMENT);
    if !isReq && p.current != Sym(KW_CONSTRAINT) {
      p.ErrorAtCurrent();
      ghost var z := p.Snap();
      p.Advance();
      FollowsFrom(a, z, p.Snap());
      return;
    }
    p.Advance();
    ghost var b := p.Snap();
    RejectPrefix(p, isAssume && isReq);
    FollowsFrom(a, b, p.Snap());
    ghost var c := p.Snap();
    ParseAsserted(p, isReq);
    FollowsFrom(a, c, p.Snap());
  }

  /** What is asserted: a body, or a name and types with a body or a semicolon. */
  method ParseAsserted(p: Parser, isReq: bool)
    requires p.Valid()
    modifies p, p.sc
    ensures p.Valid() && Follows(old(p.Snap()), p.Snap())
    ensures Leads(old(p.Snap()), AssertedRest(isReq, old(p.rest)), p.Snap(), Ok((), p.rest))
  {
    hide Clean, IsSuffix, Lookahead, AssertedBody, OptionalTypes, OptionalName;
    ghost var a := p.Snap();
    var inline := ParseAssertionBody(p, isReq);
    if inline {
      return;
    }
    var name := TakeName(p);
    ghost var e := p.Snap();
    var types := ParseOptionalTypes(p);
    FollowsFrom(a, e, p.Snap());
    ghost var f := p.Snap();
    inline := ParseAssertionBody(p, isReq);
    FollowsFrom(a, f, p.Snap());
    if !inline {
      ghost var g := p.Snap();
      Require(p, SEMICOLON);
      FollowsFrom(a, g, p.Snap());
    }
  }

  method ParseAssertionBody(p: Parser, isReq: bool) returns (present: bool)
    requires p.Valid()
    modifies p, p.sc
    ensures p.Valid() && Follows(old(p.Snap()), p.Snap())
    ensures present == (old(p.current) == Sym(LEFT_BRACE))
    ensures present ==> Leads(old(p.Snap()), AssertedBody(isReq, old(p.rest)), p.Snap(), Ok((), p.rest))
    ensures !present ==> p.Snap() == old(p.Snap()) && p.current == old(p.current)
  {
    hide Clean, IsSuffix, Lookahead;
    ghost var a := p.Snap();
    FollowsRefl(a);
    present := p.Match(LEFT_BRACE);
    if present {
      ghost var b := p.Snap();
      RejectPrefix(p, isReq);
      FollowsFrom(a, b, p.Snap());
      ghost var c := p.Snap();
      ParseInlineBody(p);
      FollowsFrom(a, c, p.Snap());
    }
  }

  /** `subjectStatement`. */
  method ParseSubject(p: Parser)
    requires p.Valid()
    modifies p, p.sc
    ensures p.Valid() && Follows(old(p.Snap()), p.Snap())
    ensures Leads(old(p.Snap()), SubjectRest(old(p.rest)), p.Snap(), Ok((), p.rest))
  {
    hide Clean, IsSuffix, Lookahead;
    ghost var a := p.Snap();
    var name := ConsumeName(p);
    ghost var b := p.Snap();
    var types := ParseOptionalTypes(p);
    FollowsFrom(a, b, p.Snap());
    ghost var c := p.Snap();
    Require(p, SEMICOLON);
    FollowsFrom(a, c, p.Snap());
  }

  /** `parseLifecycleAction`. */
  method ParseLifecycle(p: Parser)
    requires p.Valid()
    modifies p, p.sc
    ensures p.Valid() && Follows(old(p.Snap()), p.Snap())
    ensures Leads(old(p.Snap()), LifecycleRest(old(p.rest)), p.Snap(), Ok((), p.rest))
  {
    hide Clean, IsSuffix, Lookahead, Reference, LifecycleEnd;
    ghost var a := p.Snap();
    FollowsRefl(a);
    var action := p.Match(KW_ACTION);
    ghost var b := p.Snap();
    var q := DottedReference(p);
    FollowsFrom(a, b, p.Snap());
    ghost var c := p.Snap();
    ParseLifecycleEnd(p);
    FollowsFrom(a, c, p.Snap());
  }

  /** A semicolon, or a block, which one may follow. */
  method ParseLifecycleEnd(p: Parser)
    requires p.Valid()
    modifies p, p.sc
    ensures p.Valid() && Follows(old(p.Snap()), p.Snap())
    ensures Leads(old(p.Snap()), LifecycleEnd(old(p.rest)), p.Snap(), Ok((), p.rest))
  {
    hide Clean, IsSuffix, Lookahead, Closed;
    ghost var a := p.Snap();
    var braced := p.Match(LEFT_BRACE);
    if braced {
      ghost var b := p.Snap();
      SkipBracedBlock(p);
      FollowsFrom(a, b, p.Snap());
      ghost var c := p.Snap();
      var extra := p.Match(SEMICOLON);
      if extra { FollowsFrom(a, c, p.Snap()); }
    } else {
      Require(p, SEMICOLON);
    }
  }

  /** The `satisfy` statement. */
  method ParseSatisfy(p: Parser)
    requires p.Valid()
    modifies p, p.sc
    ensures p.Valid() && Follows(old(p.Snap()), p.Snap())
    ensures Leads(old(p.Snap()), SatisfyRest(old(p.rest)), p.Snap(), Ok((), p.rest))
  {
    hide Clean, IsSuffix, Lookahead;
    ghost var a := p.Snap();
    var q := DottedReference(p);
    if p.current == Name(WORD_BY) {
      ghost var b := p.Snap();
      p.Advance();
      FollowsFrom(a, b, p.Snap());
      ghost var c := p.Snap();
      q := DottedReference(p);
      FollowsFrom(a, c, p.Snap());
    }
    ghost var d := p.Snap();
    EndOrSkipBody(p);
    FollowsFrom(a, d, p.Snap());
  }

  /** A `fork` or `join` declaration, whose first word is the current token. */
  method ParseForkJoin(p: Parser)
    requires p.Valid() && p.rest != []
    modifies p, p.sc
    ensures p.Valid() && Consumes(old(p.Snap()), p.Snap())
    ensures Leads(old(p.Snap()), ForkJoinRest(old(p.rest)[1..]), p.Snap(), Ok((), p.rest))
  {
    hide Clean, IsSuffix, Lookahead;
    ghost var a := p.Snap();
    p.Advance();
    ghost var b := p.Snap();
    var name := TakeName(p);
    FollowsFrom(a, b, p.Snap());
    ghost var c := p.Snap();
    Require(p, SEMICOLON);
    FollowsFrom(a, c, p.Snap());
  }

  /** The `return` statement. */
  method ParseReturn(p: Parser)
    requires p.Valid()
    modifies p, p.sc
    ensures p.Valid() && Follows(old(p.Snap()), p.Snap())
    ensures Leads(old(p.Snap()), ReturnRest(old(p.rest)), p.Snap(), Ok((), p.rest))
  {
    hide Clean, IsSuffix, Lookahead, OptionalTypes, ReturnSupers, Value, OptionalName;
    ghost var a := p.Snap();
    FollowsRefl(a);
    if StartsReturn(p.current) { p.Advance(); }
    ghost var b := p.Snap();
    var name := TakeName(p);
    FollowsFrom(a, b, p.Snap());
    ghost var c := p.Snap();
    var types := ParseOptionalTypes(p);
    FollowsFrom(a, c, p.Snap());
    ghost var f := p.Snap();
    var supers := ParseReturnSupers(p);
    FollowsFrom(a, f, p.Snap());
    ghost var d := p.Snap();
    var value := ParseValue(p, false);
    FollowsFrom(a, d, p.Snap());
    ghost var e := p.Snap();
    Require(p, SEMICOLON);
    FollowsFrom(a, e, p.Snap());
  }

  /** The optional clauses of a `return`, the specializations before the redefinitions. */
  method ParseReturnSupers(p: Parser) returns (qs: seq<QName>)
    requires p.Valid()
    modifies p, p.sc
    ensures p.Valid() && Follows(old(p.Snap()), p.Snap())
    ensures Leads(old(p.Snap()), ReturnSupers(old(p.rest)), p.Snap(), Ok(qs, p.rest))
  {
    hide Clean, IsSuffix, Lookahead, NameList;
    ghost var a := p.Snap();
    FollowsRefl(a);
    qs := [];
    if p.current == Sym(COLON_GREATER) || p.current == Sym(KW_SPECIALIZES) {
      p.Advance();
      ghost var b := p.Snap();
      qs := ParseNameList(p, []);
      FollowsFrom(a, b, p.Snap());
    }
    if IsRedefines(p.current) {
      ghost var c := p.Snap();
      p.Advance();
      FollowsFrom(a, c, p.Snap());
      ghost var d := p.Snap();
      qs := ParseNameList(p, qs);
      FollowsFrom(a, d, p.Snap());
    }
  }

  // ---- transitions ---------------------------------------------------------------------------

  /** A qualified name after `k`, if `k` is there. */
  method ParseOptionalQName(p: Parser, k: Kind) returns (q: Option<QName>)
    requires p.Valid() && k != EOF
    modifies p, p.sc
    ensures p.Valid() && Follows(old(p.Snap()), p.Snap())
    ensures Leads(old(p.Snap()), OptionalQName(k, old(p.rest)), p.Snap(), Ok(q, p.rest))
  {
    hide Clean, IsSuffix, Lookahead, QualifiedName;
    ghost var a := p.Snap();
    FollowsRefl(a);
    q := None;
    var present := p.Match(k);
    if present {
      ghost var b := p.Snap();
      var name := ParseQualifiedName(p);
      FollowsFrom(a, b, p.Snap());
      q := Some(name);
    }
  }

  /** The `accept` part of a transition; only the event has a place in the node. */
  method ParseAccept(p: Parser) returns (q: Option<QName>)
    requires p.Valid()
    modifies p, p.sc
    ensures p.Valid() && Follows(old(p.Snap()), p.Snap())
    ensures Leads(old(p.Snap()), Accept(old(p.rest)), p.Snap(), Ok(q, p.rest))
  {
    hide Clean, IsSuffix, Lookahead, QualifiedName, OptionalQName, PortOf, From, SkipsTrigger;
    ghost var a := p.Snap();
    FollowsRefl(a);
    q := None;
    var present := p.Match(KW_ACCEPT);
    if !present {
      return;
    }
    ghost var b := p.Snap();
    if SkipsTrigger(p.current) {
      SkipUntil(p, CONTINUATIONS);
      FollowsFrom(a, b, p.Snap());
    } else {
      var name := ParseQualifiedName(p);
      FollowsFrom(a, b, p.Snap());
      q := Some(name);
      ghost var c := p.Snap();
      var type_ := ParseOptionalQName(p, COLON);
      FollowsFrom(a, c, p.Snap());
      ghost var d := p.Snap();
      var port := ParsePort(p);
      FollowsFrom(a, d, p.Snap());
    }
  }

  /** The port of an accepted event, which leaves no trace. */
  method ParsePort(p: Parser) returns (q: Option<QName>)
    requires p.Valid()
    modifies p, p.sc
    ensures p.Valid() && Follows(old(p.Snap()), p.Snap())
    ensures Leads(old(p.Snap()), PortOf(old(p.rest)), p.Snap(), Ok(q, p.rest))
  {
    hide Clean, IsSuffix, Lookahead, QualifiedName;
    ghost var a := p.Snap();
    FollowsRefl(a);
    q := None;
    if p.current == Name(WORD_VIA) {
      p.Advance();
      ghost var b := p.Snap();
      var name := ParseQualifiedName(p);
      FollowsFrom(a, b, p.Snap());
      q := Some(name);
    }
  }

  /** The `if` part of a transition. */
  method ParseGuard(p: Parser) returns (guard: Option<Expr>)
    requires p.Valid()
    modifies p, p.sc
    ensures p.Valid() && Follows(old(p.Snap()), p.Snap())
    ensures Leads(old(p.Snap()), Guard(old(p.rest)), p.Snap(), Ok(guard, p.rest))
  {
    hide Clean, IsSuffix, Lookahead, Level;
    ghost var a := p.Snap();
    FollowsRefl(a);
    guard := None;
    var present := p.Match(KW_IF);
    if present {
      ghost var b := p.Snap();
      var e; ghost var t;
      e, t := ExprParser.Expression(p);
      FollowsFrom(a, b, p.Snap());
      guard := Some(e);
    }
  }

  /** The `do` part of a transition; a `send` effect has no node. */
  method ParseEffect(p: Parser) returns (q: Option<QName>)
    requires p.Valid()
    modifies p, p.sc
    ensures p.Valid() && Follows(old(p.Snap()), p.Snap())
    ensures Leads(old(p.Snap()), Effect(old(p.rest)), p.Snap(), Ok(q, p.rest))
  {
    hide Clean, IsSuffix, Lookahead, QualifiedName, From;
    ghost var a := p.Snap();
    FollowsRefl(a);
    q := None;
    var present := p.Match(KW_DO);
    if present {
      ghost var b := p.Snap();
      if p.current == Name(WORD_SEND) {
        SkipUntil(p, {KW_THEN, SEMICOLON});
      } else {
        var name := ParseQualifiedName(p);
        q := Some(name);
      }
      FollowsFrom(a, b, p.Snap());
    }
  }

  /** `parseTransitionStmt`. */
  method ParseTransition(p: Parser) returns (d: Decl)
    requires p.Valid()
    modifies p, p.sc
    ensures p.Valid() && Follows(old(p.Snap()), p.Snap())
    ensures Leads(old(p.Snap()), TransitionRest(old(p.rest)), p.Snap(), Ok(d, p.rest))
  {
    hide Clean, IsSuffix, Lookahead, OptionalQName, Accept, Guard, Effect, TransitionEnd;
    ghost var a := p.Snap();
    var named := p.current.Name?;
    var name := TakeName(p);
    var isFirst := named && p.current == Sym(KW_THEN);
    ghost var b := p.Snap();
    var first := ParseOptionalQName(p, KW_FIRST);
    FollowsFrom(a, b, p.Snap());
    ghost var c := p.Snap();
    var accept_ := ParseAccept(p);
    FollowsFrom(a, c, p.Snap());
    ghost var e := p.Snap();
    var guard := ParseGuard(p);
    FollowsFrom(a, e, p.Snap());
    ghost var f := p.Snap();
    var effect := ParseEffect(p);
    FollowsFrom(a, f, p.Snap());
    ghost var g := p.Snap();
    var target := ParseTransitionEnd(p);
    FollowsFrom(a, g, p.Snap());
    d := if isFirst then Transition("", Some(QName(false, [name])), accept_, guard, effect, target)
         else Transition(name, first, accept_, guard, effect, target);
  }

  /** `then` and the target of a transition. */
  method ParseTransitionEnd(p: Parser) returns (target: QName)
    requires p.Valid()
    modifies p, p.sc
    ensures p.Valid() && Follows(old(p.Snap()), p.Snap())
    ensures Leads(old(p.Snap()), TransitionEnd(old(p.rest)), p.Snap(), Ok(target, p.rest))
  {
    hide Clean, IsSuffix, Lookahead, QualifiedName;
    ghost var a := p.Snap();
    Require(p, KW_THEN);
    ghost var b := p.Snap();
    target := ParseQualifiedName(p);
    FollowsFrom(a, b, p.Snap());
    ghost var c := p.Snap();
    Require(p, SEMICOLON);
    FollowsFrom(a, c, p.Snap());
  }

  // ---- names and ends of usages ------------------------------------------------------------------

  /** `KindInfo.allowsAnonymous`. */
  predicate AllowsAnonymous(k: Kind) {
    k == KW_CONNECTION || k == KW_FLOW || k == KW_CONSTRAINT || k == KW_MESSAGE || k == KW_OBJECTIVE
  }

  /** The name part of `usage`.  The name of a flow may turn out to be its source. */
  method ParseUsageName(p: Parser, k: Kind) returns (name: string, source: Option<QName>)
    requires p.Valid()
    modifies p, p.sc
    ensures p.Valid() && Follows(old(p.Snap()), p.Snap())
    ensures Leads(old(p.Snap()), UsageName(k, old(p.rest)), p.Snap(), Ok((name, source), p.rest))
    ensures old(p.current).Name? ==> Consumes(old(p.Snap()), p.Snap())
  {
    hide Clean, IsSuffix, Lookahead, PartsBy, Metadata, ShortName;
    ghost var a := p.Snap();
    name, source := "", None;
    var statement := SkipMetadata(p);
    ghost var b := p.Snap();
    SkipShortName(p);
    FollowsFrom(a, b, p.Snap());
    ghost var c := p.Snap();
    if p.current.Name? {
      name := p.current.text;
      p.Advance();
      FollowsFrom(a, c, p.Snap());
      if IsFlow(k) && (p.current == Sym(PERIOD) || p.current == Sym(KW_TO)) {
        ghost var d := p.Snap();
        var q := TakePartsBy(p, PERIOD, QName(false, [name]));
        FollowsFrom(a, d, p.Snap());
        name, source := "", Some(q);
      }
    } else {
      var anonymous := IsRelationToken(p.current) || p.current == Sym(EQUAL) || p.current == Sym(KW_DEFAULT)
                       || (k == KW_CONSTRAINT && p.current == Sym(LEFT_BRACE));
      if !anonymous
         && (!AllowsAnonymous(k)
             || (k == KW_CONNECTION && p.current != Sym(KW_CONNECT))
             || (IsFlow(k) && p.current != Sym(KW_FROM) && p.current != Sym(KW_OF))) {
        RejectPrefix(p, true);
        FollowsFrom(a, c, p.Snap());
      }
    }
  }

  /** The `of` clause of a flow or message. */
  method ParseOf(p: Parser, k: Kind, f: Features) returns (g: Features)
    requires p.Valid()
    modifies p, p.sc
    ensures p.Valid() && Follows(old(p.Snap()), p.Snap())
    ensures Leads(old(p.Snap()), OfClause(k, f, old(p.rest)), p.Snap(), Ok(g, p.rest))
  {
    hide Clean, IsSuffix, Lookahead, PartsBy, NameList;
    ghost var a := p.Snap();
    FollowsRefl(a);
    g := f;
    if !IsFlow(k) || p.current != Sym(KW_OF) {
      return;
    }
    p.Advance();
    ghost var b := p.Snap();
    var first := "";
    if k == KW_MESSAGE {
      var named := p.current.Name?;
      first := TakeName(p);
      FollowsFrom(a, b, p.Snap());
      if named && p.current != Sym(COLON) {
        ghost var c := p.Snap();
        var q := TakePartsBy(p, COLON_COLON, QName(false, [first]));
        FollowsFrom(a, c, p.Snap());
        g := f.(types := f.types + [q]);
        return;
      }
      ghost var d := p.Snap();
      if named { p.Advance(); }
      if named { FollowsFrom(a, d, p.Snap()); }
    }
    ghost var e := p.Snap();
    var types := ParseNameList(p, f.types);
    FollowsFrom(a, e, p.Snap());
    g := f.(types := types);
  }

  /** The ends of a connector, flow or allocation. */
  method ParseUsageEnds(p: Parser, k: Kind, name: string, source: Option<QName>, f: Features) returns (ends: seq<QName>)
    requires p.Valid()
    modifies p, p.sc
    ensures p.Valid() && Follows(old(p.Snap()), p.Snap())
    ensures Leads(old(p.Snap()), Ends(k, name, source, f, old(p.rest)), p.Snap(), Ok(ends, p.rest))
  {
    hide Clean, IsSuffix, Lookahead, TwoEnds, ToEnd, Reference;
    ghost var a := p.Snap();
    FollowsRefl(a);
    ends := [];
    if source.Some? {
      ends := ParseToEnd(p, source.value);
    } else if OpensEnds(k, p.current) || (k == KW_ALLOCATION && p.current == Sym(KW_ALLOCATE)) {
      p.Advance();
      ghost var b := p.Snap();
      ends := ParseEnds(p);
      FollowsFrom(a, b, p.Snap());
    } else if k == KW_FLOW && (p.current.Name? || p.current == Sym(LEFT_BRACKET)) && name == "" && f.types == [] {
      var q := DottedReference(p);
      ghost var c := p.Snap();
      ends := ParseToEnd(p, q);
      FollowsFrom(a, c, p.Snap());
    }
  }

  /** An optional `to b` after the source `q`. */
  method ParseToEnd(p: Parser, q: QName) returns (ends: seq<QName>)
    requires p.Valid()
    modifies p, p.sc
    ensures p.Valid() && Follows(old(p.Snap()), p.Snap())
    ensures Leads(old(p.Snap()), ToEnd(q, old(p.rest)), p.Snap(), Ok(ends, p.rest))
  {
    hide Clean, IsSuffix, Lookahead, Reference;
    ghost var a := p.Snap();
    FollowsRefl(a);
    ends := [q];
    var to := p.Match(KW_TO);
    if to {
      ghost var b := p.Snap();
      var target := DottedReference(p);
      FollowsFrom(a, b, p.Snap());
      ends := [q, target];
    }
  }

  /** The tail clauses of actions and states that leave no trace. */
  method SkipTail(p: Parser, k: Kind)
    requires p.Valid()
    modifies p, p.sc
    ensures p.Valid() && Follows(old(p.Snap()), p.Snap())
    ensures Leads(old(p.Snap()), Ok((), AfterTail(k, old(p.rest))), p.Snap(), Ok((), p.rest))
  {
    hide Clean, IsSuffix, Lookahead, From;
    ghost var a := p.Snap();
    FollowsRefl(a);
    if StartsTail(k, p.current) {
      p.Advance();
      ghost var b := p.Snap();
      SkipUntil(p, {SEMICOLON, LEFT_BRACE});
      FollowsFrom(a, b, p.Snap());
    }
  }

  // ---- bodies ---------------------------------------------------------------------------------------

  /** After a declaration: recovery if it ended in a panic. */
  method Recover(p: Parser)
    requires p.Valid()
    modifies p, p.sc
    ensures p.Valid() && Reaches(old(p.Snap()), p.Snap())
    ensures !old(p.panicMode) ==> p.Snap() == old(p.Snap()) && p.current == old(p.current)
    ensures Clean(old(p.rest)) ==> !p.panicMode
    ensures old(p.panicMode) ==> p.syncs > old(p.syncs)
  {
    hide Clean, IsSuffix, Lookahead, Restarts;
    ghost var a := p.Snap();
    ReachesRefl(a);
    if p.panicMode {
      p.Synchronize();
      AfterRecovery(a, p.Snap());
    }
  }

  lemma AfterRecovery(a: Snapshot, b: Snapshot)
    requires IsSuffix(b.rest, a.rest) && b.syncs > a.syncs
    ensures Reaches(a, b)
  {
    hide Clean, Readable;
    if Clean(a.rest) { SuffixClean(b.rest, a.rest); }
    if Readable(a.rest) { SuffixReadable(b.rest, a.rest); }
  }

  /** The members of a body up to its closing brace. */
  method ParseMembers(p: Parser, before: seq<Decl>) returns (ms: seq<Decl>)
    requires p.Valid()
    modifies p, p.sc
    ensures p.Valid() && Reaches(old(p.Snap()), p.Snap())
    ensures Leads(old(p.Snap()), Members(before, old(p.rest)), p.Snap(), Ok(ms, p.rest))
    decreases |p.rest|, 20
  {
    hide Clean, IsSuffix, Lookahead, DeclGrammar.Declaration, Reaches;
    ghost var a := p.Snap();
    ReachesRefl(a);
    ms := before;
    while p.current != Sym(RIGHT_BRACE) && p.current != Sym(EOF)
      invariant p.Valid() && Reaches(a, p.Snap()) && |p.rest| <= |a.rest|
      invariant Leads(a, Members(before, a.rest), p.Snap(), Members(ms, p.rest))
      decreases |p.rest|
    {
      ghost var b, was := p.Snap(), ms;
      var d := ParseDeclaration(p);
      ReachesClean(a, b, p.Snap());
      ms := Append(ms, d);
      ghost var c := p.Snap();
      Recover(p);
      ReachesClean(a, c, p.Snap());
    }
    ghost var e := p.Snap();
    Require(p, RIGHT_BRACE);
    ReachesClean(a, e, e);
    ReachesThen(a, e, p.Snap());
  }

  lemma ReachesClean(a: Snapshot, b: Snapshot, c: Snapshot)
    requires Reaches(a, b) && (Reaches(b, c) || c == b)
    ensures Reaches(a, c) && |c.rest| <= |b.rest| <= |a.rest|
    ensures Readable(a.rest) ==> Readable(b.rest) && Readable(c.rest)
    ensures a.syncs <= b.syncs <= c.syncs
    ensures c.syncs == a.syncs ==> (a.panic ==> b.panic) && (b.panic ==> c.panic)
  {
    hide IsSuffix, Clean, Readable;
    if c != b { ReachesTrans(a, b, c); }
  }

  /** A body in braces, or a semicolon. */
  method ParseBody(p: Parser) returns (ms: seq<Decl>)
    requires p.Valid()
    modifies p, p.sc
    ensures p.Valid() && Reaches(old(p.Snap()), p.Snap())
    ensures Leads(old(p.Snap()), BracedOrEmpty(old(p.rest)), p.Snap(), Ok(ms, p.rest))
    decreases |p.rest|, 21
  {
    hide Clean, IsSuffix, Lookahead, Members, Reaches;
    ghost var a := p.Snap();
    ReachesRefl(a);
    ms := [];
    ghost var b := p.Snap();
    var braced := p.Match(LEFT_BRACE);
    if braced {
      FollowsReaches(a, p.Snap());
      ghost var c := p.Snap();
      ms := ParseMembers(p, []);
      ReachesClean(a, c, p.Snap());
    } else {
      Require(p, SEMICOLON);
      FollowsReaches(a, p.Snap());
    }
  }

  /** `packageDecl`. */
  method ParsePackage(p: Parser, v: Visibility) returns (d: Decl)
    requires p.Valid()
    modifies p, p.sc
    ensures p.Valid() && Reaches(old(p.Snap()), p.Snap())
    ensures Leads(old(p.Snap()), PackageRest(v, old(p.rest)), p.Snap(), Ok(d, p.rest))
    decreases |p.rest|, 21
  {
    hide Clean, IsSuffix, Lookahead, Members, Reaches, Identifier;
    ghost var a := p.Snap();
    var name := ConsumeName(p);
    ghost var b := p.Snap();
    Require(p, LEFT_BRACE);
    FollowsFrom(a, b, p.Snap());
    FollowsReaches(a, p.Snap());
    ghost var c := p.Snap();
    var members := ParseMembers(p, []);
    ReachesClean(a, c, p.Snap());
    d := Package(v, name, members);
  }

  /** One value of an enumeration; None after an error. */
  method ParseEnumMember(p: Parser) returns (d: Option<Decl>)
    requires p.Valid() && p.rest != []
    modifies p, p.sc
    ensures p.Valid() && Reaches(old(p.Snap()), p.Snap()) && |p.rest| < |old(p.rest)|
    ensures d.None? ==> p.panicMode || p.syncs > old(p.syncs)
    ensures Leads(old(p.Snap()), EnumMember(old(p.rest)), p.Snap(), if d.Some? then Ok(d.value, p.rest) else Fail)
  {
    hide Clean, IsSuffix, Lookahead, Value;
    ghost var a := p.Snap();
    var name := "";
    if p.current == Sym(KW_ENUM) {
      p.Advance();
    } else if p.current.Name? {
      name := p.current.text;
      p.Advance();
    } else {
      RejectPrefix(p, true);
      ghost var z := p.Snap();
      p.Advance();
      FollowsReaches(a, z);
      ReachesThen(a, z, p.Snap());
      ghost var y := p.Snap();
      Recover(p);
      ReachesClean(a, y, p.Snap());
      return None;
    }
    ghost var b := p.Snap();
    var value := ParseValue(p, false);
    FollowsFrom(a, b, p.Snap());
    ghost var c := p.Snap();
    Require(p, SEMICOLON);
    FollowsFrom(a, c, p.Snap());
    FollowsReaches(a, p.Snap());
    d := Some(EnumValue(name, value));
  }

  /** The body of an enumeration, after its opening brace. */
  method ParseEnumBody(p: Parser) returns (ms: seq<Decl>)
    requires p.Valid()
    modifies p, p.sc
    ensures p.Valid() && Reaches(old(p.Snap()), p.Snap())
    ensures Leads(old(p.Snap()), EnumMembers([], old(p.rest)), p.Snap(), Ok(ms, p.rest))
  {
    hide Clean, IsSuffix, Lookahead, EnumMember, Reaches;
    ghost var a := p.Snap();
    ReachesRefl(a);
    ms := [];
    while p.current != Sym(RIGHT_BRACE) && p.current != Sym(EOF)
      invariant p.Valid() && Reaches(a, p.Snap()) && |p.rest| <= |a.rest|
      invariant Leads(a, EnumMembers([], a.rest), p.Snap(), EnumMembers(ms, p.rest))
      decreases |p.rest|
    {
      ghost var b := p.Snap();
      var d := ParseEnumMember(p);
      ReachesClean(a, b, p.Snap());
      if d.Some? { ms := ms + [d.value]; }
    }
    ghost var e := p.Snap();
    Require(p, RIGHT_BRACE);
    ReachesClean(a, e, e);
    ReachesThen(a, e, p.Snap());
  }

  /** The body of a constraint definition, after its opening brace. */
  method ParseConstraintBody(p: Parser) returns (ms: seq<Decl>)
    requires p.Valid()
    modifies p, p.sc
    ensures p.Valid() && Reaches(old(p.Snap()), p.Snap())
    ensures Leads(old(p.Snap()), ConstraintMembers([], false, old(p.rest)), p.Snap(), Ok(ms, p.rest))
    decreases |p.rest|, 21
  {
    hide Clean, IsSuffix, Lookahead, Reaches, StartsParameter, DeclGrammar.Declaration, Level;
    ghost var a := p.Snap();
    ReachesRefl(a);
    ms := [];
    var hasBody := false;
    while p.current != Sym(RIGHT_BRACE) && p.current != Sym(EOF)
      invariant p.Valid() && Reaches(a, p.Snap()) && |p.rest| <= |a.rest|
      invariant Leads(a, ConstraintMembers([], false, a.rest), p.Snap(), ConstraintMembers(ms, hasBody, p.rest))
      decreases |p.rest|
    {
      ghost var b := p.Snap();
      if StartsParameter(p.current) {
        var d := ParseDeclaration(p);
        ReachesClean(a, b, p.Snap());
        ms := Append(ms, d);
        ghost var c := p.Snap();
        Recover(p);
        ReachesClean(a, c, p.Snap());
      } else {
        ParseBodyExpression(p, hasBody);
        ReachesClean(a, b, p.Snap());
        hasBody := true;
      }
    }
    ghost var e := p.Snap();
    Require(p, RIGHT_BRACE);
    ReachesClean(a, e, e);
    ReachesThen(a, e, p.Snap());
  }

  /** The expression of a constraint body, of which there may be one. */
  method ParseBodyExpression(p: Parser, hasBody: bool)
    requires p.Valid() && p.rest != []
    modifies p, p.sc
    ensures p.Valid() && Reaches(old(p.Snap()), p.Snap()) && |p.rest| < |old(p.rest)|
    ensures Leads(old(p.Snap()), if hasBody then Fail else Quiet(DeclGrammar.Expression(old(p.rest))), p.Snap(), Ok((), p.rest))
  {
    hide Clean, IsSuffix, Lookahead, Level;
    ghost var a := p.Snap();
    RejectPrefix(p, hasBody);
    ghost var b := p.Snap();
    var e; ghost var t;
    e, t := ExprParser.Expression(p);
    FollowsFrom(a, b, p.Snap());
    FollowsReaches(a, p.Snap());
  }

  /** A result whose value leaves no trace. */
  function Quiet<T>(r: Result<T>): Result<()> {
    match r
    case Fail => Fail
    case Ok(_, rest) => Ok((), rest)
  }

  // ---- definitions and usages ---------------------------------------------------------------------

  /** `definition`: the kind keyword is consumed, the current token stands for `def`. */
  method ParseDefinition(p: Parser, k: Kind, v: Visibility, isAbstract: bool) returns (d: Decl)
    requires p.Valid()
    modifies p, p.sc
    ensures p.Valid() && Reaches(old(p.Snap()), p.Snap())
    ensures old(p.current) == Sym(KW_DEF) ==>
      Leads(old(p.Snap()), DefinitionRest(k, v, isAbstract, old(p.rest)[1..]), p.Snap(), Ok(d, p.rest))
    decreases |p.rest|, 23
  {
    hide Clean, IsSuffix, Lookahead, Reaches, Relationships, DefinitionBody, ShortName;
    ghost var a := p.Snap();
    p.Advance();
    ghost var b := p.Snap();
    SkipShortName(p);
    FollowsFrom(a, b, p.Snap());
    ghost var c := p.Snap();
    var name := ConsumeName(p);
    FollowsFrom(a, c, p.Snap());
    ghost var e := p.Snap();
    var f := ParseRelationships(p);
    FollowsFrom(a, e, p.Snap());
    FollowsReaches(a, p.Snap());
    ghost var g := p.Snap();
    var members := ParseDefinitionBody(p, k);
    ReachesClean(a, g, p.Snap());
    d := Definition(v, k, isAbstract, name, f.supers, f.redefines, members);
  }

  method ParseDefinitionBody(p: Parser, k: Kind) returns (ms: seq<Decl>)
    requires p.Valid()
    modifies p, p.sc
    ensures p.Valid() && Reaches(old(p.Snap()), p.Snap())
    ensures Leads(old(p.Snap()), DefinitionBody(k, old(p.rest)), p.Snap(), Ok(ms, p.rest))
    decreases |p.rest|, 22
  {
    hide Clean, IsSuffix, Lookahead, Reaches, Members, EnumMembers, ConstraintMembers;
    ghost var a := p.Snap();
    ReachesRefl(a);
    ms := [];
    if p.current == Sym(SEMICOLON) || p.current != Sym(LEFT_BRACE) || (k != KW_ENUM && k != KW_CONSTRAINT) {
      ms := ParseBody(p);
      return;
    }
    p.Advance();
    FollowsReaches(a, p.Snap());
    ghost var b := p.Snap();
    if k == KW_ENUM {
      ms := ParseEnumBody(p);
    } else {
      ms := ParseConstraintBody(p);
    }
    ReachesClean(a, b, p.Snap());
  }

  /** `usage`: the kind keyword, if the kind has one, is already consumed. */
  method ParseUsage(p: Parser, k: Kind, v: Visibility, dir: Direction, m: Modifiers) returns (d: Decl)
    requires p.Valid()
    modifies p, p.sc
    ensures p.Valid() && Reaches(old(p.Snap()), p.Snap())
    ensures Leads(old(p.Snap()), UsageRest(k, v, dir, m, old(p.rest)), p.Snap(), Ok(d, p.rest))
    ensures old(p.current).Name? ==> |p.rest| < |old(p.rest)|
    decreases if p.current.Name? then |p.rest| - 1 else |p.rest|, 23
  {
    hide Clean, IsSuffix, Lookahead, Reaches, UsageName, Relationships, UsageTail;
    ghost var a := p.Snap();
    var name, source := ParseUsageName(p, k);
    ghost var b := p.Snap();
    var f := ParseRelationships(p);
    FollowsFrom(a, b, p.Snap());
    FollowsReaches(a, p.Snap());
    ghost var c := p.Snap();
    d := ParseUsageTail(p, k, v, dir, m, name, source, f);
    ReachesClean(a, c, p.Snap());
  }

  /** The parts of a usage after its clauses. */
  method ParseUsageTail(p: Parser, k: Kind, v: Visibility, dir: Direction, m: Modifiers, name: string,
                        source: Option<QName>, f: Features) returns (d: Decl)
    requires p.Valid()
    modifies p, p.sc
    ensures p.Valid() && Reaches(old(p.Snap()), p.Snap())
    ensures Leads(old(p.Snap()), UsageTail(k, v, dir, m, name, source, f, old(p.rest)), p.Snap(), Ok(d, p.rest))
    decreases |p.rest|, 22
  {
    hide Clean, IsSuffix, Lookahead, Reaches, OfClause, Ends, AfterTail, Value, UsageBody;
    ghost var a := p.Snap();
    var g := ParseOf(p, k, f);
    ghost var b := p.Snap();
    var ends := ParseUsageEnds(p, k, name, source, g);
    FollowsFrom(a, b, p.Snap());
    ghost var c := p.Snap();
    SkipTail(p, k);
    FollowsFrom(a, c, p.Snap());
    ghost var e := p.Snap();
    var value := ParseValue(p, false);
    FollowsFrom(a, e, p.Snap());
    FollowsReaches(a, p.Snap());
    ghost var h := p.Snap();
    var members := ParseUsageBody(p, k);
    ReachesClean(a, h, p.Snap());
    d := Usage(v, k, dir, m, name, g, ends, value, members);
  }

  /** The body of a usage; the one of a constraint is an expression. */
  method ParseUsageBody(p: Parser, k: Kind) returns (ms: seq<Decl>)
    requires p.Valid()
    modifies p, p.sc
    ensures p.Valid() && Reaches(old(p.Snap()), p.Snap())
    ensures Leads(old(p.Snap()), UsageBody(k, old(p.rest)), p.Snap(), Ok(ms, p.rest))
    decreases |p.rest|, 22, 0
  {
    hide Clean, IsSuffix, Lookahead, Reaches, InlineBody, BracedOrEmpty;
    ghost var a := p.Snap();
    if k == KW_CONSTRAINT && p.current == Sym(LEFT_BRACE) {
      p.Advance();
      ghost var b := p.Snap();
      ParseInlineBody(p);
      FollowsFrom(a, b, p.Snap());
      FollowsReaches(a, p.Snap());
      ms := [];
    } else {
      ms := ParseBody(p);
    }
  }

  /** A definition, at its `def`. */
  method ParseDefinitionOf(p: Parser, k: Kind, v: Visibility, dir: Direction, m: Modifiers) returns (d: Decl)
    requires p.Valid() && p.current == Sym(KW_DEF)
    modifies p, p.sc
    ensures p.Valid() && Reaches(old(p.Snap()), p.Snap())
    ensures Leads(old(p.Snap()), DefinitionOf(k, v, dir, m, old(p.rest)), p.Snap(), Ok(d, p.rest))
    decreases |p.rest|, 24, 0
  {
    hide Clean, IsSuffix, Lookahead, Reaches, DefinitionRest;
    ghost var a := p.Snap();
    RejectPrefix(p, k == KW_END);
    ghost var z := p.Snap();
    if k == KW_END { p.Advance(); }
    if k == KW_END { FollowsFrom(a, z, p.Snap()); }
    ghost var y := p.Snap();
    RejectPrefix(p, dir != Undirected || m.isDerived || m.isConstant || m.isReference);
    FollowsFrom(a, y, p.Snap());
    FollowsReaches(a, p.Snap());
    ghost var b := p.Snap();
    d := ParseDefinition(p, k, v, m.isAbstract);
    ReachesClean(a, b, p.Snap());
  }

  /** `definitionOrUsage`: the kind keyword is already consumed. */
  method ParseDefinitionOrUsage(p: Parser, k: Kind, v: Visibility, dir: Direction, m: Modifiers) returns (d: Decl)
    requires p.Valid()
    modifies p, p.sc
    ensures p.Valid() && Reaches(old(p.Snap()), p.Snap())
    ensures Leads(old(p.Snap()), DefinitionOrUsage(k, v, dir, m, old(p.rest)), p.Snap(), Ok(d, p.rest))
    decreases |p.rest|, 24, 1
  {
    hide Clean, IsSuffix, Lookahead, Reaches, DefinitionOf, UsageRest;
    ghost var a := p.Snap();
    if p.current == Sym(KW_DEF) {
      d := ParseDefinitionOf(p, k, v, dir, m);
    } else {
      RejectPrefix(p, dir != Undirected && !AllowsDirection(k));
      FollowsReaches(a, p.Snap());
      ghost var b := p.Snap();
      d := ParseUsage(p, k, v, dir, m);
      ReachesClean(a, b, p.Snap());
    }
  }

  // ---- successions ----------------------------------------------------------------------------------

  /** `parseActionRef`. */
  method ParseActionRef(p: Parser) returns (q: QName)
    requires p.Valid()
    modifies p, p.sc
    ensures p.Valid() && Follows(old(p.Snap()), p.Snap())
    ensures Leads(old(p.Snap()), ActionRef(old(p.rest)), p.Snap(), Ok(q, p.rest))
  {
    hide Clean, IsSuffix, Lookahead, Reference;
    if p.current == Sym(KW_START) || p.current == Sym(KW_DONE) {
      q := QName(false, [if p.current == Sym(KW_START) then "start" else "done"]);
      p.Advance();
    } else {
      q := DottedReference(p);
    }
  }

  /** An action reference after `k`, if `k` is there. */
  method ParseOptionalRef(p: Parser, k: Kind) returns (q: Option<QName>)
    requires p.Valid() && k != EOF
    modifies p, p.sc
    ensures p.Valid() && Follows(old(p.Snap()), p.Snap())
    ensures Leads(old(p.Snap()), OptionalRef(k, old(p.rest)), p.Snap(), Ok(q, p.rest))
  {
    hide Clean, IsSuffix, Lookahead, ActionRef;
    ghost var a := p.Snap();
    FollowsRefl(a);
    q := None;
    var present := p.Match(k);
    if present {
      ghost var b := p.Snap();
      var name := ParseActionRef(p);
      FollowsFrom(a, b, p.Snap());
      q := Some(name);
    }
  }

  /** The inline action form of a `then` target, after the keyword `action`. */
  method ParseInlineAction(p: Parser) returns (d: Decl)
    requires p.Valid()
    modifies p, p.sc
    ensures p.Valid() && Reaches(old(p.Snap()), p.Snap())
    ensures Leads(old(p.Snap()), InlineRest(old(p.rest)), p.Snap(), Ok(d, p.rest))
    decreases |p.rest|, 22
  {
    hide Clean, IsSuffix, Lookahead, Reaches, OptionalName, OptionalTypes;
    ghost var a := p.Snap();
    var name := TakeName(p);
    ghost var b := p.Snap();
    var types := ParseOptionalTypes(p);
    FollowsFrom(a, b, p.Snap());
    FollowsReaches(a, p.Snap());
    ghost var c := p.Snap();
    var members := ParseOptionalBody(p);
    ReachesClean(a, c, p.Snap());
    d := InlineAction(name, types, members);
  }

  method ParseOptionalBody(p: Parser) returns (ms: seq<Decl>)
    requires p.Valid()
    modifies p, p.sc
    ensures p.Valid() && Reaches(old(p.Snap()), p.Snap())
    ensures Leads(old(p.Snap()), OptionalBody(old(p.rest)), p.Snap(), Ok(ms, p.rest))
    decreases |p.rest|, 21
  {
    hide Clean, IsSuffix, Lookahead, Reaches, Members;
    ghost var a := p.Snap();
    ReachesRefl(a);
    ms := [];
    var braced := p.Match(LEFT_BRACE);
    if braced {
      FollowsReaches(a, p.Snap());
      ghost var b := p.Snap();
      ms := ParseMembers(p, []);
      ReachesClean(a, b, p.Snap());
    }
  }

  /** `parseThenTarget`. */
  method ParseThenTarget(p: Parser) returns (d: Decl)
    requires p.Valid()
    modifies p, p.sc
    ensures p.Valid() && Reaches(old(p.Snap()), p.Snap())
    ensures Leads(old(p.Snap()), ThenTarget(old(p.rest)), p.Snap(), Ok(d, p.rest))
    decreases |p.rest|, 23
  {
    hide Clean, IsSuffix, Lookahead, Reaches, InlineRest, ActionRef;
    ghost var a := p.Snap();
    if p.current == Sym(KW_ACTION) {
      p.Advance();
      FollowsReaches(a, p.Snap());
      ghost var b := p.Snap();
      d := ParseInlineAction(p);
      ReachesClean(a, b, p.Snap());
    } else if IsForkJoin(p.current) {
      var word := p.current.text;
      p.Advance();
      d := Link(QName(false, [word]));
      if p.current.Name? {
        ghost var c := p.Snap();
        d := InlineAction(p.current.text, [], []);
        p.Advance();
        FollowsFrom(a, c, p.Snap());
      }
      FollowsReaches(a, p.Snap());
    } else {
      var q := ParseActionRef(p);
      FollowsReaches(a, p.Snap());
      d := Link(q);
    }
  }

  /** Further targets, each after `then`. */
  method ParseMoreTargets(p: Parser, before: seq<Decl>) returns (steps: seq<Decl>)
    requires p.Valid()
    modifies p, p.sc
    ensures p.Valid() && Reaches(old(p.Snap()), p.Snap())
    ensures Leads(old(p.Snap()), MoreTargets(before, old(p.rest)), p.Snap(), Ok(steps, p.rest))
    decreases |p.rest|, 24
  {
    hide Clean, IsSuffix, Lookahead, Reaches, ThenTarget;
    ghost var a := p.Snap();
    ReachesRefl(a);
    steps := before;
    while p.current == Sym(KW_THEN)
      invariant p.Valid() && Reaches(a, p.Snap()) && |p.rest| <= |a.rest|
      invariant Leads(a, MoreTargets(before, a.rest), p.Snap(), MoreTargets(steps, p.rest))
      decreases |p.rest|
    {
      ghost var b := p.Snap();
      p.Advance();
      ReachesClean(a, b, b);
      ReachesThen(a, b, p.Snap());
      ghost var c := p.Snap();
      var t := ParseThenTarget(p);
      ReachesClean(a, c, p.Snap());
      steps := steps + [t];
    }
  }

  /** `parseSuccessionStmt`; `kw` is the leading keyword, already consumed. */
  method ParseSuccession(p: Parser, kw: Kind) returns (d: Decl)
    requires p.Valid() && (kw == KW_SUCCESSION || kw == KW_FIRST || kw == KW_THEN)
    modifies p, p.sc
    ensures p.Valid() && Reaches(old(p.Snap()), p.Snap())
    ensures Leads(old(p.Snap()), SuccessionOf(kw, old(p.rest)), p.Snap(), Ok(d, p.rest))
    decreases |p.rest|, 26
  {
    hide Clean, IsSuffix, Lookahead, Reaches, SuccessionHead, ThenTarget, MoreTargets;
    ghost var a := p.Snap();
    var name, first := "", None;
    if kw != KW_THEN {
      name, first := ParseSuccessionHead(p, kw);
    } else {
      FollowsRefl(a);
    }
    FollowsReaches(a, p.Snap());
    ghost var b := p.Snap();
    var steps := ParseSteps(p, kw);
    ReachesClean(a, b, p.Snap());
    ghost var c := p.Snap();
    Require(p, SEMICOLON);
    ReachesThen(a, c, p.Snap());
    d := Succession(name, first, steps);
  }

  method ParseSuccessionHead(p: Parser, kw: Kind) returns (name: string, first: Option<QName>)
    requires p.Valid() && (kw == KW_SUCCESSION || kw == KW_FIRST)
    modifies p, p.sc
    ensures p.Valid() && Follows(old(p.Snap()), p.Snap())
    ensures Leads(old(p.Snap()), SuccessionHead(kw, old(p.rest)), p.Snap(), Ok((name, first), p.rest))
  {
    hide Clean, IsSuffix, Lookahead, OptionalName, OptionalRef, ActionRef;
    ghost var a := p.Snap();
    if kw == KW_SUCCESSION {
      name := TakeName(p);
      ghost var b := p.Snap();
      first := ParseOptionalRef(p, KW_FIRST);
      FollowsFrom(a, b, p.Snap());
    } else {
      name := "";
      var q := ParseActionRef(p);
      first := Some(q);
    }
  }

  /** The targets: `then` is required first after `succession`, optional after `first`, and
      already consumed for a bare `then`. */
  method ParseSteps(p: Parser, kw: Kind) returns (steps: seq<Decl>)
    requires p.Valid() && (kw == KW_SUCCESSION || kw == KW_FIRST || kw == KW_THEN)
    modifies p, p.sc
    ensures p.Valid() && Reaches(old(p.Snap()), p.Snap())
    ensures Leads(old(p.Snap()), Steps(kw, old(p.rest)), p.Snap(), Ok(steps, p.rest))
    decreases |p.rest|, 25
  {
    hide Clean, IsSuffix, Lookahead, Reaches, ThenTarget, MoreTargets;
    ghost var a := p.Snap();
    ReachesRefl(a);
    steps := [];
    if kw == KW_SUCCESSION {
      Require(p, KW_THEN);
      FollowsReaches(a, p.Snap());
    }
    if kw != KW_FIRST {
      ghost var b := p.Snap();
      var t := ParseThenTarget(p);
      ReachesClean(a, b, p.Snap());
      steps := [t];
    }
    ghost var c := p.Snap();
    steps := ParseMoreTargets(p, steps);
    ReachesClean(a, c, p.Snap());
  }

  // ---- the dispatcher ---------------------------------------------------------------------------------

  /** `docDecl`. */
  method ParseDoc(p: Parser) returns (d: Option<Decl>)
    requires p.Valid() && (p.current == Sym(KW_DOC) || p.current.DocBody?)
    modifies p, p.sc
    ensures p.Valid() && Consumes(old(p.Snap()), p.Snap())
    ensures Leads(old(p.Snap()), DocRest(old(p.rest)), p.Snap(), Ok(d, p.rest))
  {
    hide Clean, IsSuffix, Lookahead;
    ghost var a := p.Snap();
    d := None;
    if p.current.DocBody? {
      d := Some(Doc(p.current.text));
      p.Advance();
      return;
    }
    p.Advance();
    if p.current.DocBody? {
      ghost var b := p.Snap();
      d := Some(Doc(p.current.text));
      p.Advance();
      FollowsFrom(a, b, p.Snap());
    }
  }

  /** The `perform` statement. */
  method ParsePerform(p: Parser) returns (members: seq<Decl>)
    requires p.Valid()
    modifies p, p.sc
    ensures p.Valid() && Reaches(old(p.Snap()), p.Snap())
    ensures Leads(old(p.Snap()), PerformRest(old(p.rest)), p.Snap(), Ok(members, p.rest))
    decreases |p.rest|, 22
  {
    hide Clean, IsSuffix, Lookahead, Reaches, MoreParts, OptionalTypes, Relationships, BracedOrEmpty;
    ghost var a := p.Snap();
    FollowsRefl(a);
    var action := p.Match(KW_ACTION);
    ghost var b := p.Snap();
    var named := p.current.Name?;
    var name := TakeName(p);
    FollowsFrom(a, b, p.Snap());
    if named {
      ghost var c := p.Snap();
      var q := TakeParts(p, QName(false, [name]));
      FollowsFrom(a, c, p.Snap());
    }
    ghost var d := p.Snap();
    var types := ParseOptionalTypes(p);
    FollowsFrom(a, d, p.Snap());
    ghost var e := p.Snap();
    var f := ParseRelationships(p);
    FollowsFrom(a, e, p.Snap());
    FollowsReaches(a, p.Snap());
    ghost var g := p.Snap();
    members := ParseBody(p);
    ReachesClean(a, g, p.Snap());
  }

  /** The `event` statement. */
  method ParseEvent(p: Parser, v: Visibility)
    requires p.Valid()
    modifies p, p.sc
    ensures p.Valid() && Reaches(old(p.Snap()), p.Snap())
    ensures Leads(old(p.Snap()), EventRest(v, old(p.rest)), p.Snap(), Ok((), p.rest))
    decreases |p.rest|, 25
  {
    hide Clean, IsSuffix, Lookahead, Reaches, DefinitionOrUsage, Reference;
    ghost var a := p.Snap();
    if p.current == Sym(KW_OCCURRENCE) {
      p.Advance();
      FollowsReaches(a, p.Snap());
      ghost var b := p.Snap();
      var d := ParseDefinitionOrUsage(p, KW_OCCURRENCE, v, Undirected, PLAIN);
      ReachesClean(a, b, p.Snap());
    } else {
      var q := DottedReference(p);
      ghost var c := p.Snap();
      Require(p, SEMICOLON);
      FollowsFrom(a, c, p.Snap());
      FollowsReaches(a, p.Snap());
    }
  }

  /** Skips the word `case` if it is there. */
  method SkipCase(p: Parser) returns (present: bool)
    requires p.Valid()
    modifies p, p.sc
    ensures p.Valid() && Follows(old(p.Snap()), p.Snap())
    ensures present == (old(p.current) == Name(WORD_CASE))
    ensures Leads(old(p.Snap()), Ok((), DropWord(WORD_CASE, old(p.rest))), p.Snap(), Ok((), p.rest))
  {
    hide Clean, IsSuffix, Lookahead;
    FollowsRefl(p.Snap());
    present := p.current == Name(WORD_CASE);
    if present { p.Advance(); }
  }

  /** The second word of such a kind. */
  method SkipSecondWord(p: Parser, first: Kind) returns (present: bool)
    requires p.Valid()
    modifies p, p.sc
    ensures p.Valid() && Follows(old(p.Snap()), p.Snap())
    ensures Leads(old(p.Snap()), SecondWord(first, old(p.rest)), p.Snap(), if present then Ok((), p.rest) else Fail)
    ensures !present ==> SecondWord(first, old(p.rest)) == Fail
  {
    hide Clean, IsSuffix, Lookahead;
    ghost var a := p.Snap();
    FollowsRefl(a);
    present := true;
    if first == KW_EXHIBIT {
      present := p.Match(KW_STATE);
    } else if first == KW_USE {
      present := SkipCase(p);
    } else {
      var use := p.Match(KW_USE);
      if use {
        ghost var b := p.Snap();
        var word := SkipCase(p);
        FollowsFrom(a, b, p.Snap());
      }
    }
  }

  /** `include [use case]`, `use case` and `exhibit state`, after their first keyword; None after an
      error in it. */
  method ParseTwoWordKind(p: Parser, first: Kind, v: Visibility, dir: Direction, m: Modifiers) returns (d: Option<Decl>)
    requires p.Valid()
    modifies p, p.sc
    ensures p.Valid() && Reaches(old(p.Snap()), p.Snap())
    ensures Leads(old(p.Snap()), Unmodelled(TwoWordRest(first, v, dir, m, old(p.rest))), p.Snap(), Ok(d, p.rest))
    decreases |p.rest|, 25
  {
    hide Clean, IsSuffix, Lookahead, Reaches, SecondWord, DefinitionOrUsage;
    ghost var a := p.Snap();
    var present := SkipSecondWord(p, first);
    FollowsReaches(a, p.Snap());
    ghost var c := p.Snap();
    if present {
      var u := ParseDefinitionOrUsage(p, if first == KW_EXHIBIT then KW_STATE else first, v, dir, m);
      ReachesClean(a, c, p.Snap());
      d := Some(Other);
    } else {
      RejectPrefix(p, true);
      ReachesThen(a, c, p.Snap());
      d := None;
    }
  }

  /** A declaration that begins with a name. */
  method ParseNamed(p: Parser, v: Visibility, dir: Direction, m: Modifiers) returns (d: Option<Decl>)
    requires p.Valid() && p.current.Name? && !IsForkJoin(p.current)
    modifies p, p.sc
    ensures p.Valid() && Reaches(old(p.Snap()), p.Snap()) && |p.rest| < |old(p.rest)|
    ensures Leads(old(p.Snap()), Node(NamedBody(v, dir, m, old(p.rest))), p.Snap(), Ok(d, p.rest))
    decreases |p.rest|, 15
  {
    hide Clean, IsSuffix, Lookahead, Reaches, UsageRest, BareRest;
    ghost var a := p.Snap();
    if m.isReference || dir != Undirected {
      var u := ParseUsage(p, KW_REF, v, dir, m);
      return Some(u);
    }
    var name := p.current.text;
    p.Advance();
    FollowsReaches(a, p.Snap());
    if IsRelationToken(p.current) || p.current == Sym(EQUAL) || p.current == Sym(KW_DEFAULT) {
      ghost var b := p.Snap();
      var u := ParseBareFeature(p, v, name);
      ReachesClean(a, b, p.Snap());
      return Some(u);
    }
    ghost var c := p.Snap();
    RejectPrefix(p, true);
    ReachesThen(a, c, p.Snap());
    return None;
  }

  /** The clauses of a feature that is declared by its name alone. */
  method ParseBareFeature(p: Parser, v: Visibility, name: string) returns (d: Decl)
    requires p.Valid()
    modifies p, p.sc
    ensures p.Valid() && Reaches(old(p.Snap()), p.Snap())
    ensures Leads(old(p.Snap()), BareRest(v, name, old(p.rest)), p.Snap(), Ok(d, p.rest))
    decreases |p.rest|, 22
  {
    hide Clean, IsSuffix, Lookahead, Reaches, Relationships, Value, BracedOrEmpty;
    ghost var a := p.Snap();
    var f := ParseRelationships(p);
    ghost var b := p.Snap();
    var value := ParseValue(p, true);
    FollowsFrom(a, b, p.Snap());
    FollowsReaches(a, p.Snap());
    ghost var c := p.Snap();
    var members := ParseBody(p);
    ReachesClean(a, c, p.Snap());
    d := Usage(v, KW_REF, Undirected, PLAIN, name, f, [], value, members);
  }

  /** The keywords of constructs without a modelled node. */
  predicate IsUnmodelled(k: Kind): (r: bool)
    ensures r ==> k != EOF
  {
    IsPrefixless(k) || k == KW_CONSTRAINT || k == KW_VARIANT || k == KW_VARIATION || k == KW_INCLUDE
  }

  /** A statement of one of the prefixless kinds, after its keyword. */
  method ParsePrefixless(p: Parser, k: Kind, v: Visibility) returns (d: Option<Decl>)
    requires p.Valid() && IsPrefixless(k)
    modifies p, p.sc
    ensures p.Valid() && Reaches(old(p.Snap()), p.Snap())
    ensures Agrees(old(p.Snap()), PrefixlessRest(k, v, old(p.rest)), p.Snap(), Ok(d, p.rest))
    ensures k != KW_COMMENT ==> Leads(old(p.Snap()), PrefixlessRest(k, v, old(p.rest)), p.Snap(), Ok(d, p.rest))
    decreases |p.rest|, 26
  {
    hide Clean, IsSuffix, Lookahead, Reaches, DefinitionOrUsage, EventRest, TwoWordRest, PerformRest, SimpleRest, From;
    ghost var a := p.Snap();
    d := Some(Other);
    if k == KW_CALC {
      var u := ParseDefinitionOrUsage(p, KW_CALC, v, Undirected, PLAIN);
    } else if k == KW_EVENT {
      ParseEvent(p, v);
    } else if k == KW_USE || k == KW_EXHIBIT {
      d := ParseTwoWordKind(p, k, v, Undirected, PLAIN);
    } else if k == KW_PERFORM {
      var members := ParsePerform(p);
    } else if k == KW_FILTER {
      ParseFilter(p);
      FollowsReaches(a, p.Snap());
      d := None;
    } else {
      ParseSimple(p, k);
      FollowsReaches(a, p.Snap());
    }
  }

  /** The `filter` statement, which is skipped. */
  method ParseFilter(p: Parser)
    requires p.Valid()
    modifies p, p.sc
    ensures p.Valid() && Follows(old(p.Snap()), p.Snap())
    ensures Leads(old(p.Snap()), Ok((), Drop(SEMICOLON, From({SEMICOLON}, old(p.rest)))), p.Snap(), Ok((), p.rest))
  {
    hide Clean, IsSuffix, Lookahead, From;
    ghost var a := p.Snap();
    SkipUntil(p, {SEMICOLON});
    ghost var b := p.Snap();
    var ended := p.Match(SEMICOLON);
    if ended { FollowsFrom(a, b, p.Snap()); }
  }

  /** The statements without members among them. */
  method ParseSimple(p: Parser, k: Kind)
    requires p.Valid() && IsPrefixless(k) && k !in {KW_CALC, KW_EVENT, KW_USE, KW_EXHIBIT, KW_PERFORM, KW_FILTER}
    modifies p, p.sc
    ensures p.Valid() && Follows(old(p.Snap()), p.Snap())
    ensures Agrees(old(p.Snap()), SimpleRest(k, old(p.rest)), p.Snap(), Ok((), p.rest))
    ensures k != KW_COMMENT ==> Leads(old(p.Snap()), SimpleRest(k, old(p.rest)), p.Snap(), Ok((), p.rest))
  {
    hide Clean, IsSuffix, Lookahead, CommentRest, SatisfyRest, LifecycleRest, ReturnRest, AssertionRest, SubjectRest,
         ConnectRest, BindRest;
    if k == KW_COMMENT { ParseComment(p); }
    else if k == KW_SATISFY { ParseSatisfy(p); }
    else if k == KW_ENTRY || k == KW_EXIT || k == KW_DO { ParseLifecycle(p); }
    else if k == KW_RETURN { ParseReturn(p); }
    else if k == KW_ASSERT || k == KW_ASSUME || k == KW_REQUIRE { ParseAssertion(p, k == KW_ASSUME); }
    else if k == KW_SUBJECT { ParseSubject(p); }
    else if k == KW_CONNECT || k == KW_ALLOCATE { ParseConnect(p, k == KW_ALLOCATE); }
    else { ParseBind(p); }
  }

  /** After `variant` or `variation`: a declaration of another kind, or a usage. */
  method ParseVariant(p: Parser, k: Kind, v: Visibility, dir: Direction, m: Modifiers) returns (d: Option<Decl>)
    requires p.Valid()
    modifies p, p.sc
    ensures p.Valid() && Reaches(old(p.Snap()), p.Snap())
    ensures Leads(old(p.Snap()), VariantRest(k, v, dir, m, old(p.rest)), p.Snap(), Ok(d, p.rest))
    decreases |p.rest|, 25
  {
    hide Clean, IsSuffix, Lookahead, Reaches, DeclGrammar.Declaration, DefinitionOrUsage;
    if IsVariantKind(p.current) {
      d := ParseDeclaration(p);
    } else {
      var u := ParseDefinitionOrUsage(p, k, v, dir, m);
      d := Some(Other);
    }
  }

  method ParsePrefixlessKind(p: Parser, k: Kind, v: Visibility, dir: Direction, m: Modifiers) returns (d: Option<Decl>)
    requires p.Valid() && IsPrefixless(k)
    modifies p, p.sc
    ensures p.Valid() && Reaches(old(p.Snap()), p.Snap())
    ensures Agrees(old(p.Snap()), PrefixlessKind(k, v, dir, m, old(p.rest)), p.Snap(), Ok(d, p.rest))
    ensures k != KW_COMMENT ==>
      Leads(old(p.Snap()), PrefixlessKind(k, v, dir, m, old(p.rest)), p.Snap(), Ok(d, p.rest))
    decreases |p.rest|, 27
  {
    hide Clean, IsSuffix, Lookahead, Reaches, PrefixlessRest, IsPrefixless;
    ghost var a := p.Snap();
    RejectPrefix(p, dir != Undirected || m != PLAIN || (k == KW_COMMENT && v != DefaultVisibility));
    FollowsReaches(a, p.Snap());
    ghost var b := p.Snap();
    d := ParsePrefixless(p, k, v);
    ReachesClean(a, b, p.Snap());
  }

  /** A construct without a modelled node, after its keyword. */
  method ParseUnmodelledRest(p: Parser, k: Kind, v: Visibility, dir: Direction, m: Modifiers) returns (d: Option<Decl>)
    requires p.Valid() && IsUnmodelled(k)
    modifies p, p.sc
    ensures p.Valid() && Reaches(old(p.Snap()), p.Snap())
    ensures Agrees(old(p.Snap()), UnmodelledRest(k, v, dir, m, old(p.rest)), p.Snap(), Ok(d, p.rest))
    ensures k != KW_COMMENT ==>
      Leads(old(p.Snap()), UnmodelledRest(k, v, dir, m, old(p.rest)), p.Snap(), Ok(d, p.rest))
    decreases |p.rest|, 28
  {
    hide Clean, IsSuffix, Lookahead, Reaches, PrefixlessKind, TwoWordRest, DefinitionOrUsage, VariantRest, IsPrefixless;
    if IsPrefixless(k) {
      d := ParsePrefixlessKind(p, k, v, dir, m);
    } else if k == KW_INCLUDE {
      d := ParseTwoWordKind(p, k, v, dir, m);
    } else if k != KW_CONSTRAINT {
      d := ParseVariant(p, k, v, dir, m);
    } else {
      var u := ParseDefinitionOrUsage(p, k, v, dir, m);
      d := Some(Other);
    }
  }

  /** A construct without a modelled node, whose keyword is the current token. */
  method ParseUnmodelled(p: Parser, k: Kind, v: Visibility, dir: Direction, m: Modifiers) returns (d: Option<Decl>)
    requires p.Valid() && IsUnmodelled(k) && p.current == Sym(k) && p.rest != []
    modifies p, p.sc
    ensures p.Valid() && Reaches(old(p.Snap()), p.Snap()) && |p.rest| < |old(p.rest)|
    ensures Leads(old(p.Snap()), UnmodelledRest(k, v, dir, m, old(p.rest)[1..]), p.Snap(), Ok(d, p.rest))
    decreases |p.rest|, 10
  {
    hide Clean, IsSuffix, Lookahead, Reaches, UnmodelledRest, IsUnmodelled;
    ghost var a := p.Snap();
    p.Advance();
    FollowsReaches(a, p.Snap());
    ghost var c := p.Snap();
    d := ParseUnmodelledRest(p, k, v, dir, m);
    ReachesClean(a, c, p.Snap());
  }

  method ParseModelled(p: Parser, k: Kind, v: Visibility) returns (d: Decl)
    requires p.Valid() && IsModelled(k)
    modifies p, p.sc
    ensures p.Valid() && Reaches(old(p.Snap()), p.Snap())
    ensures Leads(old(p.Snap()), Modelled(k, v, old(p.rest)), p.Snap(), Ok(d, p.rest))
    decreases |p.rest|, 27
  {
    hide Clean, IsSuffix, Lookahead, Reaches, PackageRest, ImportRest, AliasRest, DependencyRest, TransitionRest,
         SuccessionOf;
    ghost var a := p.Snap();
    if k == KW_PACKAGE {
      d := ParsePackage(p, v);
      return;
    }
    if k == KW_SUCCESSION || k == KW_FIRST || k == KW_THEN {
      d := ParseSuccession(p, k);
      return;
    }
    if k == KW_IMPORT {
      d := ParseImport(p, v);
    } else if k == KW_ALIAS {
      d := ParseAlias(p, v);
    } else if k == KW_DEPENDENCY {
      d := ParseDependency(p, v);
    } else {
      d := ParseTransition(p);
    }
    FollowsReaches(a, p.Snap());
  }

  /** An attribute definition or usage, whose keyword is the current token. */
  method ParseAttributeOrDef(p: Parser, v: Visibility, dir: Direction, m: Modifiers) returns (d: Decl)
    requires p.Valid() && p.current == Sym(KW_ATTRIBUTE) && p.rest != []
    modifies p, p.sc
    ensures p.Valid() && Reaches(old(p.Snap()), p.Snap()) && |p.rest| < |old(p.rest)|
    ensures Leads(old(p.Snap()), if dir != Undirected then Fail else AttributeOrDef(v, m, old(p.rest)[1..]), p.Snap(),
                  Ok(d, p.rest))
    decreases |p.rest|, 12
  {
    hide Clean, IsSuffix, Lookahead, Reaches, DefinitionOrUsage, AttributeRest;
    ghost var a := p.Snap();
    p.Advance();
    ghost var b := p.Snap();
    RejectPrefix(p, dir != Undirected);
    FollowsFrom(a, b, p.Snap());
    FollowsReaches(a, p.Snap());
    ghost var c := p.Snap();
    if p.current == Sym(KW_DEF) {
      d := ParseDefinitionOrUsage(p, KW_ATTRIBUTE, v, dir, m);
      ReachesClean(a, c, p.Snap());
    } else {
      d := ParseAttribute(p, v, m);
      ReachesThen(a, c, p.Snap());
    }
  }

  /** The dispatch on the kind keyword, after the prefixes. */
  method ParseKind(p: Parser, v: Visibility, dir: Direction, m: Modifiers) returns (d: Option<Decl>)
    requires p.Valid()
    modifies p, p.sc
    ensures p.Valid() && Reaches(old(p.Snap()), p.Snap())
    ensures old(p.rest) != [] ==> |p.rest| < |old(p.rest)|
    ensures Leads(old(p.Snap()), Body(v, dir, m, old(p.rest)), p.Snap(), Ok(d, p.rest))
    decreases |p.rest|, 18, 0
  {
    hide Clean, IsSuffix, Lookahead, Reaches, NamedBody, DefinitionOrUsage, AttributeOrDef, PackageRest, ImportRest,
         AliasRest, DependencyRest, TransitionRest, SuccessionOf;
    ghost var a := p.Snap();
    if p.current.Name? {
      d := ParseNameFirst(p, v, dir, m);
      return;
    }
    if p.current.Sym? && p.current.kind in PLAIN_KINDS {
      var k := p.current.kind;
      p.Advance();
      FollowsReaches(a, p.Snap());
      ghost var b := p.Snap();
      var u := ParseDefinitionOrUsage(p, k, v, dir, m);
      ReachesClean(a, b, p.Snap());
      return Some(u);
    }
    d := ParseOtherKind(p, v, dir, m);
  }

  method ParseNameFirst(p: Parser, v: Visibility, dir: Direction, m: Modifiers) returns (d: Option<Decl>)
    requires p.Valid() && p.current.Name? && p.rest != []
    modifies p, p.sc
    ensures p.Valid() && Reaches(old(p.Snap()), p.Snap()) && |p.rest| < |old(p.rest)|
    ensures Leads(old(p.Snap()), Body(v, dir, m, old(p.rest)), p.Snap(), Ok(d, p.rest))
    decreases |p.rest|, 16
  {
    hide Clean, IsSuffix, Lookahead, Reaches, NamedBody;
    ghost var a := p.Snap();
    if IsForkJoin(p.current) {
      ParseForkJoin(p);
      FollowsReaches(a, p.Snap());
      d := Some(Other);
    } else {
      d := ParseNamed(p, v, dir, m);
    }
  }

  lemma ModelledBody(v: Visibility, dir: Direction, m: Modifiers, ts: seq<Token>, k: Kind)
    requires Head(ts) == Sym(k) && IsModelled(k) && ts != []
    ensures Body(v, dir, m, ts) == if dir != Undirected || m != PLAIN then Fail else Node(Modelled(k, v, ts[1..]))
  {
    hide AttributeOrDef, PackageRest, ImportRest, AliasRest, DependencyRest, TransitionRest, SuccessionOf, NamedBody,
         DefinitionOrUsage;
  }

  method ParseModelledKind(p: Parser, v: Visibility, dir: Direction, m: Modifiers) returns (d: Decl)
    requires p.Valid() && p.current.Sym? && IsModelled(p.current.kind)
    modifies p, p.sc
    ensures p.Valid() && Reaches(old(p.Snap()), p.Snap()) && |p.rest| < |old(p.rest)|
    ensures Leads(old(p.Snap()), Body(v, dir, m, old(p.rest)), p.Snap(), Ok(Some(d), p.rest))
    decreases |p.rest|, 12
  {
    hide Clean, IsSuffix, Lookahead, Reaches, Body, Modelled;
    ghost var a := p.Snap();
    var k := p.current.kind;
    ModelledBody(v, dir, m, a.rest, k);
    p.Advance();
    ghost var b := p.Snap();
    RejectPrefix(p, dir != Undirected || m != PLAIN);
    FollowsFrom(a, b, p.Snap());
    FollowsReaches(a, p.Snap());
    ghost var c := p.Snap();
    d := ParseModelled(p, k, v);
    ReachesClean(a, c, p.Snap());
  }

  /** The arms of the dispatch that are not plain kinds. */
  method ParseOtherKind(p: Parser, v: Visibility, dir: Direction, m: Modifiers) returns (d: Option<Decl>)
    requires p.Valid() && !p.current.Name? && !(p.current.Sym? && p.current.kind in PLAIN_KINDS)
    modifies p, p.sc
    ensures p.Valid() && Reaches(old(p.Snap()), p.Snap())
    ensures old(p.rest) != [] ==> |p.rest| < |old(p.rest)|
    ensures Leads(old(p.Snap()), Body(v, dir, m, old(p.rest)), p.Snap(), Ok(d, p.rest))
    decreases |p.rest|, 17
  {
    hide Clean, IsSuffix, Lookahead, Reaches, Body, AttributeOrDef, AttributeRest, UnmodelledRest, IsUnmodelled;
    ghost var a := p.Snap();
    d := None;
    if p.current == Sym(KW_ATTRIBUTE) {
      AttributeBody(v, dir, m, a.rest);
      var u := ParseAttributeOrDef(p, v, dir, m);
      return Some(u);
    }
    if p.current.Sym? && IsModelled(p.current.kind) {
      var u := ParseModelledKind(p, v, dir, m);
      return Some(u);
    }
    OtherBody(v, dir, m, a.rest);
    if p.current.Sym? && IsUnmodelled(p.current.kind) {
      d := ParseUnmodelled(p, p.current.kind, v, dir, m);
    } else if StartsBareAttribute(p.current) {
      var u := ParseBareAttribute(p, v, dir, m);
      d := Some(u);
    } else {
      RejectPrefix(p, true);
      ghost var f := p.Snap();
      p.Advance();
      FollowsFrom(a, f, p.Snap());
      FollowsReaches(a, p.Snap());
    }
  }

  /** An attribute without its keyword. */
  method ParseBareAttribute(p: Parser, v: Visibility, dir: Direction, m: Modifiers) returns (d: Decl)
    requires p.Valid() && StartsBareAttribute(p.current)
    modifies p, p.sc
    ensures p.Valid() && Reaches(old(p.Snap()), p.Snap()) && |p.rest| < |old(p.rest)|
    ensures Leads(old(p.Snap()), if dir != Undirected then Fail else AttributeRest(v, m, old(p.rest)), p.Snap(), Ok(d, p.rest))
  {
    hide Clean, IsSuffix, Lookahead, AttributeRest;
    ghost var a := p.Snap();
    RejectPrefix(p, dir != Undirected);
    ghost var b := p.Snap();
    d := ParseAttribute(p, v, m);
    FollowsFrom(a, b, p.Snap());
    FollowsReaches(a, p.Snap());
  }

  lemma AttributeBody(v: Visibility, dir: Direction, m: Modifiers, ts: seq<Token>)
    requires ts != [] && ts[0] == Sym(KW_ATTRIBUTE)
    ensures Body(v, dir, m, ts) == if dir != Undirected then Fail else Node(AttributeOrDef(v, m, ts[1..]))
  {
    hide AttributeOrDef;
  }

  lemma OtherBody(v: Visibility, dir: Direction, m: Modifiers, ts: seq<Token>)
    requires !Head(ts).Name? && Head(ts) != Sym(KW_ATTRIBUTE)
    requires Head(ts).Sym? ==> Head(ts).kind !in PLAIN_KINDS && !IsModelled(Head(ts).kind)
    ensures Body(v, dir, m, ts) ==
      if ts != [] && ts[0].Sym? && IsUnmodelled(ts[0].kind) then UnmodelledRest(ts[0].kind, v, dir, m, ts[1..])
      else if StartsBareAttribute(Head(ts)) then if dir != Undirected then Fail else Node(AttributeRest(v, m, ts))
      else Fail
  {
    hide DefinitionOrUsage, AttributeOrDef, NamedBody, Modelled, PrefixlessRest, TwoWordRest, AttributeRest,
         DeclGrammar.Declaration;
  }

  /** `declaration`. */
  method ParseDeclaration(p: Parser) returns (d: Option<Decl>)
    requires p.Valid() && p.rest != []
    modifies p, p.sc
    ensures p.Valid() && Reaches(old(p.Snap()), p.Snap()) && |p.rest| < |old(p.rest)|
    ensures Leads(old(p.Snap()), DeclGrammar.Declaration(old(p.rest)), p.Snap(), Ok(d, p.rest))
    decreases |p.rest|, 19
  {
    hide Clean, IsSuffix, Lookahead, Reaches, Prefixed, DocRest, Metadata;
    ghost var a := p.Snap();
    var statement := SkipMetadata(p);
    FollowsReaches(a, p.Snap());
    if statement && (p.current == Sym(RIGHT_BRACE) || p.current == Sym(EOF)) {
      return None;
    }
    ghost var b := p.Snap();
    if p.current == Sym(KW_DOC) || p.current.DocBody? {
      d := ParseDoc(p);
      ReachesThen(a, b, p.Snap());
    } else {
      d := ParsePrefixed(p);
      ReachesClean(a, b, p.Snap());
    }
  }

  /** A declaration with its optional prefixes. */
  method ParsePrefixed(p: Parser) returns (d: Option<Decl>)
    requires p.Valid()
    modifies p, p.sc
    ensures p.Valid() && Reaches(old(p.Snap()), p.Snap())
    ensures old(p.rest) != [] ==> |p.rest| < |old(p.rest)|
    ensures Leads(old(p.Snap()), Prefixed(old(p.rest)), p.Snap(), Ok(d, p.rest))
    decreases |p.rest|, 18, 1
  {
    hide Clean, IsSuffix, Lookahead, Reaches, DeclGrammar.Body, ModifiersOf;
    ghost var a := p.Snap();
    var v := VisibilityOf(p.current);
    if v != DefaultVisibility { p.Advance(); }
    if v == DefaultVisibility { FollowsRefl(a); }
    ghost var c := p.Snap();
    var dir := DirectionOf(p.current);
    if dir != Undirected {
      p.Advance();
      FollowsFrom(a, c, p.Snap());
    }
    ghost var e := p.Snap();
    var m := ParseModifiers(p);
    FollowsFrom(a, e, p.Snap());
    FollowsReaches(a, p.Snap());
    ghost var f := p.Snap();
    d := ParseKind(p, v, dir, m);
    ReachesClean(a, f, p.Snap());
  }

  /** `parse`: reads the whole input, whatever it is. */
  method Parse(source: string) returns (program: seq<Decl>, p: Parser)
    requires IsSource(source)
    ensures fresh(p) && fresh(p.sc) && p.Valid() && p.current == Sym(EOF) && p.rest == []
    ensures var ts := Lex(source, 0, false);
      && (!p.hadError ==> ProgramOf([], ts) == Ok(program, []))
      && (Readable(ts) && ProgramOf([], ts).Ok? ==> !p.hadError)
    ensures !p.hadError ==> p.syncs == 0 && !p.panicMode
  {
    hide Clean, IsSuffix, Lookahead, Reaches, DeclGrammar.Declaration, Lex;
    p := new Parser(source);
    program := [];
    ghost var a := p.Snap();
    ReachesRefl(a);
    while p.current != Sym(EOF)
      invariant p.Valid() && fresh(p) && fresh(p.sc) && Reaches(a, p.Snap())
      invariant Leads(a, ProgramOf([], a.rest), p.Snap(), ProgramOf(program, p.rest))
      decreases |p.rest|
    {
      ghost var b := p.Snap();
      var d := ParseDeclaration(p);
      ReachesClean(a, b, p.Snap());
      program := Append(program, d);
      ghost var c := p.Snap();
      Recover(p);
      ReachesClean(a, c, p.Snap());
    }
    ReachesClean(a, p.Snap(), p.Snap());
  }
}
