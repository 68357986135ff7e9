/** Qualified names, references and feature clauses, and the loops that skip what has no node;
    proved against `DeclGrammar` on every input. */
module ClauseParser {
  import opened Basics
  import opened Tokens
  import opened Outline
  import opened Pratt
  import opened DeclGrammar
  import opened ParserCommon
  import opened ExprParser

  /** `ra` is what the grammar says from state `a` on and `rb` what it says from the later state `b`
      on: without a panic or a recovery the two agree. */
  ghost predicate Agrees<T>(a: Snapshot, ra: Result<T>, b: Snapshot, rb: Result<T>) {
    !b.panic && b.syncs == a.syncs ==> ra == rb
  }

  /** As `Agrees`, and neither arises where the grammar has a parse. */
  ghost predicate Leads<T>(a: Snapshot, ra: Result<T>, b: Snapshot, rb: Result<T>) {
    Agrees(a, ra, b, rb) && (!a.panic && Readable(a.rest) && ra.Ok? ==> !b.panic && b.syncs == a.syncs)
  }

  lemma SuffixReadable(b: seq<Token>, a: seq<Token>)
    requires IsSuffix(b, a) && Readable(a)
    ensures Readable(b)
  {
    hide Clean;
    SuffixClean(b, a);
    assert forall i | 0 <= i < |b| :: b[i] == a[|a| - |b| + i];
  }

  lemma FollowsFrom(a: Snapshot, b: Snapshot, c: Snapshot)
    requires Follows(a, b) && Follows(b, c)
    ensures Follows(a, c)
    ensures |c.rest| <= |b.rest| <= |a.rest|
    ensures Readable(a.rest) ==> Readable(b.rest) && Readable(c.rest)
  {
    hide IsSuffix, Clean, Readable;
    FollowsTrans(a, b, c);
    if Readable(a.rest) {
      SuffixReadable(b.rest, a.rest);
      SuffixReadable(c.rest, a.rest);
    }
  }

  /** `consume` of a name. */
  method ConsumeName(p: Parser) returns (w: string)
    requires p.Valid()
    modifies p, p.sc
    ensures p.Valid() && Follows(old(p.Snap()), p.Snap())
    ensures Leads(old(p.Snap()), Identifier(old(p.rest)), p.Snap(), Ok(w, p.rest))
    ensures old(p.current).Name? ==> Consumes(old(p.Snap()), p.Snap())
  {
    hide Clean, IsSuffix, Lookahead;
    ghost var a := p.Snap();
    FollowsRefl(a);
    w := "";
    if p.current.Name? {
      w := p.current.text;
      p.Advance();
    } else {
      p.ErrorAtCurrent();
    }
  }

  /** An optional name. */
  method TakeName(p: Parser) returns (w: string)
    requires p.Valid()
    modifies p, p.sc
    ensures p.Valid() && Follows(old(p.Snap()), p.Snap())
    ensures Leads(old(p.Snap()), Ok(OptionalName(old(p.rest)).0, OptionalName(old(p.rest)).1), p.Snap(), Ok(w, p.rest))
    ensures old(p.current).Name? ==> Consumes(old(p.Snap()), p.Snap())
    ensures !old(p.current).Name? ==> p.Snap() == old(p.Snap()) && w == "" && p.current == old(p.current)
  {
    hide Clean, IsSuffix, Lookahead;
    ghost var a := p.Snap();
    FollowsRefl(a);
    w := "";
    if p.current.Name? {
      w := p.current.text;
      p.Advance();
    }
  }

  /** Reads up to the token that closes the open bracket, or to the end. */
  method SkipNested(p: Parser, open: Kind, close: Kind)
    requires p.Valid()
    modifies p, p.sc
    ensures p.Valid() && Follows(old(p.Snap()), p.Snap())
    ensures Leads(old(p.Snap()), Ok((), Closed(open, close, old(p.rest), 1)), p.Snap(), Ok((), p.rest))
  {
    hide Clean, IsSuffix, Lookahead;
    ghost var a := p.Snap();
    FollowsRefl(a);
    var depth := 1;
    while depth > 0 && p.current != Sym(EOF)
      invariant p.Valid() && Follows(a, p.Snap())
      invariant Leads(a, Ok((), Closed(open, close, a.rest, 1)), p.Snap(), Ok((), Closed(open, close, p.rest, depth)))
      decreases |p.rest|
    {
      ghost var b := p.Snap();
      if p.current == Sym(open) {
        depth := depth + 1;
      } else if p.current == Sym(close) {
        depth := depth - 1;
      }
      p.Advance();
      FollowsFrom(a, b, p.Snap());
    }
  }

  /** `consume` of a fixed token. */
  method Require(p: Parser, k: Kind)
    requires p.Valid() && k != EOF
    modifies p, p.sc
    ensures p.Valid() && Follows(old(p.Snap()), p.Snap())
    ensures Leads(old(p.Snap()), Expect(k, old(p.rest)), p.Snap(), Ok((), p.rest))
  {
    hide Clean, IsSuffix, Lookahead;
    FollowsRefl(p.Snap());
    p.Consume(k);
  }

  /** The parts of a qualified name after its first one. */
  method TakeParts(p: Parser, first: QName) returns (q: QName)
    requires p.Valid()
    modifies p, p.sc
    ensures p.Valid() && Follows(old(p.Snap()), p.Snap())
    ensures Leads(old(p.Snap()), MoreParts(first, old(p.rest)), p.Snap(), Ok(q, p.rest))
  {
    hide Clean, IsSuffix, Lookahead;
    ghost var a := p.Snap();
    q := first;
    FollowsRefl(a);
    while p.current == Sym(COLON_COLON) || p.current == Sym(PERIOD)
      invariant p.Valid() && Follows(a, p.Snap())
      invariant Leads(a, MoreParts(first, a.rest), p.Snap(), MoreParts(q, p.rest))
      decreases |p.rest|
    {
      ghost var b := p.Snap();
      p.Advance();
      FollowsFrom(a, b, p.Snap());
      if !p.current.Name? {
        p.ErrorAtCurrent();
        break;
      }
      q := q.(parts := q.parts + [p.current.text]);
      ghost var c := p.Snap();
      p.Advance();
      FollowsFrom(a, c, p.Snap());
    }
  }

  /** The parts of a path after its first one, where only `sep` separates them. */
  method TakePartsBy(p: Parser, sep: Kind, first: QName) returns (q: QName)
    requires p.Valid() && sep != EOF
    modifies p, p.sc
    ensures p.Valid() && Follows(old(p.Snap()), p.Snap())
    ensures Leads(old(p.Snap()), PartsBy(sep, first, old(p.rest)), p.Snap(), Ok(q, p.rest))
  {
    hide Clean, IsSuffix, Lookahead;
    ghost var a := p.Snap();
    q := first;
    FollowsRefl(a);
    while p.current == Sym(sep)
      invariant p.Valid() && Follows(a, p.Snap())
      invariant Leads(a, PartsBy(sep, first, a.rest), p.Snap(), PartsBy(sep, q, p.rest))
      decreases |p.rest|
    {
      ghost var b := p.Snap();
      p.Advance();
      FollowsFrom(a, b, p.Snap());
      ghost var c := p.Snap();
      var w := ConsumeName(p);
      FollowsFrom(a, c, p.Snap());
      q := q.(parts := q.parts + [w]);
    }
  }

  /** `qualifiedName`. */
  method ParseQualifiedName(p: Parser) returns (q: QName)
    requires p.Valid()
    modifies p, p.sc
    ensures p.Valid() && Follows(old(p.Snap()), p.Snap())
    ensures Leads(old(p.Snap()), QualifiedName(old(p.rest)), p.Snap(), Ok(q, p.rest))
  {
    hide Clean, IsSuffix, Lookahead, MoreParts;
    ghost var a := p.Snap();
    FollowsRefl(a);
    q := QName(false, []);
    var tilde := p.Match(TILDE);
    q := q.(conjugated := tilde);
    if !p.current.Name? {
      p.ErrorAtCurrent();
      return;
    }
    q := q.(parts := [p.current.text]);
    ghost var b := p.Snap();
    p.Advance();
    FollowsFrom(a, b, p.Snap());
    ghost var c := p.Snap();
    q := TakeParts(p, q);
    FollowsFrom(a, c, p.Snap());
  }

  /** `appendQualifiedNameList`, after the names `qs`. */
  method ParseNameList(p: Parser, before: seq<QName>) returns (qs: seq<QName>)
    requires p.Valid()
    modifies p, p.sc
    ensures p.Valid() && Follows(old(p.Snap()), p.Snap()) && |qs| > |before|
    ensures Leads(old(p.Snap()), NameList(before, old(p.rest)), p.Snap(), Ok(qs, p.rest))
  {
    hide Clean, IsSuffix, Lookahead, QualifiedName;
    ghost var a := p.Snap();
    var q := ParseQualifiedName(p);
    qs := before + [q];
    while p.current == Sym(COMMA)
      invariant p.Valid() && Follows(a, p.Snap()) && |qs| > |before|
      invariant Leads(a, NameList(before, a.rest), p.Snap(), ListTail(qs, p.rest))
      decreases |p.rest|
    {
      ghost var b := p.Snap();
      p.Advance();
      FollowsFrom(a, b, p.Snap());
      ghost var c := p.Snap();
      q := ParseQualifiedName(p);
      FollowsFrom(a, c, p.Snap());
      qs := qs + [q];
    }
  }

  /** The rest of a list after the names `qs`. */
  function ListTail(qs: seq<QName>, ts: seq<Token>): Result<seq<QName>> {
    if Head(ts) == Sym(COMMA) then NameList(qs, ts[1..]) else Ok(qs, ts)
  }

  /** `dottedReference`, with its leading bracket and its trailing refinement. */
  method DottedReference(p: Parser) returns (q: QName)
    requires p.Valid()
    modifies p, p.sc
    ensures p.Valid() && Follows(old(p.Snap()), p.Snap())
    ensures Leads(old(p.Snap()), Reference(old(p.rest)), p.Snap(), Ok(q, p.rest))
  {
    hide Clean, IsSuffix, Lookahead, MoreParts, Closed, AfterRefinement;
    ghost var a := p.Snap();
    FollowsRefl(a);
    var bracket := p.Match(LEFT_BRACKET);
    if bracket {
      ghost var b := p.Snap();
      SkipNested(p, LEFT_BRACKET, RIGHT_BRACKET);
      FollowsFrom(a, b, p.Snap());
    }
    ghost var c := p.Snap();
    var w := ConsumeName(p);
    FollowsFrom(a, c, p.Snap());
    ghost var d := p.Snap();
    q := TakeParts(p, QName(false, [w]));
    FollowsFrom(a, d, p.Snap());
    ghost var e := p.Snap();
    SkipRefinement(p);
    FollowsFrom(a, e, p.Snap());
  }

  /** A refinement at the end of a reference, which leaves no trace. */
  method SkipRefinement(p: Parser)
    requires p.Valid()
    modifies p, p.sc
    ensures p.Valid() && Follows(old(p.Snap()), p.Snap())
    ensures Leads(old(p.Snap()), Ok((), AfterRefinement(old(p.rest))), p.Snap(), Ok((), p.rest))
  {
    hide Clean, IsSuffix, Lookahead, AfterPath;
    ghost var a := p.Snap();
    FollowsRefl(a);
    if !StartsRefinement(p.current) {
      return;
    }
    p.Advance();
    if p.current.Name? {
      ghost var b := p.Snap();
      p.Advance();
      FollowsFrom(a, b, p.Snap());
      ghost var c := p.Snap();
      SkipPath(p);
      FollowsFrom(a, c, p.Snap());
    }
  }

  /** Further segments of a path that leaves no trace. */
  method SkipPath(p: Parser)
    requires p.Valid()
    modifies p, p.sc
    ensures p.Valid() && Follows(old(p.Snap()), p.Snap())
    ensures Leads(old(p.Snap()), Ok((), AfterPath(old(p.rest))), p.Snap(), Ok((), p.rest))
  {
    hide Clean, IsSuffix, Lookahead;
    ghost var a := p.Snap();
    FollowsRefl(a);
    while p.current == Sym(PERIOD) || p.current == Sym(COLON_COLON)
      invariant p.Valid() && Follows(a, p.Snap())
      invariant Leads(a, Ok((), AfterPath(a.rest)), p.Snap(), Ok((), AfterPath(p.rest)))
      decreases |p.rest|
    {
      ghost var b := p.Snap();
      p.Advance();
      FollowsFrom(a, b, p.Snap());
      ghost var c := p.Snap();
      var w := TakeName(p);
      FollowsFrom(a, c, p.Snap());
    }
  }

  // ---- clauses ----------------------------------------------------------------------------

  method ParseBound(p: Parser) returns (b: Bound)
    requires p.Valid()
    modifies p, p.sc
    ensures p.Valid() && Follows(old(p.Snap()), p.Snap())
    ensures Leads(old(p.Snap()), BoundOf(old(p.rest)), p.Snap(), Ok(b, p.rest))
  {
    hide Clean, IsSuffix, Lookahead, LongOf;
    FollowsRefl(p.Snap());
    b := Count(0);
    if p.current == Sym(STAR) {
      b := Star;
      p.Advance();
    } else if p.current.Number? {
      b := Count(LongOf(p.current.text));
      p.Advance();
    } else {
      p.ErrorAtCurrent();
    }
  }

  /** `parseMultiplicity`: the opening bracket is already consumed. */
  method ParseMultiplicity(p: Parser) returns (m: Multiplicity)
    requires p.Valid()
    modifies p, p.sc
    ensures p.Valid() && Follows(old(p.Snap()), p.Snap())
    ensures Leads(old(p.Snap()), MultiplicityOf(old(p.rest)), p.Snap(), Ok(m, p.rest))
  {
    hide Clean, IsSuffix, Lookahead, BoundOf;
    ghost var a := p.Snap();
    var lower := ParseBound(p);
    var upper := None;
    ghost var b := p.Snap();
    var range := p.Match(DOT_DOT);
    if range {
      FollowsFrom(a, b, p.Snap());
      ghost var c := p.Snap();
      var u := ParseBound(p);
      upper := Some(u);
      FollowsFrom(a, c, p.Snap());
    }
    ghost var d := p.Snap();
    Require(p, RIGHT_BRACKET);
    FollowsFrom(a, d, p.Snap());
    m := Multiplicity(lower, upper);
  }

  method ParseOrdering(p: Parser)
    requires p.Valid()
    modifies p, p.sc
    ensures p.Valid() && Follows(old(p.Snap()), p.Snap())
    ensures Leads(old(p.Snap()), Ok((), SkipOrdering(old(p.rest))), p.Snap(), Ok((), p.rest))
  {
    hide Clean, IsSuffix, Lookahead;
    ghost var a := p.Snap();
    FollowsRefl(a);
    while p.current == Sym(KW_NONUNIQUE) || p.current == Sym(KW_ORDERED)
      invariant p.Valid() && Follows(a, p.Snap())
      invariant Leads(a, Ok((), SkipOrdering(a.rest)), p.Snap(), Ok((), SkipOrdering(p.rest)))
      decreases |p.rest|
    {
      ghost var b := p.Snap();
      p.Advance();
      FollowsFrom(a, b, p.Snap());
    }
  }

  /** `parseFeatureRelationships`. */
  method ParseRelationships(p: Parser) returns (f: Features)
    requires p.Valid()
    modifies p, p.sc
    ensures p.Valid() && Follows(old(p.Snap()), p.Snap())
    ensures Leads(old(p.Snap()), Relationships(BARE, old(p.rest)), p.Snap(), Ok(f, p.rest))
    ensures IsRelationToken(old(p.current)) ==> Consumes(old(p.Snap()), p.Snap())
  {
    hide Clean, IsSuffix, Lookahead;
    ghost var a := p.Snap();
    f := BARE;
    FollowsRefl(a);
    var more := true;
    while more
      invariant p.Valid() && Follows(a, p.Snap())
      invariant more ==> Leads(a, Relationships(BARE, a.rest), p.Snap(), Relationships(f, p.rest))
      invariant !more ==> Leads(a, Relationships(BARE, a.rest), p.Snap(), Ok(f, p.rest))
      invariant IsRelationToken(Head(a.rest)) ==> |p.rest| < |a.rest| || (more && p.Snap() == a)
      decreases |p.rest|, more
    {
      ghost var b, g := p.Snap(), f;
      f, more := ParseClause(p, f);
      FollowsFrom(a, b, p.Snap());
    }
  }

  /** One round of the clause loop. */
  method ParseClause(p: Parser, f: Features) returns (g: Features, more: bool)
    requires p.Valid()
    modifies p, p.sc
    ensures p.Valid() && Follows(old(p.Snap()), p.Snap())
    ensures more == IsRelationToken(old(p.current))
    ensures more ==> Consumes(old(p.Snap()), p.Snap())
    ensures !more ==> g == f && p.Snap() == old(p.Snap())
    ensures more ==> Leads(old(p.Snap()), Relationships(f, old(p.rest)), p.Snap(), Relationships(g, p.rest))
    ensures !more ==> Leads(old(p.Snap()), Relationships(f, old(p.rest)), p.Snap(), Ok(f, p.rest))
  {
    hide Clean, IsSuffix, Lookahead, NameList, MultiplicityOf, SkipOrdering;
    ghost var a := p.Snap();
    g, more := f, IsRelationToken(p.current);
    FollowsRefl(a);
    if !more {
      return;
    }
    var opener := p.current;
    p.Advance();
    if opener == Sym(LEFT_BRACKET) {
      g := ParseBracket(p, f, a);
    } else {
      g := ParseNames(p, opener, f, a);
    }
  }

  /** The multiplicity clause, after its opening bracket. */
  method ParseBracket(p: Parser, f: Features, ghost a: Snapshot) returns (g: Features)
    requires p.Valid() && Took(a, p.Snap()) && Head(a.rest) == Sym(LEFT_BRACKET)
    modifies p, p.sc
    ensures p.Valid() && Follows(a, p.Snap()) && |p.rest| < |a.rest|
    ensures Leads(a, Relationships(f, a.rest), p.Snap(), Relationships(g, p.rest))
  {
    hide Clean, IsSuffix, Lookahead, MultiplicityOf, SkipOrdering;
    if f.multiplicity.Some? { p.ErrorAtCurrent(); }
    ghost var b := p.Snap();
    var m := ParseMultiplicity(p);
    FollowsFrom(a, b, p.Snap());
    ghost var c := p.Snap();
    ParseOrdering(p);
    FollowsFrom(a, c, p.Snap());
    g := f.(multiplicity := Some(m));
  }

  /** A clause that lists names, after its opening token. */
  method ParseNames(p: Parser, opener: Token, f: Features, ghost a: Snapshot) returns (g: Features)
    requires p.Valid() && Took(a, p.Snap()) && a.rest != [] && Head(a.rest) == opener
    requires opener == Sym(COLON) || IsSuper(opener) || IsRedefines(opener)
    modifies p, p.sc
    ensures p.Valid() && Follows(a, p.Snap()) && |p.rest| < |a.rest|
    ensures Leads(a, Relationships(f, a.rest), p.Snap(), Relationships(g, p.rest))
  {
    hide Clean, IsSuffix, Lookahead, NameList;
    var before := if opener == Sym(COLON) then f.types else if IsSuper(opener) then f.supers else f.redefines;
    if before != [] { p.ErrorAtCurrent(); }
    ghost var b := p.Snap();
    var qs := ParseNameList(p, before);
    FollowsFrom(a, b, p.Snap());
    g := if opener == Sym(COLON) then f.(types := qs) else if IsSuper(opener) then f.(supers := qs) else f.(redefines := qs);
  }
}
