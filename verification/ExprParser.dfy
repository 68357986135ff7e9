/** The Pratt parser over the scanner's token stream, proved against the grammar of `Pratt`
    on every input, malformed or not. */
module ExprParser {
  import opened Tokens
  import opened Syntax
  import opened Pratt
  import opened ParserCommon

  /** The unit suffixes when `n` tokens of them are already read, `d` brackets being open. */
  function More(n: nat, ts: seq<Token>, d: nat): Result<nat> {
    var m := UnitsLength(ts, d);
    Ok(n + m, ts[m..])
  }

  lemma FollowsRefl(a: Snapshot)
    ensures Follows(a, a)
  {
    hide Clean;
    SuffixRefl(a.rest);
  }

  /** `identifierExpr`: the first segment `w` is already consumed. */
  method IdentifierExpr(p: Parser, w: string) returns (e: Expr, ghost t: Tree)
    requires p.Valid()
    modifies p, p.sc
    ensures p.Valid() && Follows(old(p.Snap()), p.Snap()) && e == Erase(t)
    ensures Simulates(old(p.Snap()), Segments([w], old(p.rest)), p.Snap(), Ok(t, p.rest))
  {
    hide Clean, IsSuffix, Lookahead;
    var parts := [w];
    ghost var a := p.Snap();
    FollowsRefl(a);
    while p.current == Sym(COLON_COLON)
      invariant p.Valid() && Follows(a, p.Snap())
      invariant Simulates(a, Segments([w], a.rest), p.Snap(), Segments(parts, p.rest))
      decreases |p.rest|
    {
      ghost var b := p.Snap();
      p.Advance();
      FollowsTrans(a, b, p.Snap());
      if !p.current.Name? {
        p.ErrorAtCurrent();
        FollowsTrans(a, b, p.Snap());
        break;
      }
      parts := parts + [p.current.text];
      ghost var c := p.Snap();
      p.Advance();
      FollowsTrans(a, c, p.Snap());
    }
    e, t := Path(parts), Names(parts);
  }

  /** Reads up to the bracket that closes the open one, or to the end of input. */
  method SkipBrackets(p: Parser) returns (ghost skipped: nat)
    requires p.Valid()
    modifies p, p.sc
    ensures p.Valid() && Follows(old(p.Snap()), p.Snap())
    ensures Simulates(old(p.Snap()), More(0, old(p.rest), 1), p.Snap(), More(skipped, p.rest, 0))
  {
    hide Clean, IsSuffix, Lookahead;
    ghost var a := p.Snap();
    skipped := 0;
    FollowsRefl(a);
    var depth := 1;
    while depth > 0 && p.current != Sym(EOF)
      invariant p.Valid() && Follows(a, p.Snap())
      invariant Simulates(a, More(0, a.rest, 1), p.Snap(), More(skipped, p.rest, depth))
      decreases |p.rest|
    {
      ghost var c := p.Snap();
      if p.current == Sym(LEFT_BRACKET) {
        depth := depth + 1;
      } else if p.current == Sym(RIGHT_BRACKET) {
        depth := depth - 1;
      }
      p.Advance();
      FollowsTrans(a, c, p.Snap());
      skipped := skipped + 1;
    }
  }

  /** The loop over unit suffixes: bracketed tokens that leave no trace in the tree. */
  method SkipUnits(p: Parser) returns (ghost skipped: nat)
    requires p.Valid()
    modifies p, p.sc
    ensures p.Valid() && Follows(old(p.Snap()), p.Snap())
    ensures Simulates(old(p.Snap()), More(0, old(p.rest), 0), p.Snap(), Ok(skipped, p.rest))
  {
    hide Clean, IsSuffix, Lookahead;
    ghost var a := p.Snap();
    skipped := 0;
    FollowsRefl(a);
    while p.current == Sym(LEFT_BRACKET)
      invariant p.Valid() && Follows(a, p.Snap())
      invariant Simulates(a, More(0, a.rest, 0), p.Snap(), More(skipped, p.rest, 0))
      decreases |p.rest|
    {
      ghost var b := p.Snap();
      p.Advance();
      FollowsTrans(a, b, p.Snap());
      ghost var c := p.Snap();
      ghost var n := SkipBrackets(p);
      FollowsTrans(a, c, p.Snap());
      skipped := skipped + 1 + n;
    }
  }

  lemma EraseAppend(ts: seq<Tree>, t: Tree)
    ensures EraseAll(ts + [t]) == EraseAll(ts) + [Erase(t)]
  {
    assert (ts + [t])[..|ts|] == ts;
  }

  lemma EraseFew(t: Tree)
    ensures EraseAll([]) == [] && EraseAll([t]) == [Erase(t)]
  {
    EraseAppend([], t);
    assert [] + [t] == [t];
  }

  /** `expression`. */
  method Expression(p: Parser) returns (e: Expr, ghost t: Tree)
    requires p.Valid()
    modifies p, p.sc
    ensures p.Valid() && Consumes(old(p.Snap()), p.Snap()) && e == Erase(t)
    ensures Simulates(old(p.Snap()), Level(old(p.rest), PREC_ASSIGNMENT), p.Snap(), Ok(t, p.rest))
    decreases |p.rest|, 4
  {
    e, t := ParsePrecedence(p, PREC_ASSIGNMENT);
  }

  method ParsePrecedence(p: Parser, prec: nat) returns (e: Expr, ghost t: Tree)
    requires p.Valid() && prec > 0
    modifies p, p.sc
    ensures p.Valid() && Consumes(old(p.Snap()), p.Snap()) && e == Erase(t)
    ensures Simulates(old(p.Snap()), Level(old(p.rest), prec), p.Snap(), Ok(t, p.rest))
    decreases |p.rest|, 3
  {
    hide Clean, IsSuffix, Lookahead, Step, Operand, UnitsLength;
    ghost var a := p.Snap();
    e, t := PrefixPart(p);
    ghost var b := p.Snap();
    ghost var n := SkipUnits(p);
    t := if 0 < n <= |b.rest| then Measured(t, b.rest[..n]) else t;
    FollowsTrans(a, b, p.Snap());
    while prec <= Precedence(p.current)
      invariant p.Valid() && Consumes(a, p.Snap()) && e == Erase(t)
      invariant Simulates(a, Level(a.rest, prec), p.Snap(), Extend(t, p.rest, prec))
      decreases |p.rest|
    {
      ghost var c := p.Snap();
      e, t := InfixPart(p, e, t);
      FollowsTrans(a, c, p.Snap());
    }
  }

  /** The prefix rule of the next token. */
  method PrefixPart(p: Parser) returns (e: Expr, ghost t: Tree)
    requires p.Valid()
    modifies p, p.sc
    ensures p.Valid() && Consumes(old(p.Snap()), p.Snap()) && e == Erase(t)
    ensures Simulates(old(p.Snap()), Operand(old(p.rest)), p.Snap(), Ok(t, p.rest))
    decreases |p.rest|, 2
  {
    hide Clean, IsSuffix, Lookahead, Level, Segments;
    ghost var a := p.Snap();
    p.Advance();
    ghost var b := p.Snap();
    match p.previous
    case Number(w) => e, t := Literal(if '.' in w then RealLit else IntLit, w), Leaf(p.previous);
    case Text(w) => e, t := Literal(StringLit, w), Leaf(p.previous);
    case Name(w) =>
      e, t := IdentifierExpr(p, w);
      FollowsTrans(a, b, p.Snap());
    case Sym(k) =>
      if k == KW_TRUE || k == KW_FALSE {
        e, t := Literal(BoolLit, if k == KW_TRUE then "true" else "false"), Leaf(p.previous);
      } else if k == LEFT_PAREN {
        e, t := Grouping(p);
        FollowsTrans(a, b, p.Snap());
      } else if IsPrefixOp(k) {
        e, t := ParsePrecedence(p, PREC_UNARY);
        e, t := Unary(k, e), Prefix(k, t);
        FollowsTrans(a, b, p.Snap());
      } else {
        p.ErrorAtCurrent();
        e, t := Literal(IntLit, ""), Leaf(Bad(""));
      }
    case _ =>
      p.ErrorAtCurrent();
      e, t := Literal(IntLit, ""), Leaf(Bad(""));
  }

  /** The expressions that follow `es`, each after a comma. */
  method MoreItems(p: Parser, es: seq<Expr>, ghost ts: seq<Tree>) returns (all: seq<Expr>, ghost trees: seq<Tree>)
    requires p.Valid() && es == EraseAll(ts)
    modifies p, p.sc
    ensures p.Valid() && Follows(old(p.Snap()), p.Snap()) && all == EraseAll(trees)
    ensures Simulates(old(p.Snap()), Items(ts, old(p.rest)), p.Snap(), Ok(trees, p.rest))
    decreases |p.rest|, 5
  {
    hide Clean, IsSuffix, Lookahead, Level;
    ghost var a := p.Snap();
    all, trees := es, ts;
    FollowsRefl(a);
    while p.current == Sym(COMMA)
      invariant p.Valid() && Follows(a, p.Snap()) && all == EraseAll(trees)
      invariant Simulates(a, Items(ts, a.rest), p.Snap(), Items(trees, p.rest))
      decreases |p.rest|
    {
      ghost var b := p.Snap();
      p.Advance();
      FollowsTrans(a, b, p.Snap());
      ghost var c := p.Snap();
      var e; ghost var t;
      e, t := Expression(p);
      FollowsTrans(a, c, p.Snap());
      EraseAppend(trees, t);
      all, trees := all + [e], trees + [t];
    }
  }

  /** `grouping`: the opening parenthesis is already consumed. */
  method Grouping(p: Parser) returns (e: Expr, ghost t: Tree)
    requires p.Valid()
    modifies p, p.sc
    ensures p.Valid() && Consumes(old(p.Snap()), p.Snap()) && e == Erase(t)
    ensures Simulates(old(p.Snap()), Pratt.Grouping(old(p.rest)), p.Snap(), Ok(t, p.rest))
    decreases |p.rest|, 6
  {
    hide Clean, IsSuffix, Lookahead, Level, Items, EraseAll;
    ghost var a := p.Snap();
    e, t := Expression(p);
    ghost var b := p.Snap();
    EraseFew(t);
    var es; ghost var ts;
    es, ts := MoreItems(p, [e], [t]);
    FollowsTrans(a, b, p.Snap());
    ghost var c := p.Snap();
    p.Consume(RIGHT_PAREN);
    FollowsTrans(a, c, p.Snap());
    if |es| == 1 {
      t := Group(t);
    } else {
      e, t := Tuple(es), List(ts);
    }
  }

  /** `callExpr`: the opening parenthesis is already consumed. */
  method CallExpr(p: Parser, callee: Expr, ghost f: Tree) returns (e: Expr, ghost args: seq<Tree>)
    requires p.Valid() && callee == Erase(f)
    modifies p, p.sc
    ensures p.Valid() && Follows(old(p.Snap()), p.Snap()) && e == Erase(Apply(f, args))
    ensures Simulates(old(p.Snap()), Arguments(old(p.rest)), p.Snap(), Ok(args, p.rest))
    decreases |p.rest|, 6
  {
    hide Clean, IsSuffix, Lookahead, Level, Items, EraseAll;
    ghost var a := p.Snap();
    var es := [];
    args := [];
    EraseFew(f);
    FollowsRefl(a);
    if p.current != Sym(RIGHT_PAREN) {
      var first; ghost var t;
      first, t := Expression(p);
      ghost var b := p.Snap();
      EraseFew(t);
      es, args := MoreItems(p, [first], [t]);
      FollowsTrans(a, b, p.Snap());
    }
    ghost var c := p.Snap();
    p.Consume(RIGHT_PAREN);
    FollowsTrans(a, c, p.Snap());
    e := Call(callee, es);
  }

  /** `dotAccess`: the period is already consumed. */
  method DotAccess(p: Parser, target: Expr, ghost l: Tree) returns (e: Expr, ghost t: Tree)
    requires p.Valid() && target == Erase(l)
    modifies p, p.sc
    ensures p.Valid() && Follows(old(p.Snap()), p.Snap()) && e == Erase(t)
    ensures Simulates(old(p.Snap()), Segment(l, old(p.rest)), p.Snap(), Ok(t, p.rest))
  {
    hide Clean, IsSuffix, Lookahead;
    ghost var a := p.Snap();
    if p.current.Name? {
      e, t := Member(target, p.current.text), Dot(l, p.current.text);
      p.Advance();
    } else {
      p.ErrorAtCurrent();
      FollowsRefl(a);
      e, t := Member(target, "."), Dot(l, ".");
    }
  }

  /** The member name after a period. */
  function Segment(l: Tree, ts: seq<Token>): Result<Tree> {
    if Head(ts).Name? then Ok(Dot(l, ts[0].text), ts[1..]) else Fail
  }

  /** The infix rule of the next token: `binaryExpr`, `callExpr` or `dotAccess`. */
  method InfixPart(p: Parser, left: Expr, ghost l: Tree) returns (e: Expr, ghost t: Tree)
    requires p.Valid() && p.rest != [] && Precedence(p.current) > 0 && left == Erase(l)
    modifies p, p.sc
    ensures p.Valid() && Consumes(old(p.Snap()), p.Snap()) && e == Erase(t)
    ensures Simulates(old(p.Snap()), Step(l, old(p.rest)), p.Snap(), Ok(t, p.rest))
    decreases |p.rest|, 1
  {
    hide Clean, IsSuffix, Lookahead, Level, Arguments, KindPrecedence;
    ghost var a := p.Snap();
    p.Advance();
    ghost var b := p.Snap();
    if p.previous == Sym(LEFT_PAREN) {
      ghost var args;
      e, args := CallExpr(p, left, l);
      t := Apply(l, args);
      FollowsTrans(a, b, p.Snap());
    } else if p.previous == Sym(PERIOD) {
      e, t := DotAccess(p, left, l);
      FollowsTrans(a, b, p.Snap());
    } else {
      var op := p.previous.kind;
      e, t := ParsePrecedence(p, Precedence(p.previous) + 1);
      e, t := Binary(op, left, e), Infix(op, l, t);
      FollowsTrans(a, b, p.Snap());
    }
  }
}
