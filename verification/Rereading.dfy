/** What reading back the printed form of an expression gives: the exact tree, when it is the
    original one, and where repeated printing and reading settles. */
module Rereading {
  import opened Tokens
  import opened Syntax
  import opened Pratt
  import opened PrattTheory
  import opened Printing
  import opened Sequences

  /** A part of an expression that, in the printed text, follows its left operand without a
      parenthesis in between.  `PowerPost` is the tail of a parenthesised `**` node. */
  datatype Post = CallPost(args: seq<Expr>) | DotPost(member: string) | PowerPost(right: Expr)

  function PostSpell(k: Post): seq<Token> {
    match k
    case CallPost(args) => [Sym(LEFT_PAREN)] + SpellList(args) + [Sym(RIGHT_PAREN)]
    case DotPost(m) => [Sym(PERIOD), Name(m)]
    case PowerPost(r) => [Sym(STAR_STAR)] + Spell(r)
  }

  function PostsSpell(ks: seq<Post>): seq<Token> {
    if ks == [] then [] else PostSpell(ks[0]) + PostsSpell(ks[1..])
  }

  /** The measure of the recursions below. */
  function Size(e: Expr): (n: nat)
    ensures n > 0
  {
    match e
    case Literal(_, _) => 1
    case Path(_) => 1
    case Unary(_, x) => 1 + Size(x)
    case Binary(_, l, r) => 3 + Size(l) + Size(r)
    case Call(f, args) => 2 + Size(f) + ListSize(args)
    case Tuple(items) => 1 + ListSize(items)
    case Member(x, _) => 2 + Size(x)
  }

  function ListSize(items: seq<Expr>): nat {
    if items == [] then 0 else ListSize(items[..|items| - 1]) + Size(items[|items| - 1])
  }

  lemma {:induction false} ItemSize(items: seq<Expr>, i: nat)
    requires i < |items|
    ensures Size(items[i]) <= ListSize(items)
  {
    if i < |items| - 1 { ItemSize(items[..|items| - 1], i); }
  }

  function PostSize(k: Post): nat {
    match k
    case CallPost(args) => 1 + ListSize(args)
    case DotPost(_) => 1
    case PowerPost(r) => 1 + Size(r)
  }

  function PostsSize(ks: seq<Post>): nat {
    if ks == [] then 0 else PostSize(ks[0]) + PostsSize(ks[1..])
  }

  lemma OnePost(k: Post)
    ensures PostsSize([k]) == PostSize(k) && PostsSpell([k]) == PostSpell(k)
  {
    assert [k][1..] == [];
    assert PostSpell(k) + [] == PostSpell(k);
  }

  /** The parse tree read from the tokens of `e` followed by `ks`: a prefix operator in front
      of a run of postfix parts captures all of them. */
  function Chain(e: Expr, ks: seq<Post>): Tree
    decreases Size(e) + PostsSize(ks), 2
  {
    match e
    case Unary(op, x) => Prefix(op, Chain(x, ks))
    case Call(f, args) => Chain(f, [CallPost(args)] + ks)
    case Member(x, m) => Chain(x, [DotPost(m)] + ks)
    case _ => Attach(Closed(e), ks)
  }

  /** Trees whose printed form is one literal, one name or one pair of parentheses. */
  function Closed(e: Expr): Tree
    requires !e.Unary? && !e.Call? && !e.Member?
    decreases Size(e), 1
  {
    match e
    case Literal(kind, x) => Leaf(LiteralToken(kind, x))
    case Path(parts) => Names(parts)
    case Tuple(items) => List(ReadAll(items))
    case Binary(op, l, r) =>
      if op == STAR_STAR then (OnePost(PowerPost(r)); Group(Chain(l, [PowerPost(r)])))
      else Group(Infix(op, Chain(l, []), Chain(r, [])))
  }

  /** `t` with one more postfix part. */
  function Wrap(t: Tree, k: Post): Tree
    decreases PostSize(k), 0
  {
    match k
    case CallPost(args) => Apply(t, ReadAll(args))
    case DotPost(m) => Dot(t, m)
    case PowerPost(r) => Infix(STAR_STAR, t, Chain(r, []))
  }

  function Attach(t: Tree, ks: seq<Post>): Tree
    decreases PostsSize(ks), 1, |ks|
  {
    if ks == [] then t else Attach(Wrap(t, ks[0]), ks[1..])
  }

  function ReadAll(items: seq<Expr>): (r: seq<Tree>)
    ensures |r| == |items|
    decreases ListSize(items), 3
  {
    if items == [] then []
    else ReadAll(items[..|items| - 1]) + [Chain(items[|items| - 1], [])]
  }

  /** The tree that reading back the printed form of `e` gives. */
  function Reread(e: Expr): Expr { Erase(Chain(e, [])) }

  // ---- the parse tree spells the printed tokens, and fits -------------------------

  lemma {:induction false} ChainSpells(e: Expr, ks: seq<Post>)
    ensures Yield(Chain(e, ks)) == Spell(e) + PostsSpell(ks)
    decreases Size(e) + PostsSize(ks), 3
  {
    match e {
      case Unary(op, x) =>
        ChainSpells(x, ks);
        Regroup3([Sym(op)], Spell(x), PostsSpell(ks));
      case Call(f, args) =>
        PushSpells(CallPost(args), ks);
        ChainSpells(f, [CallPost(args)] + ks);
        Regroup4(Spell(f), [Sym(LEFT_PAREN)], SpellList(args), [Sym(RIGHT_PAREN)]);
        Regroup3(Spell(f), PostSpell(CallPost(args)), PostsSpell(ks));
      case Member(x, m) =>
        PushSpells(DotPost(m), ks);
        ChainSpells(x, [DotPost(m)] + ks);
        Regroup3(Spell(x), PostSpell(DotPost(m)), PostsSpell(ks));
      case _ =>
        ClosedSpells(e);
        AttachSpells(Closed(e), ks);
    }
  }

  lemma PushSpells(k: Post, ks: seq<Post>)
    ensures PostsSpell([k] + ks) == PostSpell(k) + PostsSpell(ks)
    ensures PostsSize([k] + ks) == PostSize(k) + PostsSize(ks)
  {
    assert ([k] + ks)[1..] == ks;
  }

  lemma {:induction false} ClosedSpells(e: Expr)
    requires !e.Unary? && !e.Call? && !e.Member?
    ensures Yield(Closed(e)) == Spell(e)
    decreases Size(e), 1
  {
    match e {
      case Tuple(items) => ReadAllSpells(items);
      case Binary(op, l, r) =>
        if op == STAR_STAR {
          OnePost(PowerPost(r));
          ChainSpells(l, [PowerPost(r)]);
        } else {
          ChainSpells(l, []);
          ChainSpells(r, []);
        }
      case _ =>
    }
  }

  lemma {:induction false} CallSpells(t: Tree, args: seq<Expr>)
    ensures Yield(Apply(t, ReadAll(args))) == Yield(t) + PostSpell(CallPost(args))
    decreases 1 + ListSize(args), 0
  {
    ReadAllSpells(args);
    Regroup4(Yield(t), [Sym(LEFT_PAREN)], SpellList(args), [Sym(RIGHT_PAREN)]);
  }

  lemma {:induction false} PowerSpells(t: Tree, r: Expr)
    ensures Yield(Infix(STAR_STAR, t, Chain(r, []))) == Yield(t) + PostSpell(PowerPost(r))
    decreases 1 + Size(r), 0
  {
    ChainSpells(r, []);
    assert Spell(r) + [] == Spell(r);
    Regroup4(Yield(t), [Sym(STAR_STAR)], Spell(r), []);
  }

  lemma {:induction false} WrapSpells(t: Tree, k: Post)
    ensures Yield(Wrap(t, k)) == Yield(t) + PostSpell(k)
    decreases PostSize(k), 1
  {
    match k {
      case CallPost(args) => CallSpells(t, args);
      case DotPost(_) =>
      case PowerPost(r) => PowerSpells(t, r);
    }
  }

  lemma {:induction false} AttachSpells(t: Tree, ks: seq<Post>)
    ensures Yield(Attach(t, ks)) == Yield(t) + PostsSpell(ks)
    decreases PostsSize(ks), 2, |ks|
  {
    if ks != [] {
      WrapSpells(t, ks[0]);
      AttachSpells(Wrap(t, ks[0]), ks[1..]);
      Regroup3(Yield(t), PostSpell(ks[0]), PostsSpell(ks[1..]));
    }
  }

  lemma {:induction false} ReadAllSpells(items: seq<Expr>)
    ensures ItemsYield(ReadAll(items)) == SpellList(items)
    decreases ListSize(items), 4
  {
    if items != [] {
      var init, last := items[..|items| - 1], items[|items| - 1];
      ReadAllSpells(init);
      ChainSpells(last, []);
      var ts := ReadAll(items);
      assert ts[..|ts| - 1] == ReadAll(init) && ts[|ts| - 1] == Chain(last, []);
    }
  }

  /** Only the last part may be the tail of a power node. */
  predicate PowerLast(ks: seq<Post>) {
    forall i | 0 <= i < |ks| - 1 :: !ks[i].PowerPost?
  }

  /** The level at which a chain ending in `ks` can be read. */
  function ChainLevel(ks: seq<Post>): nat {
    if ks != [] && ks[|ks| - 1].PowerPost? then PREC_POWER else PREC_CALL
  }

  ghost predicate ShapedPost(k: Post) {
    match k
    case CallPost(args) => forall i | 0 <= i < |args| :: Shaped(args[i])
    case DotPost(_) => true
    case PowerPost(r) => Shaped(r)
  }

  ghost predicate ShapedPosts(ks: seq<Post>) {
    PowerLast(ks) && forall i | 0 <= i < |ks| :: ShapedPost(ks[i])
  }

  /** A tree that a token of lower precedence than a prefix operator ends. */
  ghost predicate Ends(t: Tree) {
    forall next: Token :: Precedence(next) < PREC_UNARY && next != Sym(LEFT_BRACKET) && next != Sym(COLON_COLON)
      ==> !Takes(t, next)
  }

  /** Any postfix part or operator can follow an operand that is not a prefix operator. */
  ghost predicate Extensible(t: Tree) {
    forall next: Token :: next != Sym(LEFT_BRACKET) && next != Sym(COLON_COLON) ==> !Takes(t, next)
  }

  lemma {:induction false} ChainFits(e: Expr, ks: seq<Post>, p: nat)
    requires Shaped(e) && ShapedPosts(ks)
    requires 0 < p <= ChainLevel(ks)
    ensures Fits(Chain(e, ks), p) && Ends(Chain(e, ks))
    decreases Size(e) + PostsSize(ks), 2
  {
    match e {
      case Unary(op, x) =>
        ChainFits(x, ks, PREC_UNARY);
      case Call(f, args) =>
        PushSpells(CallPost(args), ks);
        ChainFits(f, [CallPost(args)] + ks, p);
      case Member(x, m) =>
        PushSpells(DotPost(m), ks);
        ChainFits(x, [DotPost(m)] + ks, p);
      case _ =>
        ClosedFits(e, p);
        AttachFits(Closed(e), ks, p);
    }
  }

  lemma {:induction false} ClosedFits(e: Expr, p: nat)
    requires Shaped(e) && !e.Unary? && !e.Call? && !e.Member?
    ensures Fits(Closed(e), p) && Extensible(Closed(e))
    decreases Size(e), 1
  {
    match e {
      case Literal(_, _) =>
      case Path(_) =>
      case Tuple(items) => ReadAllFits(items);
      case Binary(op, l, r) => ParenthesisedFits(op, l, r);
    }
  }

  lemma {:induction false} ParenthesisedFits(op: Kind, l: Expr, r: Expr)
    requires IsBinaryOp(op) && Shaped(l) && Shaped(r)
    ensures FitsInside(Closed(Binary(op, l, r)).inner)
    decreases Size(l) + Size(r) + 2
  {
    if op == STAR_STAR {
      OnePost(PowerPost(r));
      ChainFits(l, [PowerPost(r)], PREC_ASSIGNMENT);
    } else {
      var q := Precedence(Sym(op));
      ChainFits(l, [], PREC_ASSIGNMENT);
      ChainFits(l, [], q);
      ChainFits(r, [], q + 1);
    }
  }

  lemma {:induction false} WrapFits(t: Tree, k: Post, p: nat)
    requires Fits(t, p) && Extensible(t) && ShapedPost(k)
    requires 0 < p <= ChainLevel([k])
    ensures Fits(Wrap(t, k), p) && Ends(Wrap(t, k))
    ensures !k.PowerPost? ==> Extensible(Wrap(t, k))
    decreases PostSize(k), 0
  {
    match k {
      case CallPost(args) => ReadAllFits(args);
      case DotPost(_) =>
      case PowerPost(r) => ChainFits(r, [], PREC_CALL);
    }
  }

  lemma {:induction false} AttachFits(t: Tree, ks: seq<Post>, p: nat)
    requires Fits(t, p) && Extensible(t) && ShapedPosts(ks)
    requires 0 < p <= ChainLevel(ks)
    ensures Fits(Attach(t, ks), p) && Ends(Attach(t, ks))
    decreases PostsSize(ks), 1, |ks|
  {
    if ks != [] {
      WrapFits(t, ks[0], p);
      if |ks| > 1 {
        AttachFits(Wrap(t, ks[0]), ks[1..], p);
      }
    }
  }

  lemma {:induction false} ReadAllFits(items: seq<Expr>)
    requires forall i | 0 <= i < |items| :: Shaped(items[i])
    ensures forall i | 0 <= i < |items| :: FitsInside(ReadAll(items)[i])
    decreases ListSize(items), 3
  {
    if items != [] {
      ReadAllFits(items[..|items| - 1]);
      ChainFits(items[|items| - 1], [], PREC_ASSIGNMENT);
    }
  }

  /** Parsing the tokens of the printed form, up to any token that ends an expression. */
  lemma SpellReadsBack(e: Expr, rest: seq<Token>)
    requires Shaped(e)
    requires Head(rest) == Sym(EOF) ==> rest == []
    requires Precedence(Head(rest)) == PREC_NONE
    requires Head(rest) != Sym(LEFT_BRACKET) && Head(rest) != Sym(COLON_COLON)
    ensures Level(Spell(e) + rest, PREC_ASSIGNMENT) == Ok(Chain(e, []), rest)
  {
    ChainSpells(e, []);
    ChainFits(e, [], PREC_ASSIGNMENT);
    assert Spell(e) + [] == Spell(e);
    ReadsBack(Chain(e, []), PREC_ASSIGNMENT, rest);
  }
}
