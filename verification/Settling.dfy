/** Exactly which expressions survive printing and reading, and why repeating the two
    settles. */
module Settling {
  import opened Tokens
  import opened Syntax
  import opened Pratt
  import opened Printing
  import opened Rereading

  /** No prefix operator is directly the left operand of `**`, a callee or a member target. */
  predicate Stable(e: Expr) {
    match e
    case Literal(_, _) => true
    case Path(_) => true
    case Unary(_, x) => Stable(x)
    case Binary(op, l, r) => Stable(l) && Stable(r) && (op == STAR_STAR ==> !l.Unary?)
    case Call(f, args) => Stable(f) && !f.Unary? && forall i | 0 <= i < |args| :: Stable(args[i])
    case Tuple(items) => forall i | 0 <= i < |items| :: Stable(items[i])
    case Member(x, _) => Stable(x) && !x.Unary?
  }

  /** Number of prefix operators. */
  function Unaries(e: Expr): nat {
    match e
    case Literal(_, _) => 0
    case Path(_) => 0
    case Unary(_, x) => 1 + Unaries(x)
    case Binary(_, l, r) => Unaries(l) + Unaries(r)
    case Call(f, args) => Unaries(f) + ListUnaries(args)
    case Tuple(items) => ListUnaries(items)
    case Member(x, _) => Unaries(x)
  }

  function ListUnaries(items: seq<Expr>): nat {
    if items == [] then 0 else ListUnaries(items[..|items| - 1]) + Unaries(items[|items| - 1])
  }

  /** Pairs of a prefix operator and a `**`, call or member access whose left operand,
      callee or target contains it. */
  function Pairs(e: Expr): nat {
    match e
    case Literal(_, _) => 0
    case Path(_) => 0
    case Unary(_, x) => Pairs(x)
    case Binary(op, l, r) => Pairs(l) + Pairs(r) + (if op == STAR_STAR then Unaries(l) else 0)
    case Call(f, args) => Pairs(f) + ListPairs(args) + Unaries(f)
    case Tuple(items) => ListPairs(items)
    case Member(x, _) => Pairs(x) + Unaries(x)
  }

  function ListPairs(items: seq<Expr>): nat {
    if items == [] then 0 else ListPairs(items[..|items| - 1]) + Pairs(items[|items| - 1])
  }

  // ---- chains before they are read -------------------------------------------------

  function Grow(e: Expr, k: Post): Expr {
    match k
    case CallPost(args) => Call(e, args)
    case DotPost(m) => Member(e, m)
    case PowerPost(r) => Binary(STAR_STAR, e, r)
  }

  /** The tree that `Chain(e, ks)` is the reading of. */
  function Original(e: Expr, ks: seq<Post>): Expr
    decreases |ks|
  {
    if ks == [] then e else Original(Grow(e, ks[0]), ks[1..])
  }

  /** `r` is a reading of `e`: as many prefix operators, no more pairs, and with as many
      pairs only if nothing moved. */
  predicate Settles(r: Expr, e: Expr) {
    && Unaries(r) == Unaries(e)
    && Pairs(r) <= Pairs(e)
    && (Pairs(r) == Pairs(e) ==> r == e && Stable(e))
  }

  predicate SettlesAll(rs: seq<Expr>, es: seq<Expr>) {
    && |rs| == |es|
    && ListUnaries(rs) == ListUnaries(es)
    && ListPairs(rs) <= ListPairs(es)
    && (ListPairs(rs) == ListPairs(es) ==> rs == es && forall i | 0 <= i < |es| :: Stable(es[i]))
  }

  lemma OriginalPush(e: Expr, k: Post, ks: seq<Post>)
    ensures Original(e, [k] + ks) == Original(Grow(e, k), ks)
  {
    assert ([k] + ks)[1..] == ks;
  }

  function PostUnaries(k: Post): nat {
    match k
    case CallPost(args) => ListUnaries(args)
    case DotPost(_) => 0
    case PowerPost(r) => Unaries(r)
  }

  function PostPairs(k: Post): nat {
    match k
    case CallPost(args) => ListPairs(args)
    case DotPost(_) => 0
    case PowerPost(r) => Pairs(r)
  }

  /** A postfix part pairs with every prefix operator to its left. */
  lemma GrowMeasure(e: Expr, k: Post)
    ensures Unaries(Grow(e, k)) == Unaries(e) + PostUnaries(k)
    ensures Pairs(Grow(e, k)) == Pairs(e) + Unaries(e) + PostPairs(k)
    ensures Stable(Grow(e, k)) <==> Stable(e) && !e.Unary? && StablePost(k)
  {
  }

  /** Adding a prefix operator under a chain adds one pair for every part of the chain. */
  lemma {:induction false} OriginalMeasure(e: Expr, f: Expr, ks: seq<Post>)
    requires Unaries(f) == Unaries(e) + 1
    ensures Unaries(Original(f, ks)) == Unaries(Original(e, ks)) + 1
    ensures Pairs(Original(f, ks)) - Pairs(Original(e, ks)) == Pairs(f) - Pairs(e) + |ks|
    decreases |ks|
  {
    if ks != [] {
      GrowMeasure(e, ks[0]);
      GrowMeasure(f, ks[0]);
      OriginalMeasure(Grow(e, ks[0]), Grow(f, ks[0]), ks[1..]);
    }
  }

  predicate StablePost(k: Post) {
    match k
    case CallPost(args) => forall i | 0 <= i < |args| :: Stable(args[i])
    case DotPost(_) => true
    case PowerPost(r) => Stable(r)
  }

  /** What stability of the whole says about the head of a chain. */
  lemma {:induction false} StableChain(e: Expr, ks: seq<Post>)
    ensures Stable(Original(e, ks)) <==>
      Stable(e) && (ks != [] ==> !e.Unary?) && forall i | 0 <= i < |ks| :: StablePost(ks[i])
    decreases |ks|
  {
    if ks != [] {
      GrowMeasure(e, ks[0]);
      StableChain(Grow(e, ks[0]), ks[1..]);
      assert forall i | 0 < i < |ks| :: ks[i] == ks[1..][i - 1];
    }
  }

  // ---- one reading never adds pairs ------------------------------------------------

  lemma {:induction false} ChainSettles(e: Expr, ks: seq<Post>)
    requires Shaped(e) && ShapedPosts(ks)
    ensures Settles(Erase(Chain(e, ks)), Original(e, ks))
    decreases Size(e) + PostsSize(ks), 3
  {
    match e {
      case Unary(op, x) =>
        ChainSettles(x, ks);
        OriginalMeasure(x, e, ks);
        if ks == [] { StableChain(x, ks); }
      case Call(f, args) =>
        PushSpells(CallPost(args), ks);
        OriginalPush(f, CallPost(args), ks);
        ChainSettles(f, [CallPost(args)] + ks);
      case Member(x, m) =>
        PushSpells(DotPost(m), ks);
        OriginalPush(x, DotPost(m), ks);
        ChainSettles(x, [DotPost(m)] + ks);
      case _ =>
        ClosedSettles(e);
        AttachSettles(Closed(e), e, ks);
    }
  }

  lemma {:induction false} ClosedSettles(e: Expr)
    requires Shaped(e) && !e.Unary? && !e.Call? && !e.Member?
    ensures Settles(Erase(Closed(e)), e)
    decreases Size(e), 1
  {
    match e {
      case Literal(kind, x) => LiteralErases(kind, x);
      case Path(_) =>
      case Tuple(items) => ReadAllSettles(items);
      case Binary(op, l, r) =>
        if op == STAR_STAR {
          OnePost(PowerPost(r));
          ChainSettles(l, [PowerPost(r)]);
          OriginalPush(l, PowerPost(r), []);
          assert [PowerPost(r)] + [] == [PowerPost(r)];
        } else {
          ChainSettles(l, []);
          ChainSettles(r, []);
        }
    }
  }

  lemma LiteralErases(kind: LiteralKind, x: string)
    requires IsLiteral(kind, x)
    ensures LeafLiteral(LiteralToken(kind, x)) == Literal(kind, x)
  {
    if kind == RealLit {
      var d: nat :| IsRealText(x, d);
      assert x[d] in x;
    }
  }

  /** The reading of one postfix part. */
  function ReadPost(k: Post): Post
  {
    match k
    case CallPost(args) => CallPost(EraseAll(ReadAll(args)))
    case DotPost(_) => k
    case PowerPost(r) => PowerPost(Erase(Chain(r, [])))
  }

  lemma WrapErases(t: Tree, k: Post)
    ensures Erase(Wrap(t, k)) == Grow(Erase(t), ReadPost(k))
  {
    hide Chain, ReadAll;
    match k {
      case CallPost(_) =>
      case DotPost(_) =>
      case PowerPost(_) =>
    }
  }

  lemma {:induction false} PostSettles(k: Post)
    requires ShapedPost(k)
    ensures PostUnaries(ReadPost(k)) == PostUnaries(k)
    ensures PostPairs(ReadPost(k)) <= PostPairs(k)
    ensures PostPairs(ReadPost(k)) == PostPairs(k) ==> ReadPost(k) == k && StablePost(k)
    decreases PostSize(k), 0
  {
    match k {
      case CallPost(args) => ReadAllSettles(args);
      case DotPost(_) =>
      case PowerPost(r) => ChainSettles(r, []);
    }
  }

  lemma {:induction false} WrapSettles(t: Tree, y: Expr, k: Post)
    requires ShapedPost(k) && !y.Unary?
    requires Settles(Erase(t), y)
    ensures Settles(Erase(Wrap(t, k)), Grow(y, k))
    decreases PostSize(k), 1
  {
    PostSettles(k);
    WrapErases(t, k);
    GrowMeasure(Erase(t), ReadPost(k));
    GrowMeasure(y, k);
  }

  lemma {:induction false} AttachSettles(t: Tree, y: Expr, ks: seq<Post>)
    requires ShapedPosts(ks) && !y.Unary?
    requires Settles(Erase(t), y)
    ensures Settles(Erase(Attach(t, ks)), Original(y, ks))
    decreases PostsSize(ks), 2, |ks|
  {
    if ks != [] {
      WrapSettles(t, y, ks[0]);
      AttachSettles(Wrap(t, ks[0]), Grow(y, ks[0]), ks[1..]);
    }
  }

  lemma EraseSnoc(ts: seq<Tree>, t: Tree)
    ensures EraseAll(ts + [t]) == EraseAll(ts) + [Erase(t)]
  {
    var us := ts + [t];
    assert us[..|us| - 1] == ts;
  }

  lemma ListMeasureSnoc(es: seq<Expr>, e: Expr)
    ensures ListUnaries(es + [e]) == ListUnaries(es) + Unaries(e)
    ensures ListPairs(es + [e]) == ListPairs(es) + Pairs(e)
  {
    var us := es + [e];
    assert us[..|us| - 1] == es;
  }

  lemma {:induction false} ReadAllSettles(items: seq<Expr>)
    requires forall i | 0 <= i < |items| :: Shaped(items[i])
    ensures SettlesAll(EraseAll(ReadAll(items)), items)
    decreases ListSize(items), 4
  {
    hide Settles, SettlesAll, Erase, EraseAll, Chain;
    if items == [] {
      SettlesNone();
    } else {
      var init, last := items[..|items| - 1], items[|items| - 1];
      ReadAllSettles(init);
      ChainSettles(last, []);
      EraseSnoc(ReadAll(init), Chain(last, []));
      SettlesSnoc(EraseAll(ReadAll(init)), Erase(Chain(last, [])), init, last);
      assert items == init + [last];
    }
  }

  lemma SettlesNone()
    ensures EraseAll([]) == [] && SettlesAll([], [])
  {
  }

  lemma SettlesSnoc(rs: seq<Expr>, r: Expr, es: seq<Expr>, e: Expr)
    requires SettlesAll(rs, es) && Settles(r, e)
    ensures SettlesAll(rs + [r], es + [e])
  {
    ListMeasureSnoc(rs, r);
    ListMeasureSnoc(es, e);
  }

  // ---- what a reading keeps -----------------------------------------------------------

  /** The literals, operators and names of the tokens a tree is made of. */
  ghost predicate GoodTree(t: Tree) {
    Shaped(Erase(t)) && Named(Erase(t))
  }

  predicate NamedPost(k: Post) {
    match k
    case CallPost(args) => forall i | 0 <= i < |args| :: Named(args[i])
    case DotPost(m) => PrintableName(m)
    case PowerPost(r) => Named(r)
  }

  lemma {:induction false} ChainKeeps(e: Expr, ks: seq<Post>)
    requires Shaped(e) && Named(e) && ShapedPosts(ks) && forall i | 0 <= i < |ks| :: NamedPost(ks[i])
    ensures GoodTree(Chain(e, ks))
    decreases Size(e) + PostsSize(ks), 3
  {
    match e {
      case Unary(op, x) =>
        ChainKeeps(x, ks);
      case Call(f, args) =>
        PushSpells(CallPost(args), ks);
        ChainKeeps(f, [CallPost(args)] + ks);
      case Member(x, m) =>
        PushSpells(DotPost(m), ks);
        ChainKeeps(x, [DotPost(m)] + ks);
      case _ =>
        ClosedKeeps(e);
        AttachKeeps(Closed(e), ks);
    }
  }

  lemma {:induction false} ClosedKeeps(e: Expr)
    requires Shaped(e) && Named(e) && !e.Unary? && !e.Call? && !e.Member?
    ensures GoodTree(Closed(e))
    decreases Size(e), 1
  {
    match e {
      case Literal(kind, x) => LiteralErases(kind, x);
      case Path(_) =>
      case Tuple(items) => ReadAllKeeps(items);
      case Binary(op, l, r) =>
        if op == STAR_STAR {
          OnePost(PowerPost(r));
          ChainKeeps(l, [PowerPost(r)]);
        } else {
          ChainKeeps(l, []);
          ChainKeeps(r, []);
        }
    }
  }

  lemma {:induction false} WrapKeeps(t: Tree, k: Post)
    requires GoodTree(t) && ShapedPost(k) && NamedPost(k)
    ensures GoodTree(Wrap(t, k))
    decreases PostSize(k), 0
  {
    WrapErases(t, k);
    match k {
      case CallPost(args) => ReadAllKeeps(args);
      case DotPost(_) =>
      case PowerPost(r) => ChainKeeps(r, []);
    }
  }

  lemma {:induction false} AttachKeeps(t: Tree, ks: seq<Post>)
    requires GoodTree(t) && ShapedPosts(ks) && forall i | 0 <= i < |ks| :: NamedPost(ks[i])
    ensures GoodTree(Attach(t, ks))
    decreases PostsSize(ks), 1, |ks|
  {
    if ks != [] {
      WrapKeeps(t, ks[0]);
      AttachKeeps(Wrap(t, ks[0]), ks[1..]);
    }
  }

  lemma {:induction false} ReadAllKeeps(items: seq<Expr>)
    requires forall i | 0 <= i < |items| :: Shaped(items[i]) && Named(items[i])
    ensures forall i | 0 <= i < |items| :: GoodTree(ReadAll(items)[i])
    decreases ListSize(items), 4
  {
    if items != [] {
      ReadAllKeeps(items[..|items| - 1]);
      ChainKeeps(items[|items| - 1], []);
    }
  }

  // ---- main results ------------------------------------------------------------------

  lemma {:induction false} StableReads(e: Expr, ks: seq<Post>)
    requires Shaped(e) && ShapedPosts(ks)
    requires Stable(Original(e, ks))
    ensures Erase(Chain(e, ks)) == Original(e, ks)
    decreases Size(e) + PostsSize(ks), 3
  {
    StableChain(e, ks);
    match e {
      case Unary(op, x) =>
        StableReads(x, []);
      case Call(f, args) =>
        PushSpells(CallPost(args), ks);
        OriginalPush(f, CallPost(args), ks);
        StableReads(f, [CallPost(args)] + ks);
      case Member(x, m) =>
        PushSpells(DotPost(m), ks);
        OriginalPush(x, DotPost(m), ks);
        StableReads(x, [DotPost(m)] + ks);
      case _ =>
        ClosedStable(e);
        AttachStable(Closed(e), ks);
    }
  }

  lemma {:induction false} ClosedStable(e: Expr)
    requires Shaped(e) && Stable(e) && !e.Unary? && !e.Call? && !e.Member?
    ensures Erase(Closed(e)) == e
    decreases Size(e), 1
  {
    match e {
      case Literal(kind, x) => LiteralErases(kind, x);
      case Path(_) =>
      case Tuple(items) => ReadAllStable(items);
      case Binary(op, l, r) =>
        if op == STAR_STAR {
          OnePost(PowerPost(r));
          OriginalPush(l, PowerPost(r), []);
          assert [PowerPost(r)] + [] == [PowerPost(r)];
          StableReads(l, [PowerPost(r)]);
        } else {
          StableReads(l, []);
          StableReads(r, []);
        }
    }
  }

  lemma {:induction false} AttachStable(t: Tree, ks: seq<Post>)
    requires ShapedPosts(ks) && forall i | 0 <= i < |ks| :: StablePost(ks[i])
    ensures Erase(Attach(t, ks)) == Original(Erase(t), ks)
    decreases PostsSize(ks), 2, |ks|
  {
    if ks != [] {
      PostStable(ks[0]);
      WrapErases(t, ks[0]);
      AttachStable(Wrap(t, ks[0]), ks[1..]);
    }
  }

  lemma {:induction false} PostStable(k: Post)
    requires ShapedPost(k) && StablePost(k)
    ensures ReadPost(k) == k
    decreases PostSize(k), 0
  {
    match k {
      case CallPost(args) => ReadAllStable(args);
      case DotPost(_) =>
      case PowerPost(r) => StableReads(r, []);
    }
  }

  lemma {:induction false} ReadAllStable(items: seq<Expr>)
    requires forall i | 0 <= i < |items| :: Shaped(items[i]) && Stable(items[i])
    ensures EraseAll(ReadAll(items)) == items
    decreases ListSize(items), 4
  {
    if items != [] {
      var init, last := items[..|items| - 1], items[|items| - 1];
      ReadAllStable(init);
      StableReads(last, []);
      EraseSnoc(ReadAll(init), Chain(last, []));
    }
  }

  /** The round trip holds exactly for the stable expressions. */
  lemma RereadIdentity(e: Expr)
    requires Shaped(e)
    ensures Reread(e) == e <==> Stable(e)
  {
    ChainSettles(e, []);
    if Stable(e) { StableReads(e, []); }
  }

  /** A reading that changes the tree removes at least one pair. */
  lemma RereadProgress(e: Expr)
    requires Shaped(e)
    ensures Pairs(Reread(e)) <= Pairs(e) && Unaries(Reread(e)) == Unaries(e)
    ensures Reread(e) != e ==> Pairs(Reread(e)) < Pairs(e)
  {
    ChainSettles(e, []);
  }

  /** `n` rounds of printing and reading. */
  function Rounds(e: Expr, n: nat): Expr
    decreases n
  {
    if n == 0 then e else Rounds(Reread(e), n - 1)
  }

  lemma {:induction false} RoundsOfStable(e: Expr, n: nat)
    requires Reread(e) == e
    ensures Rounds(e, n) == e
    decreases n
  {
    if n > 0 { RoundsOfStable(e, n - 1); }
  }

  /** After at most `Pairs(e)` rounds the tree no longer changes. */
  lemma {:induction false} RoundsSettle(e: Expr, n: nat)
    requires Shaped(e) && Named(e) && n >= Pairs(e)
    ensures Stable(Rounds(e, n)) && Reread(Rounds(e, n)) == Rounds(e, n)
    ensures Shaped(Rounds(e, n)) && Named(Rounds(e, n))
    decreases n
  {
    RereadIdentity(e);
    RereadProgress(e);
    if Reread(e) == e {
      RoundsOfStable(e, n);
    } else {
      ChainKeeps(e, []);
      RoundsSettle(Reread(e), n - 1);
    }
  }

  /** A prefix operator on the left of `**` is the smallest tree that does not survive. */
  lemma PowerOfNegation(a: string, b: string)
    ensures var e := Binary(STAR_STAR, Unary(MINUS, Path([a])), Path([b]));
      Reread(e) == Unary(MINUS, Binary(STAR_STAR, Path([a]), Path([b]))) != e
  {
    var x, y, k := Path([a]), Path([b]), PowerPost(Path([b]));
    OnePost(k);
    AttachOne(Names([a]), k);
    AttachNone(Names([b]));
    var t := Infix(STAR_STAR, Names([a]), Names([b]));
    assert Chain(y, []) == Names([b]);
    assert Chain(x, [k]) == t;
    assert Closed(Binary(STAR_STAR, Unary(MINUS, x), y)) == Group(Chain(Unary(MINUS, x), [k]));
    AttachNone(Group(Prefix(MINUS, t)));
    assert Erase(t) == Binary(STAR_STAR, x, y);
    assert Erase(Prefix(MINUS, t)) == Unary(MINUS, Binary(STAR_STAR, x, y));
    assert Chain(Binary(STAR_STAR, Unary(MINUS, x), y), []) == Group(Prefix(MINUS, t));
  }

  lemma AttachNone(t: Tree)
    ensures Attach(t, []) == t
  {
  }

  lemma AttachOne(t: Tree, k: Post)
    ensures Attach(t, [k]) == Wrap(t, k)
  {
    assert [k][1..] == [];
  }
}
