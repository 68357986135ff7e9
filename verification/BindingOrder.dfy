/** Which operator binds tighter, as tiers of operators rather than as levels of the parser. */
module BindingOrder {
  import opened Tokens
  import opened Pratt
  import opened PrattTheory
  import opened Sequences

  /** The binary operators, from the loosest tier to the tightest. */
  const TIERS: seq<set<Kind>> := [
    {KW_OR, KW_META}, {KW_XOR}, {KW_AND}, {EQUAL_EQUAL, BANG_EQUAL},
    {LESS, LESS_EQUAL, GREATER, GREATER_EQUAL}, {PLUS, MINUS}, {STAR, SLASH}, {STAR_STAR}]

  predicate InTier(op: Kind, i: nat) { i < 8 && op in TIERS[i] }

  ghost predicate IsOperator(op: Kind) { exists i: nat :: InTier(op, i) }

  /** `a` stands in an earlier tier than `b`. */
  ghost predicate Looser(a: Kind, b: Kind) { exists i: nat, j: nat :: InTier(a, i) && InTier(b, j) && i < j }

  // ---- the parser's levels are these tiers ------------------------------------------------------

  lemma TierLevel(op: Kind, i: nat)
    requires InTier(op, i)
    ensures Precedence(Sym(op)) == if i < 7 then i + 2 else 10
  {
  }

  lemma LevelTier(op: Kind)
    requires IsBinaryOp(op)
    ensures IsOperator(op)
  {
    var p := Precedence(Sym(op));
    var i: nat := if p < 10 then p - 2 else 7;
    assert InTier(op, i);
  }

  lemma OperatorsAre(op: Kind)
    ensures IsBinaryOp(op) <==> IsOperator(op)
  {
    hide KindPrecedence, InTier;
    if IsBinaryOp(op) {
      LevelTier(op);
    } else if i: nat :| InTier(op, i) {
      TierLevel(op, i);
      InTierBound(op, i);
    }
  }

  lemma InTierBound(op: Kind, i: nat)
    requires InTier(op, i)
    ensures i < 8
  {
  }

  lemma LooserLevel(a: Kind, b: Kind)
    requires IsOperator(a) && IsOperator(b)
    ensures Looser(a, b) <==> Precedence(Sym(a)) < Precedence(Sym(b))
  {
    hide KindPrecedence, InTier;
    var i: nat :| InTier(a, i);
    var j: nat :| InTier(b, j);
    TierLevel(a, i);
    TierLevel(b, j);
    InTierBound(a, i);
    InTierBound(b, j);
    if Looser(a, b) {
      var k: nat, l: nat :| InTier(a, k) && InTier(b, l) && k < l;
      TierLevel(a, k);
      TierLevel(b, l);
      InTierBound(b, l);
    }
  }

  // ---- chains of operators ------------------------------------------------------------------------

  /** An operand whose end is plain to see, and which is read from its own tokens. */
  ghost predicate Primary(t: Tree) {
    && (t.Leaf? || t.Names? || t.Group? || t.List? || t.Apply? || t.Dot?)
    && Level(Yield(t), PREC_ASSIGNMENT) == Ok(t, [])
  }

  ghost predicate IsChain(xs: seq<Tree>, ops: seq<Kind>) {
    && |xs| == |ops| + 1
    && (forall i | 0 <= i < |xs| :: Primary(xs[i]))
    && (forall i | 0 <= i < |ops| :: IsOperator(ops[i]))
  }

  /** The operands with the operators between them. */
  function ChainYield(xs: seq<Tree>, ops: seq<Kind>): seq<Token>
    requires |xs| == |ops| + 1
  {
    if ops == [] then Yield(xs[0]) else Yield(xs[0]) + ([Sym(ops[0])] + ChainYield(xs[1..], ops[1..]))
  }

  /** Of the operators of the loosest tier, the one numbered `i` is the last. */
  ghost predicate LoosestLast(ops: seq<Kind>, i: nat): (r: bool)
    ensures r ==> i < |ops|
  {
    && i < |ops|
    && (forall j | 0 <= j < |ops| :: !Looser(ops[j], ops[i]))
    && (forall j | i < j < |ops| :: Looser(ops[i], ops[j]))
  }

  /** The grouping of a chain: the last of its loosest operators is applied last. */
  ghost predicate Groups(t: Tree, xs: seq<Tree>, ops: seq<Kind>)
    requires |xs| == |ops| + 1
    decreases |ops|
  {
    if ops == [] then t == xs[0]
    else exists i :: LoosestLast(ops, i) && GroupsAt(t, xs, ops, i)
  }

  ghost predicate GroupsAt(t: Tree, xs: seq<Tree>, ops: seq<Kind>, i: nat)
    requires |xs| == |ops| + 1 && i < |ops|
    decreases |ops|, 0
  {
    && t.Infix? && t.op == ops[i]
    && Groups(t.left, xs[..i + 1], ops[..i]) && Groups(t.right, xs[i + 1..], ops[i + 1..])
  }

  lemma ChainParts(xs: seq<Tree>, ops: seq<Kind>, i: nat)
    requires IsChain(xs, ops) && i < |ops|
    ensures IsChain(xs[..i + 1], ops[..i]) && IsChain(xs[i + 1..], ops[i + 1..])
  {
    hide Primary, IsOperator;
  }

  lemma {:induction false} YieldSplit(xs: seq<Tree>, ops: seq<Kind>, i: nat)
    requires |xs| == |ops| + 1 && i < |ops|
    ensures ChainYield(xs, ops) ==
      ChainYield(xs[..i + 1], ops[..i]) + [Sym(ops[i])] + ChainYield(xs[i + 1..], ops[i + 1..])
    decreases i
  {
    hide Yield;
    if i > 0 {
      YieldSplit(xs[1..], ops[1..], i - 1);
      var a, op, l := Yield(xs[0]), [Sym(ops[0])], ChainYield(xs[1..i + 1], ops[1..i]);
      var o, r := [Sym(ops[i])], ChainYield(xs[i + 1..], ops[i + 1..]);
      assert xs[1..][..i] == xs[1..i + 1] && ops[1..][..i - 1] == ops[1..i];
      assert xs[1..][i..] == xs[i + 1..] && ops[1..][i..] == ops[i + 1..];
      assert xs[..i + 1][1..] == xs[1..i + 1] && ops[..i][1..] == ops[1..i];
      Regroup5(a, op, l, o, r);
      Regroup3(a, op, l);
      Regroup3(l, o, r);
    } else {
      Regroup3(Yield(xs[0]), [Sym(ops[0])], ChainYield(xs[1..], ops[1..]));
    }
  }

  /** A primary operand fits at every level and takes no operator. */
  lemma PrimaryFits(t: Tree, p: nat, next: Token)
    requires Primary(t) && 0 < p <= PREC_CALL
    requires next == Sym(EOF) || (next.Sym? && IsBinaryOp(next.kind))
    ensures Fits(t, p) && !Takes(t, next)
  {
    hide Level;
    LevelSound(Yield(t), PREC_ASSIGNMENT);
    PrimaryRises(t, p);
  }

  lemma {:induction false} PrimaryRises(t: Tree, p: nat)
    requires Fits(t, PREC_ASSIGNMENT) && !t.Infix? && 0 < p <= PREC_CALL
    ensures Fits(t, p)
  {
    match t {
      case Apply(f, _) => PrimaryRises(f, p);
      case Dot(x, _) => PrimaryRises(x, p);
      case Measured(x, _) => PrimaryRises(x, p);
      case _ =>
    }
  }

  /** Every operator of the chain binds at level `p` or tighter, and at least as tight as `next`. */
  ghost predicate AtLeast(ops: seq<Kind>, p: nat, next: Token) {
    forall i | 0 <= i < |ops| :: p <= Precedence(Sym(ops[i])) && Precedence(next) <= Precedence(Sym(ops[i]))
  }

  lemma LoosestLevel(ops: seq<Kind>, i: nat)
    requires LoosestLast(ops, i) && forall j | 0 <= j < |ops| :: IsOperator(ops[j])
    ensures forall j | 0 <= j < |ops| :: Precedence(Sym(ops[i])) <= Precedence(Sym(ops[j]))
    ensures forall j | i < j < |ops| :: Precedence(Sym(ops[i])) < Precedence(Sym(ops[j]))
  {
    hide Looser, IsOperator, KindPrecedence;
    forall j | 0 <= j < |ops|
      ensures Precedence(Sym(ops[i])) <= Precedence(Sym(ops[j]))
      ensures j > i ==> Precedence(Sym(ops[i])) < Precedence(Sym(ops[j]))
    {
      LooserLevel(ops[j], ops[i]);
      LooserLevel(ops[i], ops[j]);
    }
  }

  lemma {:induction false} GroupedFits(t: Tree, xs: seq<Tree>, ops: seq<Kind>, p: nat, next: Token)
    requires IsChain(xs, ops) && Groups(t, xs, ops) && 0 < p <= PREC_CALL && AtLeast(ops, p, next)
    requires next == Sym(EOF) || (next.Sym? && IsBinaryOp(next.kind))
    ensures Fits(t, p) && !Takes(t, next) && Yield(t) == ChainYield(xs, ops)
    decreases |ops|
  {
    hide Primary, LoosestLast, IsOperator, Precedence;
    if ops == [] {
      PrimaryFits(t, p, next);
    } else {
      var i: nat :| LoosestLast(ops, i) && GroupsAt(t, xs, ops, i);
      var op := ops[i];
      OperatorsAre(op);
      ChainParts(xs, ops, i);
      YieldSplit(xs, ops, i);
      LoosestLevel(ops, i);
      GroupedFits(t.left, xs[..i + 1], ops[..i], p, Sym(op));
      GroupedFits(t.right, xs[i + 1..], ops[i + 1..], Precedence(Sym(op)) + 1, next);
    }
  }

  /** There is such an operator. */
  lemma {:induction false} FindLoosest(ops: seq<Kind>) returns (i: nat)
    requires ops != [] && forall j | 0 <= j < |ops| :: IsOperator(ops[j])
    ensures LoosestLast(ops, i)
  {
    hide Looser, IsOperator, KindPrecedence;
    forall j, k | 0 <= j < |ops| && 0 <= k < |ops|
      ensures Looser(ops[j], ops[k]) <==> Precedence(Sym(ops[j])) < Precedence(Sym(ops[k]))
    {
      LooserLevel(ops[j], ops[k]);
    }
    i := 0;
    var n := 1;
    while n < |ops|
      invariant i < n <= |ops|
      invariant forall j | 0 <= j < n :: Precedence(Sym(ops[i])) <= Precedence(Sym(ops[j]))
      invariant forall j | i < j < n :: Precedence(Sym(ops[i])) < Precedence(Sym(ops[j]))
    {
      if Precedence(Sym(ops[n])) <= Precedence(Sym(ops[i])) { i := n; }
      n := n + 1;
    }
  }

  lemma {:induction false} GroupingExists(xs: seq<Tree>, ops: seq<Kind>) returns (t: Tree)
    requires IsChain(xs, ops)
    ensures Groups(t, xs, ops)
    decreases |ops|
  {
    hide Primary, Looser, IsOperator;
    if ops == [] {
      t := xs[0];
    } else {
      var i := FindLoosest(ops);
      ChainParts(xs, ops, i);
      var l := GroupingExists(xs[..i + 1], ops[..i]);
      var r := GroupingExists(xs[i + 1..], ops[i + 1..]);
      t := Infix(ops[i], l, r);
      assert GroupsAt(t, xs, ops, i);
    }
  }

  /** A chain of operands and operators of any length is read as its grouping, and as no other tree. */
  lemma ChainIsGrouped(xs: seq<Tree>, ops: seq<Kind>, t: Tree)
    requires IsChain(xs, ops)
    ensures Level(ChainYield(xs, ops), PREC_ASSIGNMENT) == Ok(t, []) <==> Groups(t, xs, ops)
  {
    hide Primary, Looser, Groups, Level, Fits, Takes, ChainYield;
    var u := GroupingExists(xs, ops);
    ReadsGrouped(u, xs, ops);
    if Groups(t, xs, ops) { ReadsGrouped(t, xs, ops); }
  }

  lemma ReadsGrouped(t: Tree, xs: seq<Tree>, ops: seq<Kind>)
    requires IsChain(xs, ops) && Groups(t, xs, ops)
    ensures Level(ChainYield(xs, ops), PREC_ASSIGNMENT) == Ok(t, [])
  {
    hide Primary, Looser, Groups, Level, Fits, Takes, KindPrecedence;
    forall i | 0 <= i < |ops| ensures PREC_ASSIGNMENT <= Precedence(Sym(ops[i])) && PREC_NONE <= Precedence(Sym(ops[i])) {
      OperatorsAre(ops[i]);
    }
    EndIsLoose();
    GroupedFits(t, xs, ops, PREC_ASSIGNMENT, Sym(EOF));
    ReadsBack(t, PREC_ASSIGNMENT, []);
    assert Yield(t) + [] == Yield(t);
  }

  lemma EndIsLoose()
    ensures Precedence(Sym(EOF)) == PREC_NONE
  {
  }

  /** Two operators: the second one is applied first exactly when it stands in a later tier. */
  lemma SecondFirst(x: string, a: Kind, y: string, b: Kind, z: string)
    requires IsOperator(a) && IsOperator(b)
    ensures var r := Level([Name(x), Sym(a), Name(y), Sym(b), Name(z)], PREC_ASSIGNMENT);
      && (r == Ok(Infix(a, Names([x]), Infix(b, Names([y]), Names([z]))), []) <==> Looser(a, b))
      && (r == Ok(Infix(b, Infix(a, Names([x]), Names([y])), Names([z])), []) <==> !Looser(a, b))
  {
    hide Level, KindPrecedence, IsOperator, Looser;
    OperatorsAre(a);
    OperatorsAre(b);
    LooserLevel(a, b);
    TwoOperators(x, a, y, b, z);
  }

  // ---- operators before and after an operand --------------------------------------------------------

  /** An operator before a name captures what follows exactly when that is a power. */
  lemma PrefixBeforeOperator(op: Kind, x: string, b: Kind, y: string)
    requires (op == MINUS || op == BANG) && IsOperator(b)
    ensures Level([Sym(op), Name(x), Sym(b), Name(y)], PREC_ASSIGNMENT) ==
      Ok(if b == STAR_STAR then Prefix(op, Infix(b, Names([x]), Names([y])))
         else Infix(b, Prefix(op, Names([x])), Names([y])), [])
  {
    hide Level, KindPrecedence, IsOperator;
    OperatorsAre(b);
    PowerIsTightest(b);
    EndIsLoose();
    NameStops(x, b);
    NameStops(y, EOF);
    var l, r := Names([x]), Names([y]);
    assert Yield(l) == [Name(x)] && Yield(r) == [Name(y)];
    var t := if b == STAR_STAR then Prefix(op, Infix(b, l, r)) else Infix(b, Prefix(op, l), r);
    assert Yield(t) + [] == [Sym(op), Name(x), Sym(b), Name(y)];
    ReadsBack(t, PREC_ASSIGNMENT, []);
  }

  lemma PowerIsTightest(b: Kind)
    requires IsBinaryOp(b)
    ensures b == STAR_STAR <==> PREC_UNARY <= Precedence(Sym(b))
  {
  }

  /** Nothing else stands before an operand. */
  lemma PrefixesAre(k: Kind, x: string)
    ensures (exists t :: Level([Sym(k), Name(x)], PREC_ASSIGNMENT) == Ok(t, [])) <==> k == MINUS || k == BANG
  {
    hide KindPrecedence;
    var ts := [Sym(k), Name(x)];
    EndIsLoose();
    NameStops(x, EOF);
    if k == MINUS || k == BANG {
      var t := Prefix(k, Names([x]));
      assert Yield(t) + [] == ts;
      ReadsBack(t, PREC_ASSIGNMENT, []);
    } else {
      if t :| Level(ts, PREC_ASSIGNMENT) == Ok(t, []) {
        OnlyPrefixes(k, x);
        assert false;
      }
    }
  }

  lemma OnlyPrefixes(k: Kind, x: string)
    requires k != MINUS && k != BANG
    ensures var r := Level([Sym(k), Name(x)], PREC_ASSIGNMENT); r.Fail? || r.rest != []
  {
    var ts := [Sym(k), Name(x)];
    assert ts[1..] == [Name(x)];
    if k == LEFT_PAREN {
      var inner := Level([Name(x)], PREC_ASSIGNMENT);
      if Operand(ts).Ok? {
        assert Grouping([Name(x)]).Ok?;
        assert |Grouping([Name(x)]).rest| < 1;
        UnclosedFails(x);
      }
    }
  }

  lemma UnclosedFails(x: string)
    ensures Grouping([Name(x)]).Fail?
  {
    NameStops(x, EOF);
    EndIsLoose();
    ReadsBack(Names([x]), PREC_ASSIGNMENT, []);
    assert Yield(Names([x])) + [] == [Name(x)];
  }

  /** Member access and calls bind tighter than every operator. */
  lemma AccessFirst(x: string, b: Kind, y: string, member: string)
    requires IsOperator(b)
    ensures Level([Name(x), Sym(b), Name(y), Sym(PERIOD), Name(member)], PREC_ASSIGNMENT)
      == Ok(Infix(b, Names([x]), Dot(Names([y]), member)), [])
    ensures Level([Name(x), Sym(b), Name(y), Sym(LEFT_PAREN), Sym(RIGHT_PAREN)], PREC_ASSIGNMENT)
      == Ok(Infix(b, Names([x]), Apply(Names([y]), [])), [])
    ensures Level([Sym(MINUS), Name(y), Sym(PERIOD), Name(member)], PREC_ASSIGNMENT)
      == Ok(Prefix(MINUS, Dot(Names([y]), member)), [])
  {
    hide Level, KindPrecedence, IsOperator;
    OperatorsAre(b);
    EndIsLoose();
    NameStops(x, b);
    var l, r := Names([x]), Names([y]);
    assert Yield(l) == [Name(x)] && Yield(r) == [Name(y)];
    var t, u, v := Infix(b, l, Dot(r, member)), Infix(b, l, Apply(r, [])), Prefix(MINUS, Dot(r, member));
    assert Yield(t) + [] == [Name(x), Sym(b), Name(y), Sym(PERIOD), Name(member)];
    assert ItemsYield([]) == [];
    assert Yield(u) + [] == [Name(x), Sym(b), Name(y), Sym(LEFT_PAREN), Sym(RIGHT_PAREN)];
    assert Yield(v) + [] == [Sym(MINUS), Name(y), Sym(PERIOD), Name(member)];
    ReadsBack(t, PREC_ASSIGNMENT, []);
    ReadsBack(u, PREC_ASSIGNMENT, []);
    ReadsBack(v, PREC_ASSIGNMENT, []);
  }
}
