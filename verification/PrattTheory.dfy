/** Correctness of the Pratt parser: the trees it returns are exactly the fitting ones. */
module PrattTheory {
  import opened Tokens
  import opened Pratt
  import opened Sequences

  /** Bracket depth after reading all of `ts`. */
  function DepthAfter(ts: seq<Token>, d: nat): nat {
    if ts == [] then d else DepthAfter(ts[1..], Deeper(ts[0], d))
  }

  /** Every bracket that opens in `units` also closes there. */
  predicate ClosedUnits(units: seq<Token>) { DepthAfter(units, 0) == 0 }

  /** Would a parse that has just read `t` also swallow the next token? */
  predicate Takes(t: Tree, next: Token) {
    match t
    case Leaf(_) | Group(_) | List(_) => next == Sym(LEFT_BRACKET)
    case Names(_) => next == Sym(LEFT_BRACKET) || next == Sym(COLON_COLON)
    case Measured(_, units) => next == Sym(LEFT_BRACKET) || (!ClosedUnits(units) && next != Sym(EOF))
    case Prefix(_, x) => next == Sym(LEFT_BRACKET) || PREC_UNARY <= Precedence(next) || Takes(x, next)
    case Infix(op, _, r) => Precedence(Sym(op)) < Precedence(next) || Takes(r, next)
    case Apply(_, _) | Dot(_, _) => false
  }

  predicate IsOperand(t: Tree) {
    t.Leaf? || t.Names? || t.Prefix? || t.Group? || t.List?
  }

  predicate IsLiteralToken(t: Token) {
    t.Number? || t.Text? || t == Sym(KW_TRUE) || t == Sym(KW_FALSE)
  }

  /** The trees a parse at level `p` may return: operators on the left spine bind at least
      as tightly as `p`, left operands stop before their operator (so every operator is
      left-associative), and a prefix operator has captured every power, call and member
      access that follows it. */
  predicate Fits(t: Tree, p: nat) {
    match t
    case Leaf(token) => IsLiteralToken(token)
    case Names(parts) => parts != []
    case Prefix(op, x) => IsPrefixOp(op) && Fits(x, PREC_UNARY)
    case Group(x) => FitsInside(x)
    case List(items) => |items| >= 2 && forall i | 0 <= i < |items| :: FitsInside(items[i])
    case Infix(op, l, r) =>
      && IsBinaryOp(op) && p <= Precedence(Sym(op))
      && Fits(l, p) && !Takes(l, Sym(op)) && Fits(r, Precedence(Sym(op)) + 1)
    case Apply(f, args) =>
      && p <= PREC_CALL && Fits(f, p) && !Takes(f, Sym(LEFT_PAREN))
      && forall i | 0 <= i < |args| :: FitsInside(args[i])
    case Dot(x, _) => p <= PREC_CALL && Fits(x, p) && !Takes(x, Sym(PERIOD))
    case Measured(x, units) =>
      && IsOperand(x) && Fits(x, p) && !CapturesBracket(x)
      && units != [] && UnitsLength(units, 0) == |units|
  }

  /** A tree that fits between parentheses or commas. */
  predicate FitsInside(t: Tree) {
    Fits(t, PREC_ASSIGNMENT) && !Takes(t, Sym(RIGHT_PAREN))
  }

  /** A token that no tree continues with, unless a unit bracket is left open. */
  predicate IsStop(t: Token) {
    && Precedence(t) == PREC_NONE
    && t != Sym(LEFT_BRACKET) && t != Sym(COLON_COLON) && t != Sym(EOF)
  }

  lemma {:induction false} StopsAlike(t: Tree, a: Token, b: Token)
    requires IsStop(a) && IsStop(b)
    ensures Takes(t, a) == Takes(t, b)
  {
    match t {
      case Prefix(_, x) => StopsAlike(x, a, b);
      case Infix(_, _, r) => StopsAlike(r, a, b);
      case _ =>
    }
  }

  /** The operand of a prefix operator takes a bracket before the operator itself can. */
  predicate CapturesBracket(t: Tree) {
    t.Prefix? && Takes(t.operand, Sym(LEFT_BRACKET))
  }

  // ---- unit suffixes --------------------------------------------------------------

  lemma {:induction false} UnitsSplit(ts: seq<Token>, d: nat)
    ensures var n := UnitsLength(ts, d);
      && UnitsLength(ts[..n], d) == n
      && (n < |ts| ==> DepthAfter(ts[..n], d) == 0 && ts[n] != Sym(LEFT_BRACKET))
  {
    var n := UnitsLength(ts, d);
    if n > 0 {
      UnitsSplit(ts[1..], Deeper(ts[0], d));
      assert ts[..n][1..] == ts[1..][..n - 1];
    }
  }

  lemma {:induction false} UnitsAppend(units: seq<Token>, rest: seq<Token>, d: nat)
    requires UnitsLength(units, d) == |units|
    requires rest == [] || (DepthAfter(units, d) == 0 && rest[0] != Sym(LEFT_BRACKET))
    ensures UnitsLength(units + rest, d) == |units|
  {
    if units == [] {
      assert units + rest == rest;
    } else {
      UnitsAppend(units[1..], rest, Deeper(units[0], d));
      assert (units + rest)[1..] == units[1..] + rest;
    }
  }

  // ---- soundness: what is returned fits and spells the consumed tokens ------------

  /** `r` is a fitting tree for a front part of `ts`, and nothing left over belongs to it. */
  predicate Reads(ts: seq<Token>, p: nat, r: Result<Tree>) {
    r.Ok? ==>
      && Fits(r.value, p)
      && ts == Yield(r.value) + r.rest
      && Precedence(Head(r.rest)) < p
      && !Takes(r.value, Head(r.rest))
  }

  lemma {:induction false} LevelSound(ts: seq<Token>, p: nat)
    requires 0 < p <= PREC_CALL
    ensures Reads(ts, p, Level(ts, p))
    decreases |ts|, 3
  {
    hide Operand, Extend;
    OperandSound(ts, p);
    var o := Operand(ts);
    if o.Ok? {
      var n := UnitsLength(o.rest, 0);
      UnitsSplit(o.rest, 0);
      var left := if n == 0 then o.value else Measured(o.value, o.rest[..n]);
      assert o.rest == o.rest[..n] + o.rest[n..];
      assert ts == Yield(left) + o.rest[n..];
      ExtendSound(left, o.rest[n..], p);
      var r := Extend(left, o.rest[n..], p);
      assert Level(ts, p) == r;
    }
  }

  /** The operand fits at every level, and takes nothing but unit brackets. */
  lemma {:induction false} OperandSound(ts: seq<Token>, p: nat)
    ensures var r := Operand(ts);
      r.Ok? ==>
        && IsOperand(r.value) && Fits(r.value, p)
        && ts == Yield(r.value) + r.rest
        && (Takes(r.value, Head(r.rest)) ==> Head(r.rest) == Sym(LEFT_BRACKET) && !CapturesBracket(r.value))
    decreases |ts|, 2
  {
    if ts == [] { return; }
    assert ts == [ts[0]] + ts[1..];
    match ts[0] {
      case Name(w) => SegmentsSound([w], ts[1..]);
      case Sym(k) =>
        if k == LEFT_PAREN { GroupingSound(ts[1..]); }
        if IsPrefixOp(k) { LevelSound(ts[1..], PREC_UNARY); }
      case _ =>
    }
  }

  lemma {:induction false} SegmentsSound(parts: seq<string>, ts: seq<Token>)
    requires parts != []
    ensures var r := Segments(parts, ts);
      r.Ok? ==>
        && r.value.Names? && r.value.parts != []
        && NamesYield(parts) + ts == Yield(r.value) + r.rest
        && Head(r.rest) != Sym(COLON_COLON)
    decreases |ts|
  {
    if Head(ts) == Sym(COLON_COLON) && |ts| > 1 && ts[1].Name? {
      var more := parts + [ts[1].text];
      SegmentsSound(more, ts[2..]);
      assert more[..|more| - 1] == parts;
      assert NamesYield(more) + ts[2..] == NamesYield(parts) + ([ts[0], ts[1]] + ts[2..]);
      assert [ts[0], ts[1]] + ts[2..] == ts;
    }
  }

  /** All of `items` fit between commas, except that nothing is known of what ends the last. */
  predicate FitsSoFar(items: seq<Tree>, next: Token) {
    && items != []
    && (forall i | 0 <= i < |items| - 1 :: FitsInside(items[i]))
    && Fits(items[|items| - 1], PREC_ASSIGNMENT) && !Takes(items[|items| - 1], next)
  }

  lemma {:induction false} ItemsSound(items: seq<Tree>, ts: seq<Token>)
    requires FitsSoFar(items, Head(ts))
    ensures var r := Items(items, ts);
      r.Ok? ==>
        && FitsSoFar(r.value, Head(r.rest)) && (|r.value| == 1 ==> r.value == items)
        && ItemsYield(items) + ts == ItemsYield(r.value) + r.rest
    decreases |ts|, 4
  {
    if Head(ts) == Sym(COMMA) {
      LevelSound(ts[1..], PREC_ASSIGNMENT);
      var e := Level(ts[1..], PREC_ASSIGNMENT);
      if e.Ok? {
        StopsAlike(items[|items| - 1], Sym(COMMA), Sym(RIGHT_PAREN));
        var more := items + [e.value];
        assert more[..|more| - 1] == items;
        ItemsSound(more, e.rest);
        assert ts == [Sym(COMMA)] + ts[1..];
        assert ItemsYield(more) == ItemsYield(items) + [Sym(COMMA)] + Yield(e.value);
        Regroup4(ItemsYield(items), [Sym(COMMA)], Yield(e.value), e.rest);
      }
    }
  }

  lemma Closes(ts: seq<Token>, items: seq<Token>, rest: seq<Token>)
    requires ts == items + rest && Head(rest) == Sym(RIGHT_PAREN)
    ensures ts == items + [Sym(RIGHT_PAREN)] + rest[1..]
    ensures [Sym(LEFT_PAREN)] + ts == [Sym(LEFT_PAREN)] + items + [Sym(RIGHT_PAREN)] + rest[1..]
  {
    assert rest == [Sym(RIGHT_PAREN)] + rest[1..];
    Regroup3(items, [Sym(RIGHT_PAREN)], rest[1..]);
    Regroup4([Sym(LEFT_PAREN)], items, [Sym(RIGHT_PAREN)], rest[1..]);
  }

  lemma {:induction false} GroupingSound(ts: seq<Token>)
    ensures var r := Grouping(ts);
      r.Ok? ==>
        && (r.value.Group? || r.value.List?) && Fits(r.value, PREC_ASSIGNMENT)
        && [Sym(LEFT_PAREN)] + ts == Yield(r.value) + r.rest
    decreases |ts|, 5
  {
    LevelSound(ts, PREC_ASSIGNMENT);
    var first := Level(ts, PREC_ASSIGNMENT);
    if first.Ok? {
      ItemsSound([first.value], first.rest);
      var items := Items([first.value], first.rest);
      if items.Ok? && Head(items.rest) == Sym(RIGHT_PAREN) {
        Closes(ts, ItemsYield(items.value), items.rest);
      }
    }
  }

  lemma {:induction false} ArgumentsSound(ts: seq<Token>)
    ensures var r := Arguments(ts);
      r.Ok? ==>
        && (forall i | 0 <= i < |r.value| :: FitsInside(r.value[i]))
        && ts == ItemsYield(r.value) + [Sym(RIGHT_PAREN)] + r.rest
    decreases |ts|, 5
  {
    hide Level, Items;
    if Head(ts) == Sym(RIGHT_PAREN) {
      assert ts == [] + [Sym(RIGHT_PAREN)] + ts[1..];
      return;
    }
    LevelSound(ts, PREC_ASSIGNMENT);
    var first := Level(ts, PREC_ASSIGNMENT);
    if first.Ok? {
      ItemsSound([first.value], first.rest);
      var items := Items([first.value], first.rest);
      if items.Ok? && Head(items.rest) == Sym(RIGHT_PAREN) {
        Closes(ts, ItemsYield(items.value), items.rest);
      }
    }
  }

  /** The outcome of one infix step on `left` and `ts`. */
  predicate Extends(left: Tree, ts: seq<Token>, p: nat, r: Result<Tree>) {
    r.Ok? ==>
      && Fits(r.value, p)
      && Yield(left) + ts == Yield(r.value) + r.rest
      && !Takes(r.value, Head(r.rest))
  }

  lemma {:induction false} CallStepSound(left: Tree, ts: seq<Token>, p: nat)
    requires 0 < p <= PREC_CALL && Head(ts) == Sym(LEFT_PAREN)
    requires Fits(left, p) && !Takes(left, Head(ts))
    ensures Extends(left, ts, p, Step(left, ts))
    decreases |ts|, 0
  {
    assert ts == [ts[0]] + ts[1..];
    ArgumentsSound(ts[1..]);
  }

  lemma {:induction false} InfixStepSound(left: Tree, ts: seq<Token>, p: nat)
    requires 0 < p <= Precedence(Head(ts)) < PREC_CALL
    requires Fits(left, p) && !Takes(left, Head(ts))
    ensures Extends(left, ts, p, Step(left, ts))
    decreases |ts|, 0
  {
    assert ts == [ts[0]] + ts[1..];
    LevelSound(ts[1..], Precedence(ts[0]) + 1);
  }

  lemma {:induction false} StepSound(left: Tree, ts: seq<Token>, p: nat)
    requires 0 < p <= Precedence(Head(ts))
    requires Fits(left, p) && !Takes(left, Head(ts))
    ensures Extends(left, ts, p, Step(left, ts))
    decreases |ts|, 1
  {
    if Precedence(Head(ts)) < PREC_CALL {
      InfixStepSound(left, ts, p);
    } else if ts[0] == Sym(LEFT_PAREN) {
      CallStepSound(left, ts, p);
    } else if |ts| > 1 {
      assert ts == [ts[0], ts[1]] + ts[2..];
    }
  }

  lemma {:induction false} ExtendSound(left: Tree, ts: seq<Token>, p: nat)
    requires 0 < p
    requires Fits(left, p) && !Takes(left, Head(ts))
    ensures var r := Extend(left, ts, p);
      Extends(left, ts, p, r) && (r.Ok? ==> Precedence(Head(r.rest)) < p)
    decreases |ts|, 2
  {
    if p <= Precedence(Head(ts)) {
      StepSound(left, ts, p);
      var s := Step(left, ts);
      if s.Ok? { ExtendSound(s.value, s.rest, p); }
    }
  }

  // ---- completeness: every fitting tree is read back from its tokens --------------

  /** `rest` can follow `t`: none of it is read as part of `t`. */
  predicate CanFollow(t: Tree, rest: seq<Token>) {
    !Takes(t, Head(rest)) && (Head(rest) == Sym(EOF) ==> rest == [])
  }

  lemma {:induction false} LevelComplete(t: Tree, p: nat, rest: seq<Token>)
    requires 0 < p <= PREC_CALL
    requires Fits(t, p) && CanFollow(t, rest)
    ensures Level(Yield(t) + rest, p) == Extend(t, rest, p)
    decreases t, 5
  {
    match t {
      case Infix(_, _, _) => InfixComplete(t, p, rest);
      case Apply(_, _) => ApplyComplete(t, p, rest);
      case Dot(_, _) => DotComplete(t, p, rest);
      case Measured(_, _) => MeasuredComplete(t, p, rest);
      case _ =>
        OperandComplete(t, p, rest);
        assert rest[0..] == rest;
    }
  }

  /** One turn of the infix loop. */
  lemma ExtendOnce(left: Tree, ts: seq<Token>, p: nat, t: Tree, rest: seq<Token>)
    requires 0 < p <= Precedence(Head(ts)) && Step(left, ts) == Ok(t, rest)
    ensures Extend(left, ts, p) == Extend(t, rest, p)
  {
  }

  lemma DotStep(x: Tree, m: string, rest: seq<Token>)
    ensures Step(x, [Sym(PERIOD), Name(m)] + rest) == Ok(Dot(x, m), rest)
  {
    assert ([Sym(PERIOD), Name(m)] + rest)[2..] == rest;
  }

  lemma {:induction false} DotComplete(t: Tree, p: nat, rest: seq<Token>)
    requires t.Dot? && 0 < p <= PREC_CALL
    requires Fits(t, p) && CanFollow(t, rest)
    ensures Level(Yield(t) + rest, p) == Extend(t, rest, p)
    decreases t, 4
  {
    hide Level, Extend, Step;
    var ts := [Sym(PERIOD), Name(t.member)] + rest;
    LevelComplete(t.target, p, ts);
    assert Yield(t) + rest == Yield(t.target) + ts;
    DotStep(t.target, t.member, rest);
    ExtendOnce(t.target, ts, p, t, rest);
  }

  lemma {:induction false} MeasuredComplete(t: Tree, p: nat, rest: seq<Token>)
    requires t.Measured? && 0 < p <= PREC_CALL
    requires Fits(t, p) && CanFollow(t, rest)
    ensures Level(Yield(t) + rest, p) == Extend(t, rest, p)
    decreases t, 4
  {
    var ts := t.units + rest;
    assert ts[0] == t.units[0] == Sym(LEFT_BRACKET);
    MeasurableTakes(t.base);
    OperandComplete(t.base, p, ts);
    UnitsAppend(t.units, rest, 0);
    assert Yield(t) + rest == Yield(t.base) + ts;
    assert ts[..|t.units|] == t.units && ts[|t.units|..] == rest;
  }

  lemma MeasurableTakes(x: Tree)
    requires IsOperand(x)
    ensures Takes(x, Sym(LEFT_BRACKET))
  {
  }

  lemma InfixStep(left: Tree, op: Kind, ts: seq<Token>, right: Tree, rest: seq<Token>)
    requires IsBinaryOp(op) && Level(ts, Precedence(Sym(op)) + 1) == Ok(right, rest)
    ensures Step(left, [Sym(op)] + ts) == Ok(Infix(op, left, right), rest)
  {
    hide Level;
    assert ([Sym(op)] + ts)[1..] == ts;
  }

  /** An operand is all that is read when what follows binds less tightly. */
  lemma LevelExact(t: Tree, p: nat, rest: seq<Token>)
    requires 0 < p && Level(Yield(t) + rest, p) == Extend(t, rest, p)
    requires Precedence(Head(rest)) < p
    ensures Level(Yield(t) + rest, p) == Ok(t, rest)
  {
    hide Level;
  }

  lemma {:induction false} InfixComplete(t: Tree, p: nat, rest: seq<Token>)
    requires t.Infix? && 0 < p <= PREC_CALL
    requires Fits(t, p) && CanFollow(t, rest)
    ensures Level(Yield(t) + rest, p) == Extend(t, rest, p)
    decreases t, 4
  {
    hide Level, Extend, Step;
    var q := Precedence(Sym(t.op));
    var after := Yield(t.right) + rest;
    var ts := [Sym(t.op)] + after;
    LevelComplete(t.right, q + 1, rest);
    LevelExact(t.right, q + 1, rest);
    InfixStep(t.left, t.op, after, t.right, rest);
    LevelComplete(t.left, p, ts);
    Regroup4(Yield(t.left), [Sym(t.op)], Yield(t.right), rest);
    ExtendOnce(t.left, ts, p, t, rest);
  }

  lemma CallStep(left: Tree, ts: seq<Token>, args: seq<Tree>, rest: seq<Token>)
    requires Arguments(ts) == Ok(args, rest)
    ensures Step(left, [Sym(LEFT_PAREN)] + ts) == Ok(Apply(left, args), rest)
  {
    hide Arguments;
    assert ([Sym(LEFT_PAREN)] + ts)[1..] == ts;
  }

  lemma {:induction false} ApplyComplete(t: Tree, p: nat, rest: seq<Token>)
    requires t.Apply? && 0 < p <= PREC_CALL
    requires Fits(t, p) && CanFollow(t, rest)
    ensures Level(Yield(t) + rest, p) == Extend(t, rest, p)
    decreases t, 4
  {
    hide Level, Extend, Step, Arguments;
    var args := ItemsYield(t.args) + [Sym(RIGHT_PAREN)] + rest;
    var ts := [Sym(LEFT_PAREN)] + args;
    ArgumentsComplete(t, t.args, rest);
    CallStep(t.callee, args, t.args, rest);
    LevelComplete(t.callee, p, ts);
    Regroup5(Yield(t.callee), [Sym(LEFT_PAREN)], ItemsYield(t.args), [Sym(RIGHT_PAREN)], rest);
    ExtendOnce(t.callee, ts, p, t, rest);
  }

  lemma {:induction false} ArgumentsComplete(t: Tree, items: seq<Tree>, rest: seq<Token>)
    requires forall i | 0 <= i < |items| :: items[i] < t && FitsInside(items[i])
    ensures Arguments(ItemsYield(items) + [Sym(RIGHT_PAREN)] + rest) == Ok(items, rest)
    decreases t, 2
  {
    var close := [Sym(RIGHT_PAREN)] + rest;
    var ts := ItemsYield(items) + [Sym(RIGHT_PAREN)] + rest;
    assert ts == ItemsYield(items) + close;
    assert close[1..] == rest;
    if items == [] {
      assert ts == close;
    } else {
      ItemsComplete(t, items, close);
      NoCloserFirst(items, close);
    }
  }

  /** No expression starts with a closing parenthesis. */
  lemma {:induction false} OpensWell(t: Tree, p: nat)
    requires Fits(t, p)
    ensures Yield(t) != [] && Yield(t)[0] != Sym(RIGHT_PAREN)
  {
    match t {
      case Names(parts) => NamesOpen(parts);
      case Infix(_, l, _) => OpensWell(l, p);
      case Apply(f, _) => OpensWell(f, p);
      case Dot(x, _) => OpensWell(x, p);
      case Measured(x, _) => OpensWell(x, p);
      case _ =>
    }
  }

  lemma {:induction false} NamesOpen(parts: seq<string>)
    requires parts != []
    ensures NamesYield(parts) != [] && NamesYield(parts)[0] == Name(parts[0])
  {
    if |parts| > 1 { NamesOpen(parts[..|parts| - 1]); }
  }

  lemma {:induction false} NoCloserFirst(items: seq<Tree>, rest: seq<Token>)
    requires items != [] && forall i | 0 <= i < |items| :: FitsInside(items[i])
    ensures Head(ItemsYield(items) + rest) != Sym(RIGHT_PAREN)
    decreases |items|
  {
    if |items| == 1 {
      OpensWell(items[0], PREC_ASSIGNMENT);
    } else {
      var init := items[..|items| - 1];
      var more := [Sym(COMMA)] + Yield(items[|items| - 1]) + rest;
      NoCloserFirst(init, more);
      assert ItemsYield(items) + rest == ItemsYield(init) + more;
    }
  }

  /** A comma before each of `items`. */
  function TailYield(items: seq<Tree>): seq<Token> {
    if items == [] then [] else [Sym(COMMA)] + Yield(items[0]) + TailYield(items[1..])
  }

  lemma {:induction false} TailSnoc(items: seq<Tree>, x: Tree)
    ensures TailYield(items + [x]) == TailYield(items) + [Sym(COMMA)] + Yield(x)
  {
    if items == [] {
      assert items + [x] == [x];
      assert TailYield([x][1..]) == [];
    } else {
      TailSnoc(items[1..], x);
      assert (items + [x])[1..] == items[1..] + [x];
    }
  }

  lemma {:induction false} ItemsFront(items: seq<Tree>)
    requires items != []
    ensures ItemsYield(items) == Yield(items[0]) + TailYield(items[1..])
    decreases |items|
  {
    if |items| > 1 {
      var init, last := items[..|items| - 1], items[|items| - 1];
      ItemsFront(init);
      assert items[1..] == init[1..] + [last];
      TailSnoc(init[1..], last);
    }
  }

  /** The comma loop reads the items after the first `k`, all of them parts of `t`. */
  lemma {:induction false} TailComplete(t: Tree, items: seq<Tree>, k: nat, rest: seq<Token>)
    requires 0 < k <= |items| && Head(rest) == Sym(RIGHT_PAREN)
    requires forall i | 0 <= i < |items| :: items[i] < t && FitsInside(items[i])
    ensures Items(items[..k], TailYield(items[k..]) + rest) == Ok(items, rest)
    decreases t, 0, |items| - k
  {
    if k == |items| {
      assert items[..k] == items && TailYield(items[k..]) + rest == rest;
    } else {
      var ts := TailYield(items[k + 1..]) + rest;
      assert items[k..][1..] == items[k + 1..];
      assert TailYield(items[k..]) + rest == [Sym(COMMA)] + (Yield(items[k]) + ts);
      assert ([Sym(COMMA)] + (Yield(items[k]) + ts))[1..] == Yield(items[k]) + ts;
      StopsAlike(items[k], Sym(COMMA), Sym(RIGHT_PAREN));
      LevelComplete(items[k], PREC_ASSIGNMENT, ts);
      assert items[..k] + [items[k]] == items[..k + 1];
      TailComplete(t, items, k + 1, rest);
    }
  }

  /** A comma-separated list of parts of `t` is read back up to its closing parenthesis. */
  lemma {:induction false} ItemsComplete(t: Tree, items: seq<Tree>, rest: seq<Token>)
    requires items != [] && Head(rest) == Sym(RIGHT_PAREN)
    requires forall i | 0 <= i < |items| :: items[i] < t && FitsInside(items[i])
    ensures var first := Level(ItemsYield(items) + rest, PREC_ASSIGNMENT);
      first.Ok? && first.value == items[0] && Items([items[0]], first.rest) == Ok(items, rest)
    decreases t, 1
  {
    var ts := TailYield(items[1..]) + rest;
    ItemsFront(items);
    assert ItemsYield(items) + rest == Yield(items[0]) + ts;
    StopsAlike(items[0], Sym(COMMA), Sym(RIGHT_PAREN));
    LevelComplete(items[0], PREC_ASSIGNMENT, ts);
    assert items[..1] == [items[0]];
    TailComplete(t, items, 1, rest);
  }

  /** `::` before each of `parts`. */
  function SegmentsYield(parts: seq<string>): seq<Token> {
    if parts == [] then [] else [Sym(COLON_COLON), Name(parts[0])] + SegmentsYield(parts[1..])
  }

  lemma {:induction false} SegmentsSnoc(parts: seq<string>, w: string)
    ensures SegmentsYield(parts + [w]) == SegmentsYield(parts) + [Sym(COLON_COLON), Name(w)]
  {
    if parts == [] {
      assert parts + [w] == [w];
      assert SegmentsYield([w][1..]) == [];
    } else {
      SegmentsSnoc(parts[1..], w);
      assert (parts + [w])[1..] == parts[1..] + [w];
    }
  }

  lemma {:induction false} NamesFront(parts: seq<string>)
    requires parts != []
    ensures NamesYield(parts) == [Name(parts[0])] + SegmentsYield(parts[1..])
    decreases |parts|
  {
    if |parts| > 1 {
      var init, last := parts[..|parts| - 1], parts[|parts| - 1];
      NamesFront(init);
      assert parts[1..] == init[1..] + [last];
      SegmentsSnoc(init[1..], last);
    }
  }

  lemma {:induction false} SegmentsComplete(parts: seq<string>, k: nat, rest: seq<Token>)
    requires k <= |parts| && Head(rest) != Sym(COLON_COLON)
    ensures Segments(parts[..k], SegmentsYield(parts[k..]) + rest) == Ok(Names(parts), rest)
    decreases |parts| - k
  {
    if k == |parts| {
      assert parts[..k] == parts && SegmentsYield(parts[k..]) + rest == rest;
    } else {
      var ts := SegmentsYield(parts[k + 1..]) + rest;
      assert parts[k..][1..] == parts[k + 1..];
      assert SegmentsYield(parts[k..]) + rest == [Sym(COLON_COLON), Name(parts[k])] + ts;
      assert ([Sym(COLON_COLON), Name(parts[k])] + ts)[2..] == ts;
      assert parts[..k] + [parts[k]] == parts[..k + 1];
      SegmentsComplete(parts, k + 1, rest);
    }
  }

  lemma {:induction false} OperandComplete(t: Tree, p: nat, rest: seq<Token>)
    requires IsOperand(t) && Fits(t, p)
    requires Takes(t, Head(rest)) ==> Head(rest) == Sym(LEFT_BRACKET) && !CapturesBracket(t)
    requires Head(rest) == Sym(EOF) ==> rest == []
    ensures Operand(Yield(t) + rest) == Ok(t, rest)
    decreases t, 3
  {
    match t {
      case Leaf(token) => assert ([token] + rest)[1..] == rest;
      case Names(parts) => NamesComplete(parts, rest);
      case Prefix(_, _) => PrefixComplete(t, rest);
      case Group(x) =>
        ParenthesesComplete(t, [x], rest);
      case List(items) =>
        ParenthesesComplete(t, items, rest);
    }
  }

  lemma {:induction false} NamesComplete(parts: seq<string>, rest: seq<Token>)
    requires parts != [] && Head(rest) != Sym(COLON_COLON)
    ensures Operand(NamesYield(parts) + rest) == Ok(Names(parts), rest)
  {
    NamesFront(parts);
    var ts := SegmentsYield(parts[1..]) + rest;
    assert NamesYield(parts) + rest == [Name(parts[0])] + ts;
    assert ([Name(parts[0])] + ts)[1..] == ts;
    assert parts[..1] == [parts[0]];
    SegmentsComplete(parts, 1, rest);
  }

  lemma {:induction false} PrefixComplete(t: Tree, rest: seq<Token>)
    requires t.Prefix? && Fits(t, PREC_ASSIGNMENT)
    requires Takes(t, Head(rest)) ==> Head(rest) == Sym(LEFT_BRACKET) && !CapturesBracket(t)
    requires Head(rest) == Sym(EOF) ==> rest == []
    ensures Operand(Yield(t) + rest) == Ok(t, rest)
    decreases t, 2
  {
    var ts := Yield(t.operand) + rest;
    assert Yield(t) + rest == [Sym(t.op)] + ts;
    assert ([Sym(t.op)] + ts)[1..] == ts;
    LevelComplete(t.operand, PREC_UNARY, rest);
  }

  lemma GroupingReads(ts: seq<Token>, items: seq<Tree>, close: seq<Token>)
    requires items != [] && Head(close) == Sym(RIGHT_PAREN)
    requires var first := Level(ts, PREC_ASSIGNMENT);
      first.Ok? && first.value == items[0] && Items([items[0]], first.rest) == Ok(items, close)
    ensures Grouping(ts) == Ok(if |items| == 1 then Group(items[0]) else List(items), close[1..])
  {
    hide Level, Items;
  }

  lemma {:induction false} ParenthesesComplete(t: Tree, items: seq<Tree>, rest: seq<Token>)
    requires t == if |items| == 1 then Group(items[0]) else List(items)
    requires items != [] && Fits(t, PREC_ASSIGNMENT)
    ensures Operand(Yield(t) + rest) == Ok(t, rest)
    decreases t, 2
  {
    var close := [Sym(RIGHT_PAREN)] + rest;
    var ts := ItemsYield(items) + close;
    ItemsComplete(t, items, close);
    GroupingReads(ts, items, close);
    Regroup4([Sym(LEFT_PAREN)], ItemsYield(items), [Sym(RIGHT_PAREN)], rest);
    assert close[1..] == rest;
    assert ([Sym(LEFT_PAREN)] + ts)[1..] == ts;
    hide Grouping;
  }

  // ---- main results ------------------------------------------------------------------

  /** A fitting tree is exactly what is read from its own tokens, whatever follows. */
  lemma ReadsBack(t: Tree, p: nat, rest: seq<Token>)
    requires 0 < p <= PREC_CALL && Fits(t, p)
    requires CanFollow(t, rest) && Precedence(Head(rest)) < p
    ensures Level(Yield(t) + rest, p) == Ok(t, rest)
  {
    LevelComplete(t, p, rest);
  }

  /** One token sequence has at most one fitting tree at the front of it. */
  lemma Unambiguous(t: Tree, u: Tree, p: nat, after: seq<Token>, after': seq<Token>)
    requires 0 < p <= PREC_CALL && Fits(t, p) && Fits(u, p)
    requires CanFollow(t, after) && Precedence(Head(after)) < p
    requires CanFollow(u, after') && Precedence(Head(after')) < p
    requires Yield(t) + after == Yield(u) + after'
    ensures t == u && after == after'
  {
    ReadsBack(t, p, after);
    ReadsBack(u, p, after');
  }

  /** Pratt correctness: the parser answers `t` and `rest` exactly when `t` fits, spells the
      consumed tokens, and nothing of `rest` belongs to it. */
  lemma LevelCharacterised(ts: seq<Token>, p: nat, t: Tree, rest: seq<Token>)
    requires 0 < p <= PREC_CALL && Sym(EOF) !in ts
    ensures Level(ts, p) == Ok(t, rest) <==>
      Fits(t, p) && ts == Yield(t) + rest && !Takes(t, Head(rest)) && Precedence(Head(rest)) < p
  {
    LevelSound(ts, p);
    if Fits(t, p) && ts == Yield(t) + rest && !Takes(t, Head(rest)) && Precedence(Head(rest)) < p {
      assert rest != [] ==> rest[0] in ts;
      ReadsBack(t, p, rest);
    }
  }

  lemma NameStops(w: string, op: Kind)
    requires IsBinaryOp(op) || op == EOF
    ensures !Takes(Names([w]), Sym(op)) && (op == EOF ==> Precedence(Sym(op)) == PREC_NONE)
  {
  }

  lemma TwoNames(a: string, op: Kind, b: string, next: Kind, p: nat)
    requires IsBinaryOp(op) && (IsBinaryOp(next) || next == EOF)
    requires p <= Precedence(Sym(op)) && Precedence(Sym(next)) <= Precedence(Sym(op))
    ensures var t := Infix(op, Names([a]), Names([b]));
      Yield(t) == [Name(a), Sym(op), Name(b)] && Fits(t, p) && !Takes(t, Sym(next))
  {
    hide Precedence;
    NameStops(a, op);
    NameStops(b, next);
    assert Yield(Names([a])) == [Name(a)] && Yield(Names([b])) == [Name(b)];
    assert [Name(a)] + [Sym(op)] + [Name(b)] == [Name(a), Sym(op), Name(b)];
  }

  /** Two operators in a row: the first one is applied first unless the second binds tighter.
      So every level is left-associative, `**` included. */
  lemma TwoOperators(a: string, op: Kind, b: string, op': Kind, c: string)
    requires IsBinaryOp(op) && IsBinaryOp(op')
    ensures var x, y, z := Names([a]), Names([b]), Names([c]);
      Level([Name(a), Sym(op), Name(b), Sym(op'), Name(c)], PREC_ASSIGNMENT)
        == Ok(if Precedence(Sym(op')) <= Precedence(Sym(op)) then Infix(op', Infix(op, x, y), z)
              else Infix(op, x, Infix(op', y, z)), [])
  {
    hide Level, KindPrecedence;
    var x, y, z := Names([a]), Names([b]), Names([c]);
    var ts := [Name(a), Sym(op), Name(b), Sym(op'), Name(c)];
    NameStops(a, op);
    NameStops(c, EOF);
    assert Yield(x) == [Name(a)] && Yield(z) == [Name(c)];
    if Precedence(Sym(op')) <= Precedence(Sym(op)) {
      var t := Infix(op', Infix(op, x, y), z);
      TwoNames(a, op, b, op', PREC_ASSIGNMENT);
      assert Yield(t) + [] == ts;
      ReadsBack(t, PREC_ASSIGNMENT, []);
    } else {
      var t := Infix(op, x, Infix(op', y, z));
      TwoNames(b, op', c, EOF, Precedence(Sym(op)) + 1);
      assert Yield(t) + [] == ts;
      ReadsBack(t, PREC_ASSIGNMENT, []);
    }
  }
}
