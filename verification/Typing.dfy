/** Expression typing with unknown types. */
module Typing {
  import opened Tokens
  import opened Basics
  import opened Elements
  import opened Syntax
  import opened Walks
  import opened Subtyping

  /** The built-in datatypes. */
  datatype Library = Library(number: Id, real_: Id, integer: Id, boolean: Id, string_: Id)

  /** The type of every name of an expression; None when it is unknown. */
  type Env = seq<string> -> Option<Id>

  /** What the names of an expression are bound to. */
  type Binding = seq<string> -> Option<Id>

  /** `identifierType`: a name has the type that its declaration declares; none when it is not
      bound, or bound to something that declares no type. */
  function TypesOf(m: Model, bound: Binding): Env {
    (parts: seq<string>) => if bound(parts).None? then None else DeclaredType(m, bound(parts).value)
  }

  /** The type of an expression and the number of errors reported while finding it. */
  datatype Typing = Typing(type_: Option<Id>, errors: nat)

  ghost predicate Fits(m: Model, t: Option<Id>, u: Id) {
    t.None? || Specializes(m, t.value, u)
  }

  ghost predicate Comparable(m: Model, t: Option<Id>, u: Option<Id>) {
    t.None? || u.None? || Specializes(m, t.value, u.value) || Specializes(m, u.value, t.value)
  }

  ghost function JoinNumeric(m: Model, a: Option<Id>, b: Option<Id>): Option<Id> {
    if a.None? then b
    else if b.None? then a
    else if Specializes(m, a.value, b.value) then b
    else a
  }

  function LiteralType(lib: Library, kind: LiteralKind): Id {
    match kind
    case IntLit => lib.integer
    case RealLit => lib.real_
    case BoolLit => lib.boolean
    case StringLit => lib.string_
  }

  predicate IsArithmetic(op: Kind) { op == PLUS || op == MINUS || op == STAR || op == SLASH }

  predicate IsOrder(op: Kind) { op == LESS || op == LESS_EQUAL || op == GREATER || op == GREATER_EQUAL }

  predicate IsEquality(op: Kind) { op == EQUAL_EQUAL || op == BANG_EQUAL }

  predicate IsConnective(op: Kind) { op == KW_AND || op == KW_OR }

  function Count(b: bool): nat { if b then 0 else 1 }

  /** The rule for a binary operator: its type and the errors of this node alone. */
  ghost function BinaryRule(m: Model, lib: Library, op: Kind, l: Option<Id>, r: Option<Id>): Typing {
    if IsArithmetic(op) then
      if !Fits(m, l, lib.number) || !Fits(m, r, lib.number) then Typing(None, 1)
      else if l.None? || r.None? then Typing(None, 0)
      else Typing(JoinNumeric(m, l, r), 0)
    else if IsOrder(op) then
      Typing(Some(lib.boolean), Count(Fits(m, l, lib.number) && Fits(m, r, lib.number)))
    else if IsEquality(op) then Typing(Some(lib.boolean), Count(Comparable(m, l, r)))
    else if IsConnective(op) then
      Typing(Some(lib.boolean), Count(Fits(m, l, lib.boolean)) + Count(Fits(m, r, lib.boolean)))
    else Typing(None, 0)
  }

  ghost function UnaryRule(m: Model, lib: Library, op: Kind, t: Option<Id>): Typing {
    if op == MINUS then (if Fits(m, t, lib.number) then Typing(t, 0) else Typing(None, 1))
    else if op == BANG then Typing(Some(lib.boolean), Count(Fits(m, t, lib.boolean)))
    else Typing(None, 0)
  }

  ghost function TypeOf(m: Model, lib: Library, env: Env, e: Expr): Typing {
    match e
    case Literal(kind, _) => Typing(Some(LiteralType(lib, kind)), 0)
    case Path(parts) => Typing(env(parts), 0)
    case Binary(op, l, r) =>
      var tl, tr := TypeOf(m, lib, env, l), TypeOf(m, lib, env, r);
      var t := BinaryRule(m, lib, op, tl.type_, tr.type_);
      Typing(t.type_, tl.errors + tr.errors + t.errors)
    case Unary(op, x) =>
      var tx := TypeOf(m, lib, env, x);
      var t := UnaryRule(m, lib, op, tx.type_);
      Typing(t.type_, tx.errors + t.errors)
    case _ => Typing(None, 0)
  }

  /** An attribute as the checker sees it. */
  datatype Feature = Feature(declared: Option<Id>, isConstant: bool, isDerived: bool, value: Option<Expr>)

  /** Errors of `checkAttribute`. */
  ghost function FeatureErrors(m: Model, lib: Library, env: Env, a: Feature, insideEnum: bool): nat {
    match a.value
    case None => (if a.isConstant then 1 else 0) + if a.isDerived then 1 else 0
    case Some(e) =>
      var t := TypeOf(m, lib, env, e);
      if a.declared.None? || t.type_.None? then t.errors
      else if insideEnum && Get(m, a.declared.value).kind == Definition && Get(m, a.declared.value).defKind == KW_ENUM
      then t.errors
      else t.errors + Count(Specializes(m, t.type_.value, a.declared.value))
  }

  /** Errors of `checkConstraintBody`: the body of a constraint is Boolean or unknown. */
  ghost function BodyErrors(m: Model, lib: Library, env: Env, body: Option<Expr>): nat {
    match body
    case None => 0
    case Some(e) =>
      var t := TypeOf(m, lib, env, e);
      t.errors + Count(Fits(m, t.type_, lib.boolean))
  }

  class TypeChecker {
    const m: Model
    const lib: Library
    const bound: Binding
    var errorCount: nat

    constructor (model: Model, library: Library, binding: Binding)
      ensures m == model && lib == library && bound == binding && errorCount == 0
    {
      m, lib, bound, errorCount := model, library, binding, 0;
    }

    method IdentifierType(parts: seq<string>) returns (t: Option<Id>)
      ensures t == TypesOf(m, bound)(parts)
    {
      var id := bound(parts);
      if id.None? {
        return None;
      }
      var e := Get(m, id.value);
      match e.kind
      case Attribute => return if |e.types| > 0 then e.types[0].target else None;
      case Usage => return if |e.types| > 0 then e.types[0].target else None;
      case _ => return None;
    }

    method IsOf(t: Option<Id>, u: Id) returns (r: bool)
      ensures r == Fits(m, t, u)
    {
      if t.None? {
        return true;
      }
      r := SpecializesType(m, t, Some(u));
    }

    method Join(a: Option<Id>, b: Option<Id>) returns (r: Option<Id>)
      ensures r == JoinNumeric(m, a, b)
    {
      if a.None? {
        return b;
      }
      if b.None? {
        return a;
      }
      var below := SpecializesType(m, a, b);
      if below {
        return b;
      }
      var above := SpecializesType(m, b, a);
      if above {
        return a;
      }
      return a;
    }

    /** One error unless `ok`. */
    method Require(ok: bool)
      modifies this`errorCount
      ensures errorCount == old(errorCount) + Count(ok)
    {
      if !ok { errorCount := errorCount + 1; }
    }

    method BinaryType(op: Kind, l: Option<Id>, r: Option<Id>) returns (t: Option<Id>)
      modifies this`errorCount
      ensures var rule := BinaryRule(m, lib, op, l, r);
        t == rule.type_ && errorCount == old(errorCount) + rule.errors
    {
      hide Specializes;
      if IsArithmetic(op) {
        var ln := IsOf(l, lib.number);
        var rn := IsOf(r, lib.number);
        Require(ln && rn);
        if !ln || !rn || l.None? || r.None? {
          return None;
        }
        t := Join(l, r);
      } else if IsOrder(op) {
        var ln := IsOf(l, lib.number);
        var rn := IsOf(r, lib.number);
        Require(ln && rn);
        return Some(lib.boolean);
      } else if IsEquality(op) {
        if l.Some? && r.Some? {
          var up := SpecializesType(m, l, r);
          var down := SpecializesType(m, r, l);
          Require(up || down);
        }
        return Some(lib.boolean);
      } else if IsConnective(op) {
        var lb := IsOf(l, lib.boolean);
        Require(lb);
        var rb := IsOf(r, lib.boolean);
        Require(rb);
        return Some(lib.boolean);
      } else {
        return None;
      }
    }

    method ExpressionType(e: Expr) returns (t: Option<Id>)
      modifies this`errorCount
      ensures t == TypeOf(m, lib, TypesOf(m, bound), e).type_
      ensures errorCount == old(errorCount) + TypeOf(m, lib, TypesOf(m, bound), e).errors
      decreases e
    {
      hide BinaryRule, Fits;
      match e
      case Literal(kind, _) => t := Some(LiteralType(lib, kind));
      case Path(parts) => t := IdentifierType(parts);
      case Binary(op, left, right) =>
        var l := ExpressionType(left);
        var r := ExpressionType(right);
        t := BinaryType(op, l, r);
      case Unary(op, x) =>
        var tx := ExpressionType(x);
        if op == MINUS {
          var numeric := IsOf(tx, lib.number);
          Require(numeric);
          t := if numeric then tx else None;
        } else if op == BANG {
          var boolean := IsOf(tx, lib.boolean);
          Require(boolean);
          t := Some(lib.boolean);
        } else {
          t := None;
        }
      case _ => t := None;
    }

    method CheckConstraintBody(body: Option<Expr>)
      modifies this`errorCount
      ensures errorCount == old(errorCount) + BodyErrors(m, lib, TypesOf(m, bound), body)
    {
      hide TypeOf, Fits;
      if body.None? {
        return;
      }
      var t := ExpressionType(body.value);
      var boolean := IsOf(t, lib.boolean);
      Require(boolean);
    }

    method CheckAttribute(a: Feature, insideEnum: bool)
      modifies this`errorCount
      ensures errorCount == old(errorCount) + FeatureErrors(m, lib, TypesOf(m, bound), a, insideEnum)
    {
      hide TypeOf, Specializes;
      if a.value.None? {
        Require(!a.isConstant);
        Require(!a.isDerived);
        return;
      }
      var t := ExpressionType(a.value.value);
      if a.declared.None? || t.None? {
        return;
      }
      if insideEnum && Get(m, a.declared.value).kind == Definition && Get(m, a.declared.value).defKind == KW_ENUM {
        return;
      }
      var fits := SpecializesType(m, t, a.declared);
      Require(fits);
    }
  }

  // ---- erasing types to unknown ----------------------------------------------------

  /** `env'` knows no more than `env`, and agrees where it knows something. */
  ghost predicate Erases(env': Env, env: Env) {
    forall parts :: env'(parts) == env(parts) || env'(parts) == None
  }

  /** The gradual guarantee for expressions. */
  lemma {:induction false} ErasureKeepsTyping(m: Model, lib: Library, env: Env, env': Env, e: Expr)
    requires Erases(env', env) && TypeOf(m, lib, env, e).errors == 0
    ensures TypeOf(m, lib, env', e).errors == 0
    ensures TypeOf(m, lib, env', e).type_ in {TypeOf(m, lib, env, e).type_, None}
  {
    hide Specializes;
    match e
    case Literal(_, _) =>
    case Path(_) =>
    case Binary(op, l, r) =>
      ErasureKeepsTyping(m, lib, env, env', l);
      ErasureKeepsTyping(m, lib, env, env', r);
    case Unary(op, x) => ErasureKeepsTyping(m, lib, env, env', x);
    case _ =>
  }

  /** The gradual guarantee for attributes: it holds for the declared type as well. */
  lemma ErasureKeepsFeature(m: Model, lib: Library, env: Env, env': Env, a: Feature, declared': Option<Id>, insideEnum: bool)
    requires Erases(env', env) && declared' in {a.declared, None}
    requires FeatureErrors(m, lib, env, a, insideEnum) == 0
    ensures FeatureErrors(m, lib, env', a.(declared := declared'), insideEnum) == 0
  {
    hide Specializes, TypeOf;
    if a.value.Some? { ErasureKeepsTyping(m, lib, env, env', a.value.value); }
  }

  /** And for the bodies of constraints. */
  lemma ErasureKeepsBody(m: Model, lib: Library, env: Env, env': Env, body: Option<Expr>)
    requires Erases(env', env) && BodyErrors(m, lib, env, body) == 0
    ensures BodyErrors(m, lib, env', body) == 0
  {
    hide Specializes, TypeOf;
    if body.Some? { ErasureKeepsTyping(m, lib, env, env', body.value); }
  }

  // ---- narrowing on the built-in chain ---------------------------------------------

  /** The built-in library as it is constructed: Integer :> Real :> Number, and two
      unrelated datatypes. */
  predicate Standard(m: Model, lib: Library) {
    && |{lib.number, lib.real_, lib.integer, lib.boolean, lib.string_}| == 5
    && Supertypes(m, lib.number) == [] && Supertypes(m, lib.boolean) == [] && Supertypes(m, lib.string_) == []
    && Supertypes(m, lib.real_) == [lib.number] && Supertypes(m, lib.integer) == [lib.real_]
  }

  predicate IsBuiltin(lib: Library, t: Id) {
    t == lib.number || t == lib.real_ || t == lib.integer || t == lib.boolean || t == lib.string_
  }

  /** Position on the chain; 0 for the datatypes that are not on it. */
  function Height(lib: Library, t: Id): nat {
    if t == lib.integer then 1 else if t == lib.real_ then 2 else if t == lib.number then 3 else 0
  }

  /** `t` is `u` or below it on the chain. */
  predicate Below(lib: Library, t: Id, u: Id) {
    t == u || 0 < Height(lib, t) <= Height(lib, u)
  }

  lemma {:induction false} ReachFromBuiltin(m: Model, lib: Library, t: Id, u: Id, n: nat)
    requires Standard(m, lib) && IsBuiltin(lib, t) && n + 1 >= Height(lib, lib.number) - Height(lib, t)
    ensures n >= 2 ==> (ReachesWithin(SuperLinks(m), t, u, n) <==> Below(lib, t, u))
    ensures t == lib.number || t == lib.boolean || t == lib.string_ ==>
      (ReachesWithin(SuperLinks(m), t, u, n) <==> t == u)
    ensures t == lib.real_ && n >= 1 ==> (ReachesWithin(SuperLinks(m), t, u, n) <==> u == t || u == lib.number)
    decreases n
  {
    hide ReachesWithin;
    var up := SuperLinks(m);
    if t == u {
      ReachSelf(up, t, n);
    } else {
      if n > 0 && t == lib.real_ { ReachFromBuiltin(m, lib, lib.number, u, n - 1); }
      if n > 1 && t == lib.integer { ReachFromBuiltin(m, lib, lib.real_, u, n - 1); }
      if ReachesWithin(up, t, u, n) {
        var c := ReachStep(up, t, u, n);
      } else if t == lib.real_ && u == lib.number && n >= 1 {
        StepThenReach(up, t, u, u, n - 1);
      } else if t == lib.integer && Below(lib, t, u) && n >= 2 {
        StepThenReach(up, t, lib.real_, u, n - 1);
      }
    }
  }

  /** On built-in types the bounded walk is the order Integer <= Real <= Number. */
  lemma BuiltinOrder(m: Model, lib: Library, t: Id, u: Id)
    requires Standard(m, lib) && IsBuiltin(lib, t)
    ensures Specializes(m, t, u) <==> Below(lib, t, u)
  {
    ReachFromBuiltin(m, lib, t, u, MAX_DEPTH);
  }

  /** `joinNumeric` is the least upper bound of two types of the chain. */
  lemma JoinIsLeastUpperBound(m: Model, lib: Library, a: Id, b: Id, c: Id)
    requires Standard(m, lib) && Height(lib, a) > 0 && Height(lib, b) > 0
    ensures JoinNumeric(m, Some(a), Some(b)).Some?
    ensures var j := JoinNumeric(m, Some(a), Some(b)).value;
      && Height(lib, j) > 0
      && Specializes(m, a, j) && Specializes(m, b, j)
      && (Specializes(m, a, c) && Specializes(m, b, c) ==> Specializes(m, j, c))
  {
    hide Specializes;
    BuiltinOrder(m, lib, a, b);
    BuiltinOrder(m, lib, b, a);
    BuiltinOrder(m, lib, a, c);
    BuiltinOrder(m, lib, b, c);
    BuiltinOrder(m, lib, a, a);
    BuiltinOrder(m, lib, b, b);
  }

  /** Two types are related when one is at most the other. */
  ghost predicate Related(m: Model, a: Id, b: Id) { Specializes(m, a, b) || Specializes(m, b, a) }

  /** In general it bounds both arguments exactly when they are related, and does not depend on
      their order exactly when they are equal or related in one direction only. */
  lemma JoinExactly(m: Model, a: Id, b: Id)
    ensures JoinNumeric(m, Some(a), Some(b)).Some?
    ensures var j := JoinNumeric(m, Some(a), Some(b)).value;
      Specializes(m, a, j) && Specializes(m, b, j) <==> Related(m, a, b)
    ensures JoinNumeric(m, Some(a), Some(b)) == JoinNumeric(m, Some(b), Some(a))
      <==> a == b || Specializes(m, a, b) != Specializes(m, b, a)
  {
    hide ReachesWithin;
    ReachSelf(SuperLinks(m), a, MAX_DEPTH);
    ReachSelf(SuperLinks(m), b, MAX_DEPTH);
  }
}
