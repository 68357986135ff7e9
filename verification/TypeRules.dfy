/** The typing rules, operator by operator, on subtype paths and on the built-in types. */
module TypeRules {
  import opened Tokens
  import opened Basics
  import opened Elements
  import opened Syntax
  import opened Subtyping
  import opened Acceptance
  import opened Typing

  /** `t` is unknown, or specializations lead from it to `u`. */
  ghost predicate MayBe(m: Model, t: Option<Id>, u: Id) { t.None? || Narrower(m, t.value, u) }

  ghost function OneIf(b: bool): nat { if b then 1 else 0 }

  lemma MayBeIs(m: Model, t: Option<Id>, u: Id)
    ensures Fits(m, t, u) <==> MayBe(m, t, u)
  {
    hide Specializes, Narrower;
    if t.Some? { SpecializesIs(m, t.value, u); }
  }

  // ---- leaves ---------------------------------------------------------------------------------------------

  /** Literals have the four built-in types, and a name the type its declaration writes first. */
  lemma LeafRules(m: Model, lib: Library, bound: Binding, lexeme: string, parts: seq<string>, t: Id)
    ensures TypeOf(m, lib, TypesOf(m, bound), Literal(IntLit, lexeme)) == Typing(Some(lib.integer), 0)
    ensures TypeOf(m, lib, TypesOf(m, bound), Literal(RealLit, lexeme)) == Typing(Some(lib.real_), 0)
    ensures TypeOf(m, lib, TypesOf(m, bound), Literal(BoolLit, lexeme)) == Typing(Some(lib.boolean), 0)
    ensures TypeOf(m, lib, TypesOf(m, bound), Literal(StringLit, lexeme)) == Typing(Some(lib.string_), 0)
    ensures TypeOf(m, lib, TypesOf(m, bound), Path(parts)).errors == 0
    ensures TypeOf(m, lib, TypesOf(m, bound), Path(parts)).type_ == Some(t) <==>
      && bound(parts).Some? && Get(m, bound(parts).value).kind in {Attribute, Usage}
      && Get(m, bound(parts).value).types != [] && Get(m, bound(parts).value).types[0].target == Some(t)
  {
  }

  // ---- operators ------------------------------------------------------------------------------------------

  /** Arithmetic wants numbers and has the wider of the two types; where one is unknown it has none. */
  lemma ArithmeticRule(m: Model, lib: Library, env: Env, op: Kind, x: Expr, y: Expr)
    requires op in {PLUS, MINUS, STAR, SLASH}
    ensures var l, r, t := TypeOf(m, lib, env, x), TypeOf(m, lib, env, y), TypeOf(m, lib, env, Binary(op, x, y));
      var good := MayBe(m, l.type_, lib.number) && MayBe(m, r.type_, lib.number);
      && t.errors == l.errors + r.errors + OneIf(!good)
      && t.type_ == if !good || l.type_.None? || r.type_.None? then None
                    else if Narrower(m, l.type_.value, r.type_.value) then r.type_ else l.type_
  {
    hide Specializes, Narrower;
    var l, r := TypeOf(m, lib, env, x), TypeOf(m, lib, env, y);
    MayBeIs(m, l.type_, lib.number);
    MayBeIs(m, r.type_, lib.number);
    if l.type_.Some? && r.type_.Some? { SpecializesIs(m, l.type_.value, r.type_.value); }
  }

  /** An ordering wants numbers. */
  lemma OrderRule(m: Model, lib: Library, env: Env, op: Kind, x: Expr, y: Expr)
    requires op in {LESS, LESS_EQUAL, GREATER, GREATER_EQUAL}
    ensures var l, r := TypeOf(m, lib, env, x), TypeOf(m, lib, env, y);
      TypeOf(m, lib, env, Binary(op, x, y)) ==
        Typing(Some(lib.boolean), l.errors + r.errors + OneIf(!MayBe(m, l.type_, lib.number) || !MayBe(m, r.type_, lib.number)))
  {
    hide Specializes, Narrower;
    MayBeIs(m, TypeOf(m, lib, env, x).type_, lib.number);
    MayBeIs(m, TypeOf(m, lib, env, y).type_, lib.number);
  }

  /** Equality wants types of which one is narrower than the other. */
  lemma EqualityRule(m: Model, lib: Library, env: Env, op: Kind, x: Expr, y: Expr)
    requires op in {EQUAL_EQUAL, BANG_EQUAL}
    ensures var l, r := TypeOf(m, lib, env, x), TypeOf(m, lib, env, y);
      var good := l.type_.None? || r.type_.None?
                  || Narrower(m, l.type_.value, r.type_.value) || Narrower(m, r.type_.value, l.type_.value);
      TypeOf(m, lib, env, Binary(op, x, y)) == Typing(Some(lib.boolean), l.errors + r.errors + OneIf(!good))
  {
    hide Specializes, Narrower;
    var l, r := TypeOf(m, lib, env, x), TypeOf(m, lib, env, y);
    if l.type_.Some? && r.type_.Some? {
      SpecializesIs(m, l.type_.value, r.type_.value);
      SpecializesIs(m, r.type_.value, l.type_.value);
    }
  }

  /** A connective reports each operand that is known not to be Boolean. */
  lemma ConnectiveRule(m: Model, lib: Library, env: Env, op: Kind, x: Expr, y: Expr)
    requires op in {KW_AND, KW_OR}
    ensures var l, r := TypeOf(m, lib, env, x), TypeOf(m, lib, env, y);
      TypeOf(m, lib, env, Binary(op, x, y)) == Typing(Some(lib.boolean),
        l.errors + r.errors + OneIf(!MayBe(m, l.type_, lib.boolean)) + OneIf(!MayBe(m, r.type_, lib.boolean)))
  {
    hide Specializes, Narrower;
    MayBeIs(m, TypeOf(m, lib, env, x).type_, lib.boolean);
    MayBeIs(m, TypeOf(m, lib, env, y).type_, lib.boolean);
  }

  /** Negation of a number keeps its type, negation of a Boolean is Boolean. */
  lemma PrefixRules(m: Model, lib: Library, env: Env, x: Expr)
    ensures var t := TypeOf(m, lib, env, x);
      && TypeOf(m, lib, env, Unary(MINUS, x)) ==
        (if MayBe(m, t.type_, lib.number) then t else Typing(None, t.errors + 1))
      && TypeOf(m, lib, env, Unary(BANG, x)) == Typing(Some(lib.boolean), t.errors + OneIf(!MayBe(m, t.type_, lib.boolean)))
  {
    hide Specializes, Narrower;
    MayBeIs(m, TypeOf(m, lib, env, x).type_, lib.number);
    MayBeIs(m, TypeOf(m, lib, env, x).type_, lib.boolean);
  }

  /** Powers, `xor` and `meta` are not typed, and of calls, lists and member access not even the parts. */
  lemma UntypedRules(m: Model, lib: Library, env: Env, op: Kind, x: Expr, y: Expr, items: seq<Expr>, name: string)
    requires op in {STAR_STAR, KW_XOR, KW_META}
    ensures TypeOf(m, lib, env, Binary(op, x, y))
      == Typing(None, TypeOf(m, lib, env, x).errors + TypeOf(m, lib, env, y).errors)
    ensures TypeOf(m, lib, env, Call(x, items)) == TypeOf(m, lib, env, Tuple(items))
      == TypeOf(m, lib, env, Member(x, name)) == Typing(None, 0)
  {
  }

  // ---- declarations -----------------------------------------------------------------------------------------

  /** A value fits its attribute when it is narrower than the declared type; an enumeration takes any value,
      and what is constant or derived has one. */
  lemma FeatureRule(m: Model, lib: Library, env: Env, a: Feature, insideEnum: bool)
    ensures FeatureErrors(m, lib, env, a, insideEnum) == 0 <==>
      match a.value
      case None => !a.isConstant && !a.isDerived
      case Some(e) =>
        && TypeOf(m, lib, env, e).errors == 0
        && (a.declared.None? || MayBe(m, TypeOf(m, lib, env, e).type_, a.declared.value)
            || (insideEnum && Get(m, a.declared.value).kind == Definition && Get(m, a.declared.value).defKind == KW_ENUM))
  {
    hide Specializes, Narrower, TypeOf;
    if a.value.Some? && a.declared.Some? { MayBeIs(m, TypeOf(m, lib, env, a.value.value).type_, a.declared.value); }
  }

  /** The body of a constraint is without error when it may be Boolean. */
  lemma BodyRule(m: Model, lib: Library, env: Env, e: Expr)
    ensures BodyErrors(m, lib, env, None) == 0
    ensures BodyErrors(m, lib, env, Some(e)) == 0 <==>
      TypeOf(m, lib, env, e).errors == 0 && MayBe(m, TypeOf(m, lib, env, e).type_, lib.boolean)
  {
    hide Specializes, Narrower, TypeOf;
    MayBeIs(m, TypeOf(m, lib, env, e).type_, lib.boolean);
  }

  // ---- on the built-in types ----------------------------------------------------------------------------------

  predicate Known(lib: Library, t: Option<Id>) {
    t in {None, Some(lib.number), Some(lib.real_), Some(lib.integer), Some(lib.boolean), Some(lib.string_)}
  }

  predicate IsNumber(lib: Library, t: Option<Id>) { t in {Some(lib.number), Some(lib.real_), Some(lib.integer)} }

  lemma BuiltinMayBe(m: Model, lib: Library, t: Option<Id>)
    requires Standard(m, lib) && Known(lib, t)
    ensures MayBe(m, t, lib.number) <==> t.None? || IsNumber(lib, t)
    ensures MayBe(m, t, lib.boolean) <==> t.None? || t == Some(lib.boolean)
  {
    hide Specializes, Narrower;
    DistinctBuiltins(m, lib);
    if t.Some? {
      SpecializesIs(m, t.value, lib.number);
      SpecializesIs(m, t.value, lib.boolean);
      BuiltinOrder(m, lib, t.value, lib.number);
      BuiltinOrder(m, lib, t.value, lib.boolean);
    }
  }

  lemma DistinctBuiltins(m: Model, lib: Library)
    requires Standard(m, lib)
    ensures lib.number != lib.real_ && lib.number != lib.integer && lib.number != lib.boolean && lib.number != lib.string_
    ensures lib.real_ != lib.integer && lib.real_ != lib.boolean && lib.real_ != lib.string_
    ensures lib.integer != lib.boolean && lib.integer != lib.string_ && lib.boolean != lib.string_
  {
  }

  lemma BuiltinNarrower(m: Model, lib: Library, t: Id, u: Id)
    requires Standard(m, lib) && Known(lib, Some(t))
    ensures Narrower(m, t, u) <==>
      t == u || (t == lib.integer && u in {lib.real_, lib.number}) || (t == lib.real_ && u == lib.number)
  {
    hide Specializes, Narrower;
    DistinctBuiltins(m, lib);
    SpecializesIs(m, t, u);
    BuiltinOrder(m, lib, t, u);
  }

  /** The wider of two types of numbers. */
  function Wider(lib: Library, t: Option<Id>, u: Option<Id>): Option<Id> {
    if t == Some(lib.number) || u == Some(lib.number) then Some(lib.number)
    else if t == Some(lib.real_) || u == Some(lib.real_) then Some(lib.real_)
    else Some(lib.integer)
  }

  /** The whole table for operands of built-in or unknown type. */
  lemma BuiltinTable(m: Model, lib: Library, env: Env, x: Expr, y: Expr, op: Kind)
    requires Standard(m, lib) && Known(lib, TypeOf(m, lib, env, x).type_) && Known(lib, TypeOf(m, lib, env, y).type_)
    ensures var l, r, t := TypeOf(m, lib, env, x), TypeOf(m, lib, env, y), TypeOf(m, lib, env, Binary(op, x, y));
      var numbers := (l.type_.None? || IsNumber(lib, l.type_)) && (r.type_.None? || IsNumber(lib, r.type_));
      && (op in {PLUS, MINUS, STAR, SLASH} ==>
            && (t.errors == l.errors + r.errors <==> numbers)
            && t.type_ == if IsNumber(lib, l.type_) && IsNumber(lib, r.type_) then Wider(lib, l.type_, r.type_) else None)
      && (op in {LESS, LESS_EQUAL, GREATER, GREATER_EQUAL} ==>
            (t.errors == l.errors + r.errors <==> numbers) && t.type_ == Some(lib.boolean))
      && (op in {EQUAL_EQUAL, BANG_EQUAL} ==>
            && (t.errors == l.errors + r.errors <==> l.type_.None? || r.type_.None? || l.type_ == r.type_
                                                     || (IsNumber(lib, l.type_) && IsNumber(lib, r.type_)))
            && t.type_ == Some(lib.boolean))
      && (op in {KW_AND, KW_OR} ==>
            t == Typing(Some(lib.boolean), l.errors + r.errors
              + OneIf(l.type_.Some? && l.type_ != Some(lib.boolean)) + OneIf(r.type_.Some? && r.type_ != Some(lib.boolean))))
  {
    hide Specializes, Narrower, TypeOf, Standard;
    var l, r := TypeOf(m, lib, env, x).type_, TypeOf(m, lib, env, y).type_;
    BuiltinMayBe(m, lib, l);
    BuiltinMayBe(m, lib, r);
    DistinctBuiltins(m, lib);
    if l.Some? && r.Some? {
      BuiltinNarrower(m, lib, l.value, r.value);
      BuiltinNarrower(m, lib, r.value, l.value);
    }
    if op in {PLUS, MINUS, STAR, SLASH} { ArithmeticRule(m, lib, env, op, x, y); }
    if op in {LESS, LESS_EQUAL, GREATER, GREATER_EQUAL} { OrderRule(m, lib, env, op, x, y); }
    if op in {EQUAL_EQUAL, BANG_EQUAL} { EqualityRule(m, lib, env, op, x, y); }
    if op in {KW_AND, KW_OR} { ConnectiveRule(m, lib, env, op, x, y); }
  }

  /** The same for the two operators before an operand. */
  lemma BuiltinPrefixTable(m: Model, lib: Library, env: Env, x: Expr)
    requires Standard(m, lib) && Known(lib, TypeOf(m, lib, env, x).type_)
    ensures var t := TypeOf(m, lib, env, x);
      && TypeOf(m, lib, env, Unary(MINUS, x)) ==
        (if t.type_.None? || IsNumber(lib, t.type_) then t else Typing(None, t.errors + 1))
      && TypeOf(m, lib, env, Unary(BANG, x)) ==
        Typing(Some(lib.boolean), t.errors + OneIf(t.type_.Some? && t.type_ != Some(lib.boolean)))
  {
    hide Specializes, Narrower, TypeOf, Standard;
    BuiltinMayBe(m, lib, TypeOf(m, lib, env, x).type_);
    PrefixRules(m, lib, env, x);
  }
}
