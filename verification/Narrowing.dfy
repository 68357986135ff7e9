/** Replacing the types of names by subtypes: exactly when expressions survive it. */
module Narrowing {
  import opened Tokens
  import opened Basics
  import opened Elements
  import opened Syntax
  import opened Walks
  import opened Subtyping
  import opened Typing

  // ---- narrowing within a set of types -----------------------------------------------------

  /** `t` is at most `u`, or both are unknown. */
  ghost predicate AtMost(m: Model, t: Option<Id>, u: Option<Id>) {
    if u.None? then t.None? else t.Some? && Specializes(m, t.value, u.value)
  }

  ghost predicate Among(T: iset<Id>, t: Option<Id>) { t.Some? ==> t.value in T }

  ghost predicate EnvAmong(T: iset<Id>, env: Env) { forall parts :: Among(T, env(parts)) }

  /** `env'` replaces types by subtypes, all of them in `T`. */
  ghost predicate Narrows(m: Model, T: iset<Id>, env': Env, env: Env) {
    EnvAmong(T, env') && forall parts :: AtMost(m, env'(parts), env(parts))
  }

  ghost predicate HasLibrary(lib: Library, T: iset<Id>) {
    lib.number in T && lib.real_ in T && lib.integer in T && lib.boolean in T && lib.string_ in T
  }

  ghost predicate TransitiveOn(m: Model, T: iset<Id>) {
    forall a, b, c | a in T && b in T && Specializes(m, a, b) && Specializes(m, b, c) :: Specializes(m, a, c)
  }

  /** Types of `T` below related types of `T` are related themselves. */
  ghost predicate Coherent(m: Model, T: iset<Id>) {
    forall t, u, t', u' | t in T && u in T && t' in T && u' in T ::
      Related(m, t, u) && Specializes(m, t', t) && Specializes(m, u', u) ==> Related(m, t', u')
  }

  /** Every accepted expression survives every narrowing within `T`, and its type only goes
      down. */
  ghost predicate NarrowingSafe(m: Model, lib: Library, T: iset<Id>) {
    forall env, env', e | EnvAmong(T, env) && Narrows(m, T, env', env) && TypeOf(m, lib, env, e).errors == 0 ::
      TypeOf(m, lib, env', e).errors == 0 && AtMost(m, TypeOf(m, lib, env', e).type_, TypeOf(m, lib, env, e).type_)
  }

  lemma SelfRelated(m: Model, t: Id)
    ensures Specializes(m, t, t) && Related(m, t, t)
  {
    ReachSelf(SuperLinks(m), t, MAX_DEPTH);
  }

  /** What is below a type that fits, fits. */
  lemma FitsBelow(m: Model, T: iset<Id>, t: Option<Id>, t': Option<Id>, u: Id)
    requires TransitiveOn(m, T) && Among(T, t) && Among(T, t') && AtMost(m, t', t) && Fits(m, t, u)
    ensures Fits(m, t', u)
  {
    hide Specializes;
  }

  /** Numeric types that are related have related subtypes, whose join is below theirs. */
  lemma JoinNarrows(m: Model, lib: Library, T: iset<Id>, l: Id, r: Id, l': Id, r': Id)
    requires HasLibrary(lib, T) && TransitiveOn(m, T) && Coherent(m, T)
    requires l in T && r in T && l' in T && r' in T && Specializes(m, l', l) && Specializes(m, r', r)
    requires Specializes(m, l, lib.number) && Specializes(m, r, lib.number)
    ensures AtMost(m, JoinNumeric(m, Some(l'), Some(r')), JoinNumeric(m, Some(l), Some(r)))
    ensures Among(T, JoinNumeric(m, Some(l), Some(r))) && Among(T, JoinNumeric(m, Some(l'), Some(r')))
  {
    hide Specializes;
    SelfRelated(m, lib.number);
    assert Related(m, l, r);
    assert Related(m, l', r');
  }

  lemma RuleNarrows(m: Model, lib: Library, T: iset<Id>, op: Kind, l: Option<Id>, r: Option<Id>, l': Option<Id>, r': Option<Id>)
    requires HasLibrary(lib, T) && TransitiveOn(m, T) && Coherent(m, T)
    requires Among(T, l) && Among(T, r) && Among(T, l') && Among(T, r') && AtMost(m, l', l) && AtMost(m, r', r)
    requires BinaryRule(m, lib, op, l, r).errors == 0
    ensures var t, t' := BinaryRule(m, lib, op, l, r).type_, BinaryRule(m, lib, op, l', r');
      t'.errors == 0 && AtMost(m, t'.type_, t) && Among(T, t) && Among(T, t'.type_)
  {
    hide Specializes, JoinNumeric, Coherent, TransitiveOn, Fits, Comparable;
    SelfRelated(m, lib.boolean);
    RuleFits(m, T, l, l', lib.number);
    RuleFits(m, T, r, r', lib.number);
    RuleFits(m, T, l, l', lib.boolean);
    RuleFits(m, T, r, r', lib.boolean);
    if l.Some? && r.Some? {
      ComparableBelow(m, T, l, r, l', r');
      if Fits(m, l, lib.number) && Fits(m, r, lib.number) {
        FitsMeans(m, l.value, lib.number);
        FitsMeans(m, r.value, lib.number);
        JoinNarrows(m, lib, T, l.value, r.value, l'.value, r'.value);
      }
    } else {
      Uncompared(m, l', r');
    }
  }

  lemma RuleFits(m: Model, T: iset<Id>, t: Option<Id>, t': Option<Id>, u: Id)
    requires TransitiveOn(m, T) && Among(T, t) && Among(T, t') && AtMost(m, t', t)
    ensures Fits(m, t, u) ==> Fits(m, t', u)
  {
    hide TransitiveOn, Fits;
    if Fits(m, t, u) { FitsBelow(m, T, t, t', u); }
  }

  lemma FitsMeans(m: Model, t: Id, u: Id)
    requires Fits(m, Some(t), u)
    ensures Specializes(m, t, u)
  {
  }

  lemma Uncompared(m: Model, l: Option<Id>, r: Option<Id>)
    requires l.None? || r.None?
    ensures Comparable(m, l, r)
  {
  }

  lemma ComparableBelow(m: Model, T: iset<Id>, l: Option<Id>, r: Option<Id>, l': Option<Id>, r': Option<Id>)
    requires Coherent(m, T) && l.Some? && r.Some? && AtMost(m, l', l) && AtMost(m, r', r)
    requires Among(T, l) && Among(T, r) && Among(T, l') && Among(T, r')
    ensures Comparable(m, l, r) ==> Comparable(m, l', r')
  {
    hide Specializes;
    if Comparable(m, l, r) { assert Related(m, l.value, r.value); }
  }

  lemma {:induction false} NarrowingIsSafe(m: Model, lib: Library, T: iset<Id>, env: Env, env': Env, e: Expr)
    requires HasLibrary(lib, T) && TransitiveOn(m, T) && Coherent(m, T)
    requires EnvAmong(T, env) && Narrows(m, T, env', env) && TypeOf(m, lib, env, e).errors == 0
    ensures var t, t' := TypeOf(m, lib, env, e).type_, TypeOf(m, lib, env', e);
      t'.errors == 0 && AtMost(m, t'.type_, t) && Among(T, t) && Among(T, t'.type_)
  {
    hide BinaryRule, Fits, Coherent, TransitiveOn, Specializes;
    match e
    case Literal(kind, _) => SelfRelated(m, LiteralType(lib, kind));
    case Path(parts) => assert Among(T, env(parts)) && AtMost(m, env'(parts), env(parts));
    case Binary(op, l, r) =>
      NarrowingIsSafe(m, lib, T, env, env', l);
      NarrowingIsSafe(m, lib, T, env, env', r);
      RuleNarrows(m, lib, T, op, TypeOf(m, lib, env, l).type_, TypeOf(m, lib, env, r).type_,
                  TypeOf(m, lib, env', l).type_, TypeOf(m, lib, env', r).type_);
    case Unary(op, x) =>
      NarrowingIsSafe(m, lib, T, env, env', x);
      SelfRelated(m, lib.boolean);
      RuleFits(m, T, TypeOf(m, lib, env, x).type_, TypeOf(m, lib, env', x).type_, lib.number);
      RuleFits(m, T, TypeOf(m, lib, env, x).type_, TypeOf(m, lib, env', x).type_, lib.boolean);
    case _ =>
  }

  /** Two names that are told apart, with their types. */
  function Two(t: Id, u: Id): Env {
    (parts: seq<string>) => if parts == ["a"] then Some(t) else Some(u)
  }

  /** Their comparison for equality is accepted exactly when they are related. */
  function Same(): Expr { Binary(EQUAL_EQUAL, Path(["a"]), Path(["b"])) }

  lemma SameErrors(m: Model, lib: Library, t: Id, u: Id)
    ensures TypeOf(m, lib, Two(t, u), Same()).errors == if Related(m, t, u) then 0 else 1
  {
    hide Specializes;
    assert ["a"][0] != ["b"][0];
  }

  lemma SafeIsCoherent(m: Model, lib: Library, T: iset<Id>, t: Id, u: Id, t': Id, u': Id)
    requires NarrowingSafe(m, lib, T) && t in T && u in T && t' in T && u' in T
    requires Related(m, t, u) && Specializes(m, t', t) && Specializes(m, u', u)
    ensures Related(m, t', u')
  {
    hide Specializes, TypeOf;
    SameErrors(m, lib, t, u);
    SameErrors(m, lib, t', u');
    assert EnvAmong(T, Two(t, u)) && Narrows(m, T, Two(t', u'), Two(t, u));
  }

  /** Within a set of types on which the subtype test is transitive, narrowing is safe if and
      only if types below related types are related. */
  lemma NarrowingExactly(m: Model, lib: Library, T: iset<Id>)
    requires HasLibrary(lib, T) && TransitiveOn(m, T)
    ensures NarrowingSafe(m, lib, T) <==> Coherent(m, T)
  {
    hide TransitiveOn, HasLibrary, Specializes, TypeOf, Related;
    if Coherent(m, T) {
      forall env, env', e | EnvAmong(T, env) && Narrows(m, T, env', env) && TypeOf(m, lib, env, e).errors == 0
        ensures TypeOf(m, lib, env', e).errors == 0
        ensures AtMost(m, TypeOf(m, lib, env', e).type_, TypeOf(m, lib, env, e).type_)
      {
        NarrowingIsSafe(m, lib, T, env, env', e);
      }
    }
    if NarrowingSafe(m, lib, T) {
      forall t, u, t', u' | t in T && u in T && t' in T && u' in T
        && Related(m, t, u) && Specializes(m, t', t) && Specializes(m, u', u)
        ensures Related(m, t', u')
      {
        SafeIsCoherent(m, lib, T, t, u, t', u');
      }
    }
  }

  // ---- attributes and constraints --------------------------------------------------------------

  /** The same for an attribute and its default value. */
  lemma NarrowingKeepsFeature(m: Model, lib: Library, T: iset<Id>, env: Env, env': Env, a: Feature, insideEnum: bool)
    requires HasLibrary(lib, T) && TransitiveOn(m, T) && Coherent(m, T)
    requires EnvAmong(T, env) && Narrows(m, T, env', env) && FeatureErrors(m, lib, env, a, insideEnum) == 0
    ensures FeatureErrors(m, lib, env', a, insideEnum) == 0
  {
    hide Specializes, TypeOf, Coherent, EnvAmong, Narrows;
    if a.value.Some? { NarrowingIsSafe(m, lib, T, env, env', a.value.value); }
  }

  /** And for the body of a constraint. */
  lemma NarrowingKeepsBody(m: Model, lib: Library, T: iset<Id>, env: Env, env': Env, body: Option<Expr>)
    requires HasLibrary(lib, T) && TransitiveOn(m, T) && Coherent(m, T)
    requires EnvAmong(T, env) && Narrows(m, T, env', env) && BodyErrors(m, lib, env, body) == 0
    ensures BodyErrors(m, lib, env', body) == 0
  {
    hide Specializes, TypeOf, Coherent, EnvAmong, Narrows, TransitiveOn, Fits;
    if body.Some? {
      NarrowingIsSafe(m, lib, T, env, env', body.value);
      RuleFits(m, T, TypeOf(m, lib, env, body.value).type_, TypeOf(m, lib, env', body.value).type_, lib.boolean);
    }
  }

  // ---- the library types --------------------------------------------------------------------------

  ghost function Builtins(lib: Library): iset<Id> {
    iset{lib.number, lib.real_, lib.integer, lib.boolean, lib.string_}
  }

  /** The library types alone are transitive and coherent, so narrowing among them is safe. */
  lemma BuiltinsAreCoherent(m: Model, lib: Library)
    requires Standard(m, lib)
    ensures HasLibrary(lib, Builtins(lib)) && TransitiveOn(m, Builtins(lib)) && Coherent(m, Builtins(lib))
    ensures NarrowingSafe(m, lib, Builtins(lib))
  {
    hide Specializes, Standard, NarrowingSafe;
    var T := Builtins(lib);
    forall a, b | a in T ensures Specializes(m, a, b) <==> Below(lib, a, b) { BuiltinOrder(m, lib, a, b); }
    NarrowingExactly(m, lib, T);
  }

  // ---- expressions that survive with any types ------------------------------------------------------

  /** Neither a comparison for equality nor arithmetic occurs. */
  predicate Plain(e: Expr) {
    match e
    case Binary(op, l, r) => !IsEquality(op) && !IsArithmetic(op) && Plain(l) && Plain(r)
    case Unary(_, x) => Plain(x)
    case _ => true
  }

  /** Such an expression survives every narrowing, whatever the types, where the subtype test is
      transitive. */
  lemma {:induction false} PlainIsSafe(m: Model, lib: Library, env: Env, env': Env, e: Expr)
    requires Transitive(m) && Plain(e) && (forall parts :: AtMost(m, env'(parts), env(parts)))
    requires TypeOf(m, lib, env, e).errors == 0
    ensures TypeOf(m, lib, env', e).errors == 0
    ensures AtMost(m, TypeOf(m, lib, env', e).type_, TypeOf(m, lib, env, e).type_)
  {
    hide Specializes;
    SelfRelated(m, lib.boolean);
    match e
    case Literal(kind, _) => SelfRelated(m, LiteralType(lib, kind));
    case Path(parts) => assert AtMost(m, env'(parts), env(parts));
    case Binary(op, l, r) =>
      PlainIsSafe(m, lib, env, env', l);
      PlainIsSafe(m, lib, env, env', r);
    case Unary(op, x) => PlainIsSafe(m, lib, env, env', x);
    case _ =>
  }

  // ---- user types --------------------------------------------------------------------------

  /** A sum of unrelated types has the first one; once that is narrowed to a common subtype the
      sum has the second, which is not below the first. */
  lemma SumMovesAcross(m: Model, lib: Library, t: Id, u: Id, below: Id)
    requires !Related(m, t, u) && Specializes(m, below, t) && Specializes(m, below, u)
    requires Specializes(m, t, lib.number) && Specializes(m, u, lib.number) && Specializes(m, below, lib.number)
    ensures var e := Binary(PLUS, Path(["a"]), Path(["b"]));
      && TypeOf(m, lib, Two(t, u), e) == Typing(Some(t), 0)
      && TypeOf(m, lib, Two(below, u), e) == Typing(Some(u), 0)
      && !AtMost(m, Some(u), Some(t))
  {
    hide Specializes;
    assert ["a"][0] != ["b"][0];
  }

  /** A type whose only supertype is built in lies below that one and what is above it. */
  lemma AboveUserType(m: Model, lib: Library, u: Id, t: Id, v: Id)
    requires Standard(m, lib) && IsBuiltin(lib, t) && Supertypes(m, u) == [t]
    ensures Specializes(m, u, v) <==> u == v || Below(lib, t, v)
  {
    hide ReachesWithin, Standard, Below;
    var up := SuperLinks(m);
    ReachFromBuiltin(m, lib, t, v, MAX_DEPTH - 1);
    if u == v {
      ReachSelf(up, u, MAX_DEPTH);
    } else if ReachesWithin(up, u, v, MAX_DEPTH) {
      var c := ReachStep(up, u, v, MAX_DEPTH);
    } else if Below(lib, t, v) {
      StepThenReach(up, u, t, v, MAX_DEPTH - 1);
    }
  }

  /** `u == n` is accepted for `n : Number` and rejected once `n` is narrowed to `Integer`. */
  ghost predicate NarrowingBreaks(m: Model, lib: Library, u: Id) {
    && TypeOf(m, lib, Two(u, lib.number), Same()).errors == 0
    && Narrows(m, Builtins(lib) + iset{u}, Two(u, lib.integer), Two(u, lib.number))
    && TypeOf(m, lib, Two(u, lib.integer), Same()).errors == 1
  }

  /** Any user type right below `Real` breaks narrowing: with it the library types are no longer
      coherent. */
  lemma NarrowingNeedsBuiltinTypes(m: Model, lib: Library, u: Id)
    requires Standard(m, lib) && !IsBuiltin(lib, u) && Supertypes(m, u) == [lib.real_]
    ensures !Coherent(m, Builtins(lib) + iset{u}) && NarrowingBreaks(m, lib, u)
  {
    hide Specializes, TypeOf;
    AboveUserType(m, lib, u, lib.real_, lib.number);
    AboveUserType(m, lib, u, lib.real_, lib.integer);
    BuiltinOrder(m, lib, lib.integer, lib.number);
    BuiltinOrder(m, lib, lib.integer, u);
    SelfRelated(m, u);
    SameErrors(m, lib, u, lib.number);
    SameErrors(m, lib, u, lib.integer);
    var T := Builtins(lib) + iset{u};
    assert u in T && lib.number in T && lib.integer in T;
    assert Related(m, u, lib.number) && !Related(m, u, lib.integer);
    assert Narrows(m, T, Two(u, lib.integer), Two(u, lib.number));
  }

  // ---- such a model ----------------------------------------------------------------------------

  function Datatype(name: string, supers: seq<Ref>): Element {
    Bare(Definition, EOF, name).(specializes := supers)
  }

  /** The library, and a user datatype `U :> Real`. */
  function WithUserType(): Model {
    [Datatype("Number", []),
     Datatype("Real", [Ref(["Number"], false, Some(0), false)]),
     Datatype("Integer", [Ref(["Real"], false, Some(1), false)]),
     Datatype("Boolean", []),
     Datatype("String", []),
     Datatype("U", [Ref(["Real"], false, Some(1), false)])]
  }

  lemma WithUserTypeShape()
    ensures Standard(WithUserType(), Library(0, 1, 2, 3, 4))
    ensures Supertypes(WithUserType(), 5) == [1]
  {
    var m := WithUserType();
    assert Bound(m[0].specializes) == [] && Bound(m[3].specializes) == [] && Bound(m[4].specializes) == [];
    assert m[1].specializes[1..] == [] && Bound(m[1].specializes) == [0] + Bound([]);
    assert m[2].specializes[1..] == [] && Bound(m[2].specializes) == [1] + Bound([]);
    assert m[5].specializes[1..] == [] && Bound(m[5].specializes) == [1] + Bound([]);
  }

  lemma WithUserTypeBreaks()
    ensures var m, lib := WithUserType(), Library(0, 1, 2, 3, 4); Standard(m, lib) && NarrowingBreaks(m, lib, 5)
  {
    hide NarrowingBreaks, WithUserType, Standard;
    WithUserTypeShape();
    NarrowingNeedsBuiltinTypes(WithUserType(), Library(0, 1, 2, 3, 4), 5);
  }
}
