/** Erasing and narrowing the types that declarations name, as seen by the type checker. */
module Declarations {
  import opened Tokens
  import opened Basics
  import opened Elements
  import opened Syntax
  import opened Walks
  import opened Subtyping
  import opened Typing
  import opened Narrowing

  /** `m'` is `m` with other type references. */
  predicate Retyped(m': Model, m: Model) {
    |m'| == |m| && forall i | 0 <= i < |m| :: m'[i] == m[i].(types := m'[i].types)
  }

  lemma RetypedGet(m': Model, m: Model, id: Id)
    requires Retyped(m', m)
    ensures Get(m', id) == Get(m, id).(types := Get(m', id).types)
    ensures Supertypes(m', id) == Supertypes(m, id)
  {
  }

  // ---- the subtype order does not depend on them -------------------------------------------

  lemma {:induction false} RetypedReaches(m': Model, m: Model, a: Id, b: Id, n: nat)
    requires Retyped(m', m) && ReachesWithin(SuperLinks(m), a, b, n)
    ensures ReachesWithin(SuperLinks(m'), a, b, n)
    decreases n
  {
    hide ReachesWithin, Retyped;
    if a == b {
      ReachSelf(SuperLinks(m'), a, n);
    } else {
      var c := ReachStep(SuperLinks(m), a, b, n);
      RetypedGet(m', m, a);
      RetypedReaches(m', m, c, b, n - 1);
      StepThenReach(SuperLinks(m'), a, c, b, n - 1);
    }
  }

  ghost predicate SameOrder(m': Model, m: Model) {
    forall a, b :: Specializes(m', a, b) <==> Specializes(m, a, b)
  }

  lemma RetypedOrder(m': Model, m: Model)
    requires Retyped(m', m)
    ensures SameOrder(m', m)
  {
    hide ReachesWithin;
    forall a, b | Specializes(m, a, b) ensures Specializes(m', a, b) { RetypedReaches(m', m, a, b, MAX_DEPTH); }
    forall a, b | Specializes(m', a, b) ensures Specializes(m, a, b) {
      assert Retyped(m, m');
      RetypedReaches(m, m', a, b, MAX_DEPTH);
    }
  }

  lemma RetypedTests(m': Model, m: Model, t: Option<Id>, u: Option<Id>)
    requires SameOrder(m', m)
    ensures u.Some? ==> (Fits(m', t, u.value) <==> Fits(m, t, u.value))
    ensures Comparable(m', t, u) <==> Comparable(m, t, u)
    ensures JoinNumeric(m', t, u) == JoinNumeric(m, t, u)
  {
    hide Specializes;
  }

  lemma RetypedBinary(m': Model, m: Model, lib: Library, op: Kind, l: Option<Id>, r: Option<Id>)
    requires SameOrder(m', m)
    ensures BinaryRule(m', lib, op, l, r) == BinaryRule(m, lib, op, l, r)
  {
    hide SameOrder, Fits, Comparable, JoinNumeric;
    RetypedTests(m', m, l, r);
    RetypedTests(m', m, l, Some(lib.number));
    RetypedTests(m', m, r, Some(lib.number));
    RetypedTests(m', m, l, Some(lib.boolean));
    RetypedTests(m', m, r, Some(lib.boolean));
  }

  lemma {:induction false} RetypedTyping(m': Model, m: Model, lib: Library, env: Env, e: Expr)
    requires SameOrder(m', m)
    ensures TypeOf(m', lib, env, e) == TypeOf(m, lib, env, e)
  {
    hide SameOrder, BinaryRule, Fits;
    match e
    case Binary(op, l, r) =>
      RetypedTyping(m', m, lib, env, l);
      RetypedTyping(m', m, lib, env, r);
      RetypedBinary(m', m, lib, op, TypeOf(m, lib, env, l).type_, TypeOf(m, lib, env, r).type_);
    case Unary(op, x) =>
      RetypedTyping(m', m, lib, env, x);
      RetypedTests(m', m, TypeOf(m, lib, env, x).type_, Some(lib.number));
      RetypedTests(m', m, TypeOf(m, lib, env, x).type_, Some(lib.boolean));
    case _ =>
  }

  /** So the rules read the same in both models; only the types of names differ. */
  lemma RetypedRules(m': Model, m: Model, lib: Library, env: Env)
    requires Retyped(m', m)
    ensures forall e :: TypeOf(m', lib, env, e) == TypeOf(m, lib, env, e)
    ensures forall a: Feature, insideEnum :: FeatureErrors(m', lib, env, a, insideEnum) == FeatureErrors(m, lib, env, a, insideEnum)
    ensures forall body :: BodyErrors(m', lib, env, body) == BodyErrors(m, lib, env, body)
  {
    hide TypeOf, Specializes, Retyped, Fits;
    RetypedOrder(m', m);
    forall t ensures Fits(m', t, lib.boolean) == Fits(m, t, lib.boolean) { RetypedTests(m', m, t, Some(lib.boolean)); }
    forall e ensures TypeOf(m', lib, env, e) == TypeOf(m, lib, env, e) { RetypedTyping(m', m, lib, env, e); }
    forall id: Id ensures Get(m', id).kind == Get(m, id).kind && Get(m', id).defKind == Get(m, id).defKind {
      RetypedGet(m', m, id);
    }
  }

  // ---- erasing -----------------------------------------------------------------------------

  /** `m'` is `m` with some declared types taken away, and `bound'` binds some names less. */
  ghost predicate ErasesDeclarations(m': Model, bound': Binding, m: Model, bound: Binding) {
    && Retyped(m', m)
    && (forall id: Id :: DeclaredType(m', id) in {DeclaredType(m, id), None})
    && (forall parts :: bound'(parts) in {bound(parts), None})
  }

  lemma ErasedEnv(m': Model, bound': Binding, m: Model, bound: Binding)
    requires ErasesDeclarations(m', bound', m, bound)
    ensures Erases(TypesOf(m', bound'), TypesOf(m, bound))
  {
    hide DeclaredType, Retyped;
  }

  /** The gradual guarantee for declarations: taking away declared types makes no attribute and
      no constraint of the program wrong. */
  lemma ErasureKeepsDeclarations(m': Model, bound': Binding, m: Model, bound: Binding, lib: Library)
    requires ErasesDeclarations(m', bound', m, bound)
    ensures forall id: Id, a: Feature, insideEnum | a.declared == DeclaredType(m, id)
      && FeatureErrors(m, lib, TypesOf(m, bound), a, insideEnum) == 0 ::
      FeatureErrors(m', lib, TypesOf(m', bound'), a.(declared := DeclaredType(m', id)), insideEnum) == 0
    ensures forall body | BodyErrors(m, lib, TypesOf(m, bound), body) == 0 ::
      BodyErrors(m', lib, TypesOf(m', bound'), body) == 0
  {
    hide Retyped, DeclaredType, FeatureErrors, BodyErrors, Erases, TypesOf;
    var env, env' := TypesOf(m, bound), TypesOf(m', bound');
    ErasedEnv(m', bound', m, bound);
    RetypedRules(m', m, lib, env');
    forall id: Id, a: Feature, insideEnum | a.declared == DeclaredType(m, id) && FeatureErrors(m, lib, env, a, insideEnum) == 0
      ensures FeatureErrors(m', lib, env', a.(declared := DeclaredType(m', id)), insideEnum) == 0
    {
      ErasureKeepsFeature(m, lib, env, env', a, DeclaredType(m', id), insideEnum);
    }
    forall body | BodyErrors(m, lib, env, body) == 0 ensures BodyErrors(m', lib, env', body) == 0 {
      ErasureKeepsBody(m, lib, env, env', body);
    }
  }

  // ---- narrowing ---------------------------------------------------------------------------

  /** `m'` is `m` with some declared types replaced by subtypes, all of them in `T`. */
  ghost predicate NarrowsDeclarations(T: iset<Id>, m': Model, m: Model) {
    && Retyped(m', m)
    && forall id: Id :: Among(T, DeclaredType(m, id)) && Among(T, DeclaredType(m', id))
                        && AtMost(m, DeclaredType(m', id), DeclaredType(m, id))
  }

  lemma NarrowedEnv(T: iset<Id>, m': Model, m: Model, bound: Binding)
    requires NarrowsDeclarations(T, m', m)
    ensures EnvAmong(T, TypesOf(m, bound)) && Narrows(m, T, TypesOf(m', bound), TypesOf(m, bound))
  {
    hide DeclaredType, Specializes, Retyped;
  }

  /** Narrowing declarations within a transitive and coherent set of types makes no constraint
      wrong, and no attribute that keeps its own type. */
  lemma NarrowingKeepsDeclarations(T: iset<Id>, m': Model, m: Model, bound: Binding, lib: Library)
    requires NarrowsDeclarations(T, m', m) && HasLibrary(lib, T) && TransitiveOn(m, T) && Coherent(m, T)
    ensures forall a: Feature, insideEnum | FeatureErrors(m, lib, TypesOf(m, bound), a, insideEnum) == 0 ::
      FeatureErrors(m', lib, TypesOf(m', bound), a, insideEnum) == 0
    ensures forall body | BodyErrors(m, lib, TypesOf(m, bound), body) == 0 ::
      BodyErrors(m', lib, TypesOf(m', bound), body) == 0
  {
    hide Retyped, DeclaredType, FeatureErrors, BodyErrors, EnvAmong, Narrows, TypesOf, HasLibrary, TransitiveOn, Coherent;
    var env, env' := TypesOf(m, bound), TypesOf(m', bound);
    NarrowedEnv(T, m', m, bound);
    RetypedRules(m', m, lib, env');
    forall a: Feature, insideEnum | FeatureErrors(m, lib, env, a, insideEnum) == 0
      ensures FeatureErrors(m', lib, env', a, insideEnum) == 0
    {
      NarrowingKeepsFeature(m, lib, T, env, env', a, insideEnum);
    }
    forall body | BodyErrors(m, lib, env, body) == 0 ensures BodyErrors(m', lib, env', body) == 0 {
      NarrowingKeepsBody(m, lib, T, env, env', body);
    }
  }
}
