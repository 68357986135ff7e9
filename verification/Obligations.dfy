/** Which references a run of the resolver is answerable for, and which errors its steps count. */
module Obligations {
  import opened Basics
  import opened Elements
  import opened Lookup
  import opened Naming
  import opened NameRules
  import opened Resolver
  import opened Runs
  import opened Handling
  import opened Settlement

  // ---- the references of a program ---------------------------------------------------------------------------

  /** Which lists of an element are resolved: all that its kind has, of the redefinitions the longer paths. */
  predicate Answers(m: Model, s: Slot) {
    IsSlot(m, s) &&
    match Get(m, s.element).kind
    case Definition => s.role == SuperRefs || s.role == UsedRefs || IsLongRedefinition(m, s)
    case Usage =>
      s.role == TypeRefs || s.role == SuperRefs || s.role == EndRefs || s.role == UsedRefs || IsLongRedefinition(m, s)
    case Attribute => s.role == TypeRefs || s.role == SuperRefs || s.role == UsedRefs || IsLongRedefinition(m, s)
    case Alias => s.role == TargetRefs
    case Statement => s.role == UsedRefs
    case _ => false
  }

  predicate IsLongRedefinition(m: Model, s: Slot)
    requires IsSlot(m, s)
  {
    s.role == RedefinedRefs && |RefAt(m, s).parts| > 1
  }

  predicate IsPart(m: Model, a: Id, b: Id) {
    Get(m, a).kind in {Program, Package, Definition, Usage, Statement} && b in Get(m, a).members && a < b < |m|
  }

  /** Every element of `p` is a part of the one before it. */
  predicate IsNesting(m: Model, p: seq<Id>, n: Id, x: Id) {
    p != [] && p[0] == n && p[|p| - 1] == x && forall k | 0 <= k < |p| - 1 :: IsPart(m, p[k], p[k + 1])
  }

  /** The scopes inside the elements of `p`: packages, definitions and usages open one. */
  function ScopesAlong(m: Model, p: seq<Id>, scopes: seq<Scope>): seq<Scope> {
    if p == [] then scopes
    else ScopesAlong(m, p[1..],
      if Get(m, p[0]).kind in {Package, Definition, Usage} then [Inner(m, [], Get(m, p[0]).members)] + scopes else scopes)
  }

  /** The scopes of a reference of the last element of `p`; the body of a definition is inside its own. */
  function ScopesFor(m: Model, p: seq<Id>, role: Role, scopes: seq<Scope>): seq<Scope>
    requires p != []
  {
    if Get(m, p[|p| - 1]).kind == Definition && role == UsedRefs then ScopesAlong(m, p, scopes)
    else ScopesAlong(m, p[..|p| - 1], scopes)
  }

  /** The reference stands in an element nested in `n`, in the scopes of its place. */
  ghost predicate Stands(m: Model, n: Id, scopes: seq<Scope>, s: Slot, sc: seq<Scope>) {
    exists p :: IsNesting(m, p, n, s.element) && sc == ScopesFor(m, p, s.role, scopes)
  }

  /** The references a walk hands over are all that it is answerable for, each in the scopes of its place. */
  lemma {:induction false} HandsExactly(m: Model, n: Id, scopes: seq<Scope>, s: Slot, sc: seq<Scope>)
    ensures Hands(m, n, scopes, s, sc, true) <==> Answers(m, s) && Stands(m, n, scopes, s, sc)
    decreases if n < |m| then |m| - n else 0
  {
    hide Inner, Answers, Stands, InnerScopes, OwnScopes;
    var inner := InnerScopes(m, n, scopes);
    OwnIs(m, n, scopes, s, sc);
    StandsUnfolds(m, n, scopes, s, sc);
    forall x | x in Get(m, n).members && n < x < |m|
      ensures Hands(m, x, inner, s, sc, true) <==> Answers(m, s) && Stands(m, x, inner, s, sc)
    {
      HandsExactly(m, x, inner, s, sc);
    }
    HandsUnfolds(m, n, scopes, s, sc);
  }

  lemma HandsUnfolds(m: Model, n: Id, scopes: seq<Scope>, s: Slot, sc: seq<Scope>)
    ensures Hands(m, n, scopes, s, sc, true) <==>
      HandsOwn(m, n, scopes, s, sc) || exists x | IsPart(m, n, x) :: Hands(m, x, InnerScopes(m, n, scopes), s, sc, true)
  {
    hide Inner, HandsOwn, HandsImport, InnerScopes;
    var inner := InnerScopes(m, n, scopes);
    if Hands(m, n, scopes, s, sc, true) && !HandsOwn(m, n, scopes, s, sc) {
      var x :| x in Get(m, n).members && n < x < |m| && Hands(m, x, inner, s, sc, true);
      assert IsPart(m, n, x);
    }
    if x: Id :| IsPart(m, n, x) && Hands(m, x, inner, s, sc, true) {
      assert HasParts(Get(m, n).kind) && x in Get(m, n).members && n < x < |m|;
    }
  }

  lemma StandsUnfolds(m: Model, n: Id, scopes: seq<Scope>, s: Slot, sc: seq<Scope>)
    ensures Stands(m, n, scopes, s, sc) <==>
      || (s.element == n && sc == OwnScopes(m, n, s.role, scopes))
      || exists x | IsPart(m, n, x) :: Stands(m, x, InnerScopes(m, n, scopes), s, sc)
  {
    hide Inner, IsPart, ScopesFor, OwnScopes, InnerScopes;
    AlongOne(m, n, scopes);
    if s.element == n && sc == OwnScopes(m, n, s.role, scopes) {
      assert IsNesting(m, [n], n, s.element);
    }
    if x: Id :| IsPart(m, n, x) && Stands(m, x, InnerScopes(m, n, scopes), s, sc) {
      var p :| IsNesting(m, p, x, s.element) && sc == ScopesFor(m, p, s.role, InnerScopes(m, n, scopes));
      NestingGrows(m, n, x, p, s, scopes);
    }
    if p :| IsNesting(m, p, n, s.element) && sc == ScopesFor(m, p, s.role, scopes) {
      if |p| == 1 {
        assert p == [n];
      } else {
        NestingShrinks(m, n, p, s, scopes);
      }
    }
  }

  lemma OwnIs(m: Model, n: Id, scopes: seq<Scope>, s: Slot, sc: seq<Scope>)
    ensures HandsOwn(m, n, scopes, s, sc) <==> Answers(m, s) && s.element == n && sc == OwnScopes(m, n, s.role, scopes)
  {
    hide Inner;
  }

  lemma AlongOne(m: Model, n: Id, scopes: seq<Scope>)
    ensures ScopesAlong(m, [n], scopes) == InnerScopes(m, n, scopes) && ScopesAlong(m, [], scopes) == scopes
    ensures forall role :: ScopesFor(m, [n], role, scopes) == OwnScopes(m, n, role, scopes)
  {
    hide Inner;
    assert [n][1..] == [] && [n][..0] == [];
    assert ScopesAlong(m, [n], scopes) == ScopesAlong(m, [], InnerScopes(m, n, scopes));
  }

  lemma NestingGrows(m: Model, n: Id, x: Id, p: seq<Id>, s: Slot, scopes: seq<Scope>)
    requires IsPart(m, n, x) && IsNesting(m, p, x, s.element)
    ensures IsNesting(m, [n] + p, n, s.element)
    ensures ScopesFor(m, [n] + p, s.role, scopes) == ScopesFor(m, p, s.role, InnerScopes(m, n, scopes))
  {
    hide Inner, IsPart;
    var q := [n] + p;
    forall k | 0 <= k < |q| - 1 ensures IsPart(m, q[k], q[k + 1]) {
      if k > 0 { assert q[k] == p[k - 1] && q[k + 1] == p[k]; }
    }
    AlongMore(m, n, p, scopes);
    AlongMore(m, n, p[..|p| - 1], scopes);
    assert q[..|q| - 1] == [n] + p[..|p| - 1];
  }

  lemma AlongMore(m: Model, n: Id, p: seq<Id>, scopes: seq<Scope>)
    ensures ScopesAlong(m, [n] + p, scopes) == ScopesAlong(m, p, InnerScopes(m, n, scopes))
  {
    hide Inner;
    assert ([n] + p)[1..] == p;
  }

  lemma NestingShrinks(m: Model, n: Id, p: seq<Id>, s: Slot, scopes: seq<Scope>)
    requires IsNesting(m, p, n, s.element) && |p| > 1
    ensures IsPart(m, n, p[1]) && IsNesting(m, p[1..], p[1], s.element)
    ensures ScopesFor(m, p, s.role, scopes) == ScopesFor(m, p[1..], s.role, InnerScopes(m, n, scopes))
  {
    hide Inner, IsPart;
    var q := p[1..];
    assert IsPart(m, p[0], p[0 + 1]);
    forall k | 0 <= k < |q| - 1 ensures IsPart(m, q[k], q[k + 1]) {
      assert q[k] == p[k + 1] && q[k + 1] == p[k + 2];
    }
    AlongMore(m, n, q, scopes);
    AlongMore(m, n, q[..|q| - 1], scopes);
    assert p == [n] + q && p[..|p| - 1] == [n] + q[..|q| - 1];
  }

  // ---- names that are declared twice -----------------------------------------------------------------------------

  /** Two of `ids` that are no imports have one name. */
  predicate Repeats(m: Model, ids: seq<Id>) {
    exists i, j | 0 <= i < j < |ids| :: SameName(m, ids[i], ids[j])
  }

  predicate SameName(m: Model, x: Id, y: Id) {
    Get(m, x).kind != Import && Get(m, y).kind != Import && Get(m, x).name == Get(m, y).name != ""
  }

  lemma RepeatsAppends(m: Model, ids: seq<Id>, x: Id)
    ensures Repeats(m, ids + [x]) <==> Repeats(m, ids) || exists y | y in ids :: SameName(m, y, x)
  {
    hide SameName;
    var all := ids + [x];
    assert forall i | 0 <= i < |ids| :: all[i] == ids[i];
    if i, j :| 0 <= i < j < |all| && SameName(m, all[i], all[j]) {
      if j < |ids| { assert SameName(m, ids[i], ids[j]); } else { assert ids[i] in ids; }
    }
    if i, j :| 0 <= i < j < |ids| && SameName(m, ids[i], ids[j]) { assert SameName(m, all[i], all[j]); }
    if y :| y in ids && SameName(m, y, x) {
      var i :| 0 <= i < |ids| && ids[i] == y;
      assert SameName(m, all[i], all[|ids|]);
    }
  }

  /** A name is taken when something before it is named so. */
  lemma TakenIs(m: Model, start: seq<Id>, members: seq<Id>, x: Id)
    requires (forall y | y in start :: Get(m, y).kind != Import) && Get(m, x).kind != Import
    ensures Get(m, x).name != "" && FirstNamed(m, Symbols(m, start, members), Get(m, x).name).Some? <==>
      exists y | y in start + members :: SameName(m, y, x)
  {
    hide FirstNamed, Symbols, Declares;
    var name, all := Get(m, x).name, start + members;
    DeclaresSomething(m, all, name);
    var found := FirstNamed(m, Symbols(m, start, members), name);
    if found.Some? { SymbolRule(m, start, members, name, found.value); }
    if y: Id :| Declares(m, all, name, y) { SymbolRule(m, start, members, name, y); }
    if y :| y in all && SameName(m, y, x) { assert Named(m, y, name); }
    if z :| z in all && Named(m, z, name) && name != "" { assert SameName(m, z, x); }
  }

  /** Declaring names counts an error exactly when one is repeated. */
  lemma {:induction false} DeclaredCounts(p: Progress, start: seq<Id>, members: seq<Id>, outer: seq<Scope>, root: bool)
    requires (forall y | y in start :: Get(p.model, y).kind != Import) && |start| <= 1
    ensures Declared(p, start, members, outer, root).errors >= p.errors
    ensures Declared(p, start, members, outer, root).errors == p.errors <==> !Repeats(p.model, start + members)
    decreases |members|
  {
    hide FirstNamed, Symbols, Repeats, SameName, Stepped;
    if members == [] {
      assert start + members == start;
      ShortNeverRepeats(p.model, start);
    } else {
      var front, x := members[..|members| - 1], members[|members| - 1];
      assert start + members == (start + front) + [x];
      DeclaredCounts(p, start, front, outer, root);
      RepeatsAppends(p.model, start + front, x);
      if Get(p.model, x).kind == Import {
        var q, scope := Declared(p, start, front, outer, root), Inner(p.model, start, front);
        SilentStep(q, Slot(x, TargetRefs, 0), if root then [scope] else outer);
        ImportsNeverRepeat(p.model, x);
      } else {
        TakenIs(p.model, start, front, x);
      }
    }
  }

  lemma ShortNeverRepeats(m: Model, ids: seq<Id>)
    requires |ids| <= 1
    ensures !Repeats(m, ids)
  {
  }

  lemma ImportsNeverRepeat(m: Model, x: Id)
    requires Get(m, x).kind == Import
    ensures forall y: Id :: !SameName(m, y, x)
  {
  }

  lemma SilentStep(p: Progress, s: Slot, scopes: seq<Scope>)
    ensures Stepped(p, s, scopes, false).errors == p.errors
  {
    hide Resolve;
  }

  // ---- references that are not found -------------------------------------------------------------------------------

  /** The reference is not bound and must not stay so. */
  predicate Missing(m: Model, s: Slot, sc: seq<Scope>) {
    IsSlot(m, s) && RefAt(m, s).parts != [] && RefAt(m, s).target.None? && !Excused(m, sc, RefAt(m, s).parts)
  }

  lemma StepMisses(p: Progress, s: Slot, sc: seq<Scope>)
    requires Stepped(p, s, sc, true).errors > p.errors
    ensures Missing(Stepped(p, s, sc, true).model, s, sc)
  {
    hide Head, Follow, AnyUnresolved;
  }

  lemma StillMissing(q: Progress, r: Progress, s: Slot, sc: seq<Scope>)
    requires Missing(q.model, s, sc) && Follows(q, r) && Keeps(q.model, r.model, s) && SameImports(q.model, r.model, sc)
    ensures Missing(r.model, s, sc)
  {
    hide Extends, LookupChain, SearchWildcards, AnyUnresolved, SameImports;
    HeadStable(q.model, r.model, sc, RefAt(q.model, s).parts[0]);
  }

  lemma {:induction false} ListMisses(p: Progress, id: Id, role: Role, sc: seq<Scope>, n: nat) returns (s: Slot)
    requires NotAmong(id, sc) && ListStepped(p, id, role, sc, n).errors > p.errors
    ensures Missing(ListStepped(p, id, role, sc, n).model, s, sc)
    ensures s.element == id && s.role == role && s.index < n
    ensures role == RedefinedRefs ==> |RefAt(ListStepped(p, id, role, sc, n).model, s).parts| > 1
  {
    hide Stepped, Missing, Follows, SameImports, RefsOf, Confined, NotAmong, Keeps;
    var q, z := ListStepped(p, id, role, sc, n - 1), Slot(id, role, n - 1);
    var r := Stepped(q, z, sc, true);
    StepFollows(q, z, sc, true);
    StepFrame(q, z, sc, true);
    SparesImports(q.model, r.model, id, sc);
    if q.errors > p.errors {
      s := ListMisses(p, id, role, sc, n - 1);
      MissingSlot(q.model, s, sc);
      StillMissing(q, r, s, sc);
      SameSlot(q, r, s);
    } else {
      s := z;
      StepMisses(q, z, sc);
      MissingSlot(r.model, s, sc);
      SameSlot(q, r, s);
    }
  }

  lemma MissingSlot(m: Model, s: Slot, sc: seq<Scope>)
    requires Missing(m, s, sc)
    ensures IsSlot(m, s)
  {
  }
}
