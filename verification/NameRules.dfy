/** What one name is bound to, in terms of the elements and their references alone. */
module NameRules {
  import opened Basics
  import opened Elements
  import opened Lookup
  import opened Inheritance
  import opened Naming
  import opened Resolver

  // ---- scopes -------------------------------------------------------------------------------------------

  /** `x` is the first of `ids` that is named `name` and is no import. */
  predicate Declares(m: Model, ids: seq<Id>, name: string, x: Id) {
    name != "" && exists i | 0 <= i < |ids| :: DeclaresAt(m, ids, i, name) && ids[i] == x
  }

  predicate Named(m: Model, x: Id, name: string) { Get(m, x).kind != Import && Get(m, x).name == name }

  predicate DeclaresAt(m: Model, ids: seq<Id>, i: nat, name: string)
    requires i < |ids|
  {
    Named(m, ids[i], name) && forall j | 0 <= j < i :: !Named(m, ids[j], name)
  }

  lemma FirstNamedAppends(m: Model, ids: seq<Id>, x: Id, name: string)
    ensures FirstNamed(m, ids + [x], name) ==
      if FirstNamed(m, ids, name).Some? then FirstNamed(m, ids, name)
      else if name != "" && Get(m, x).name == name then Some(x) else None
  {
    if ids == [] {
      assert [] + [x] == [x] && [x][1..] == [];
    } else {
      assert (ids + [x])[1..] == ids[1..] + [x];
      FirstNamedAppends(m, ids[1..], x, name);
    }
  }

  lemma DeclaresAppends(m: Model, ids: seq<Id>, x: Id, name: string, y: Id)
    ensures Declares(m, ids + [x], name, y) <==>
      Declares(m, ids, name, y) || (name != "" && y == x && Named(m, x, name) && forall z | z in ids :: !Named(m, z, name))
  {
    hide Named;
    var all := ids + [x];
    assert forall i | 0 <= i < |ids| :: all[i] == ids[i];
    if i :| 0 <= i < |ids| && DeclaresAt(m, ids, i, name) && ids[i] == y && name != "" { assert DeclaresAt(m, all, i, name); }
    if i :| 0 <= i < |all| && DeclaresAt(m, all, i, name) && all[i] == y && name != "" {
      if i < |ids| { assert DeclaresAt(m, ids, i, name); } else {
        forall z | z in ids ensures !Named(m, z, name) { var j :| 0 <= j < |ids| && ids[j] == z; assert all[j] == z; }
      }
    }
    if name != "" && y == x && Named(m, x, name) && forall z | z in ids :: !Named(m, z, name) {
      assert DeclaresAt(m, all, |ids|, name);
    }
  }

  /** Something is declared unless nothing is named so. */
  lemma {:induction false} DeclaresSomething(m: Model, ids: seq<Id>, name: string)
    ensures (exists x :: Declares(m, ids, name, x)) <==> name != "" && exists z | z in ids :: Named(m, z, name)
    decreases |ids|
  {
    hide Named, Declares;
    if ids == [] {
      NothingDeclared(m, name);
    } else {
      var front, last := ids[..|ids| - 1], ids[|ids| - 1];
      assert ids == front + [last];
      DeclaresSomething(m, front, name);
      if x :| Declares(m, ids, name, x) { DeclaresAppends(m, front, last, name, x); }
      if x :| Declares(m, front, name, x) { DeclaresAppends(m, front, last, name, x); }
      DeclaresAppends(m, front, last, name, last);
    }
  }

  lemma NothingDeclared(m: Model, name: string)
    ensures forall x: Id :: !Declares(m, [], name, x)
  {
  }

  /** The symbols of a scope: a name stands for its first declaration among what is there already and
      the members. */
  lemma {:induction false} SymbolRule(m: Model, start: seq<Id>, members: seq<Id>, name: string, x: Id)
    requires forall y | y in start :: Get(m, y).kind != Import
    ensures FirstNamed(m, Symbols(m, start, members), name) == Some(x) <==> Declares(m, start + members, name, x)
    decreases |members|
  {
    hide Declares, FirstNamed;
    if members == [] {
      assert start + members == start;
      StartRule(m, start, name, x);
    } else {
      var front, last := members[..|members| - 1], members[|members| - 1];
      assert start + members == (start + front) + [last];
      var before := Symbols(m, start, front);
      SymbolRule(m, start, front, name, x);
      DeclaresAppends(m, start + front, last, name, x);
      FirstNamedAppends(m, before, last, name);
      DeclaresSomething(m, start + front, name);
      if FirstNamed(m, before, name).Some? { SymbolRule(m, start, front, name, FirstNamed(m, before, name).value); }
      if y :| Declares(m, start + front, name, y) { SymbolRule(m, start, front, name, y); }
    }
  }

  lemma {:induction false} StartRule(m: Model, ids: seq<Id>, name: string, x: Id)
    requires forall y | y in ids :: Get(m, y).kind != Import
    ensures FirstNamed(m, ids, name) == Some(x) <==> Declares(m, ids, name, x)
  {
    FirstIs(m, ids, name, x);
    forall i | 0 <= i < |ids| ensures IsFirstNamed(m, ids, i, name) <==> DeclaresAt(m, ids, i, name) {
    }
  }

  /** The imports of a scope: the wildcard imports among the members. */
  lemma {:induction false} WildcardRule(m: Model, members: seq<Id>, w: Id)
    ensures w in Wildcards(m, members) <==> w in members && Get(m, w).kind == Import && Get(m, w).wildcard
    decreases |members|
  {
    if members != [] { WildcardRule(m, members[..|members| - 1], w); }
  }

  // ---- the head of a path -----------------------------------------------------------------------------------

  /** Of the scopes that declare the name the innermost one, number `k`, declares it as `x`. */
  predicate FoundInScope(m: Model, sc: seq<Scope>, k: nat, name: string, x: Id)
    requires k < |sc|
  {
    FirstNamed(m, sc[k].symbols, name) == Some(x) && forall j | 0 <= j < k :: FirstNamed(m, sc[j].symbols, name).None?
  }

  predicate InScope(m: Model, sc: seq<Scope>, name: string, x: Id) {
    exists k | 0 <= k < |sc| :: FoundInScope(m, sc, k, name, x)
  }

  lemma {:induction false} ChainRule(m: Model, sc: seq<Scope>, name: string, x: Id)
    ensures LookupChain(m, sc, name) == Some(x) <==> InScope(m, sc, name, x)
  {
    hide FirstNamed;
    if sc != [] {
      var outer := sc[1..];
      ChainRule(m, outer, name, x);
      if k :| 0 <= k < |outer| && FoundInScope(m, outer, k, name, x) {
        if FirstNamed(m, sc[0].symbols, name).None? {
          assert forall j | 0 < j < k + 1 :: sc[j] == outer[j - 1];
          assert FoundInScope(m, sc, k + 1, name, x);
        }
      }
      if k :| 0 <= k < |sc| && FoundInScope(m, sc, k, name, x) {
        if k > 0 {
          assert forall j | 0 <= j < k - 1 :: outer[j] == sc[j + 1];
          assert FoundInScope(m, outer, k - 1, name, x);
        }
      }
      if FirstNamed(m, sc[0].symbols, name) == Some(x) { assert FoundInScope(m, sc, 0, name, x); }
    }
  }

  /** The import `w` is bound to a package in which `x` is the first of that name. */
  predicate Exposes(m: Model, w: Id, name: string, x: Id) {
    && Get(m, w).target != [] && Get(m, w).target[0].target.Some?
    && var p := Get(m, w).target[0].target.value;
    && Get(m, p).kind == Package && name != ""
    && exists i | 0 <= i < |Get(m, p).members| :: IsFirstNamed(m, Get(m, p).members, i, name) && Get(m, p).members[i] == x
  }

  function Exposed(m: Model, w: Id, name: string): Option<Id> {
    var p := ImportedPackage(m, w);
    if p.Some? then FirstNamed(m, Get(m, p.value).members, name) else None
  }

  lemma ExposedIs(m: Model, w: Id, name: string, x: Id)
    ensures Exposed(m, w, name) == Some(x) <==> Exposes(m, w, name, x)
  {
    hide FirstNamed, IsFirstNamed;
    var p := ImportedPackage(m, w);
    if p.Some? { FirstIs(m, Get(m, p.value).members, name, x); }
  }

  /** The first of the imports that exposes the name exposes `x`. */
  ghost predicate ImportedFrom(m: Model, imports: seq<Id>, name: string, x: Id) {
    exists i | 0 <= i < |imports| :: ImportedAt(m, imports, i, name, x)
  }

  ghost predicate ImportedAt(m: Model, imports: seq<Id>, i: nat, name: string, x: Id)
    requires i < |imports|
  {
    Exposes(m, imports[i], name, x) && forall j, y: Id | 0 <= j < i :: !Exposes(m, imports[j], name, y)
  }

  lemma {:induction false} ImportRule(m: Model, imports: seq<Id>, name: string, x: Id)
    ensures SearchImports(m, imports, name) == Some(x) <==> ImportedFrom(m, imports, name, x)
  {
    hide Exposes, FirstNamed, ImportedPackage;
    if imports != [] {
      var rest := imports[1..];
      ImportRule(m, rest, name, x);
      forall y: Id ensures Exposed(m, imports[0], name) == Some(y) <==> Exposes(m, imports[0], name, y) {
        ExposedIs(m, imports[0], name, y);
      }
      if i :| 0 <= i < |rest| && ImportedAt(m, rest, i, name, x) {
        if Exposed(m, imports[0], name).None? {
          assert forall j | 0 < j < i + 1 :: imports[j] == rest[j - 1];
          assert ImportedAt(m, imports, i + 1, name, x);
        }
      }
      if i :| 0 <= i < |imports| && ImportedAt(m, imports, i, name, x) {
        if i > 0 {
          assert forall j | 0 <= j < i - 1 :: rest[j] == imports[j + 1];
          assert ImportedAt(m, rest, i - 1, name, x);
        }
      }
      if Exposes(m, imports[0], name, x) { assert ImportedAt(m, imports, 0, name, x); }
    }
  }

  /** The innermost scope with an import that exposes the name exposes `x` first. */
  ghost predicate Imports(m: Model, sc: seq<Scope>, name: string, x: Id) {
    exists k | 0 <= k < |sc| :: ImportsAt(m, sc, k, name, x)
  }

  ghost predicate ImportsAt(m: Model, sc: seq<Scope>, k: nat, name: string, x: Id)
    requires k < |sc|
  {
    ImportedFrom(m, sc[k].wildcards, name, x) && forall j, y: Id | 0 <= j < k :: !ImportedFrom(m, sc[j].wildcards, name, y)
  }

  lemma {:induction false} ImportChainRule(m: Model, sc: seq<Scope>, name: string, x: Id)
    ensures SearchWildcards(m, sc, name) == Some(x) <==> Imports(m, sc, name, x)
  {
    hide SearchImports, ImportedFrom;
    if sc != [] {
      var outer := sc[1..];
      ImportChainRule(m, outer, name, x);
      forall y: Id ensures SearchImports(m, sc[0].wildcards, name) == Some(y) <==> ImportedFrom(m, sc[0].wildcards, name, y) {
        ImportRule(m, sc[0].wildcards, name, y);
      }
      if k :| 0 <= k < |outer| && ImportsAt(m, outer, k, name, x) {
        if SearchImports(m, sc[0].wildcards, name).None? {
          assert forall j | 0 < j < k + 1 :: sc[j] == outer[j - 1];
          assert ImportsAt(m, sc, k + 1, name, x);
        }
      }
      if k :| 0 <= k < |sc| && ImportsAt(m, sc, k, name, x) {
        if k > 0 {
          assert forall j | 0 <= j < k - 1 :: outer[j] == sc[j + 1];
          assert ImportsAt(m, outer, k - 1, name, x);
        }
      }
      if ImportedFrom(m, sc[0].wildcards, name, x) { assert ImportsAt(m, sc, 0, name, x); }
    }
  }

  /** The head of a path: a declaration in scope, or, where there is none, something imported. */
  ghost predicate HeadIs(m: Model, sc: seq<Scope>, name: string, x: Id) {
    InScope(m, sc, name, x) || ((forall y: Id :: !InScope(m, sc, name, y)) && Imports(m, sc, name, x))
  }

  lemma HeadRule(m: Model, sc: seq<Scope>, name: string, x: Id)
    ensures Head(m, sc, name) == Some(x) <==> HeadIs(m, sc, name, x)
  {
    hide LookupChain, SearchWildcards, InScope, Imports;
    forall y: Id ensures LookupChain(m, sc, name) == Some(y) <==> InScope(m, sc, name, y) {
      ChainRule(m, sc, name, y);
    }
    ImportChainRule(m, sc, name, x);
  }

  // ---- the rest of a path ------------------------------------------------------------------------------------

  /** Every element of `t` is the member of the one before it that the next segment names. */
  predicate IsTrail(m: Model, t: seq<Id>, h: Id, segs: seq<string>) {
    && |t| == |segs| + 1 && t[0] == h
    && forall k | 0 <= k < |segs| :: Member(m, t[k], segs[k]) == Some(t[k + 1])
  }

  /** A feature whose first type is conjugated. */
  predicate IsConjugated(m: Model, id: Id) {
    var e := Get(m, id);
    e.kind in {Usage, Attribute} && e.types != [] && e.types[0].conjugated
  }

  /** An odd number of `ids` is conjugated. */
  predicate OddlyConjugated(m: Model, ids: seq<Id>) {
    ids != [] && IsConjugated(m, ids[0]) != OddlyConjugated(m, ids[1..])
  }

  lemma {:induction false} FollowRule(m: Model, h: Id, parity: bool, segs: seq<string>, t: seq<Id>)
    requires IsTrail(m, t, h, segs)
    ensures Follow(m, h, parity, segs) == At(t[|segs|], parity != OddlyConjugated(m, t[..|segs|]))
    decreases |segs|
  {
    hide Member;
    if segs != [] {
      var rest := t[1..];
      forall k | 0 <= k < |segs| - 1 ensures Member(m, rest[k], segs[1..][k]) == Some(rest[k + 1]) {
        assert rest[k] == t[k + 1] && rest[k + 1] == t[k + 2] && segs[1..][k] == segs[k + 1];
      }
      assert Member(m, t[0], segs[0]) == Some(t[1]);
      FollowRule(m, t[1], parity != ConjugatedType(m, h), segs[1..], rest);
      assert t[..|segs|][1..] == rest[..|segs| - 1];
    } else {
      assert t[..0] == [];
    }
  }

  lemma {:induction false} TrailExists(m: Model, h: Id, parity: bool, segs: seq<string>) returns (t: seq<Id>)
    requires Follow(m, h, parity, segs).At?
    ensures IsTrail(m, t, h, segs)
    decreases |segs|
  {
    hide Member;
    if segs == [] {
      t := [h];
    } else {
      var next := Member(m, h, segs[0]).value;
      var rest := TrailExists(m, next, parity != ConjugatedType(m, h), segs[1..]);
      t := [h] + rest;
      forall k | 0 <= k < |segs| ensures Member(m, t[k], segs[k]) == Some(t[k + 1]) {
        if k > 0 { assert t[k] == rest[k - 1] && t[k + 1] == rest[k] && segs[1..][k - 1] == segs[k]; }
      }
    }
  }

  /** What a path that ends at `e` is bound to: behind an alias whatever that stands for, if anything. */
  ghost predicate EndsAs(m: Model, e: Id, x: Id) {
    StandsFor(m, e, x, 32) || (x == e && forall y: Id :: !StandsFor(m, e, y, 32))
  }

  lemma EndRule(m: Model, e: Id, x: Id)
    ensures SeeThrough(m, e) == x <==> EndsAs(m, e, x)
  {
    hide Deref, StandsFor;
    forall y: Id ensures Deref(m, e, MAX_DEPTH) == Some(y) <==> StandsFor(m, e, y, 32) {
      DerefIs(m, e, y, MAX_DEPTH);
    }
  }

  // ---- the whole path ----------------------------------------------------------------------------------------

  /** The path of `r` leads along `t` to what is bound, with that parity. */
  ghost predicate Leads(m: Model, sc: seq<Scope>, r: Ref, t: seq<Id>, x: Id, parity: bool)
    requires r.parts != []
  {
    && |t| == |r.parts| && HeadIs(m, sc, r.parts[0], t[0]) && IsTrail(m, t, t[0], r.parts[1..])
    && EndsAs(m, t[|t| - 1], x) && parity == (OddlyConjugated(m, t[..|t| - 1]) != r.conjugated)
  }

  /** A reference is bound to `x` exactly when its path leads there. */
  lemma BindingRule(m: Model, sc: seq<Scope>, r: Ref, x: Id, parity: bool)
    requires r.parts != []
    ensures Resolve(m, sc, r) == Found(x, parity) <==> exists t :: Leads(m, sc, r, t, x, parity)
  {
    hide Head, HeadIs, Follow, SeeThrough, EndsAs, IsTrail, OddlyConjugated, AnyUnresolved;
    var segs := r.parts[1..];
    forall h: Id ensures Head(m, sc, r.parts[0]) == Some(h) <==> HeadIs(m, sc, r.parts[0], h) { HeadRule(m, sc, r.parts[0], h); }
    if Resolve(m, sc, r) == Found(x, parity) {
      var h := Head(m, sc, r.parts[0]).value;
      var t := TrailExists(m, h, false, segs);
      TrailLength(m, t, h, segs);
      FollowRule(m, h, false, segs, t);
      EndRule(m, t[|segs|], x);
      assert Leads(m, sc, r, t, x, parity);
    }
    if t :| Leads(m, sc, r, t, x, parity) {
      TrailLength(m, t, t[0], segs);
      FollowRule(m, t[0], false, segs, t);
      EndRule(m, t[|segs|], x);
    }
  }

  lemma TrailLength(m: Model, t: seq<Id>, h: Id, segs: seq<string>)
    requires IsTrail(m, t, h, segs)
    ensures |t| == |segs| + 1 && t[0] == h
  {
  }

  /** A reference may stay unbound without an error: its head is unknown, and it is a longer path or under
      an import that is not bound. */
  ghost predicate MayStay(m: Model, sc: seq<Scope>, parts: seq<string>)
    requires parts != []
  {
    && (forall x: Id :: !HeadIs(m, sc, parts[0], x))
    && (|parts| > 1 || exists k | 0 <= k < |sc| :: HasUnbound(m, sc[k]))
  }

  predicate HasUnbound(m: Model, scope: Scope) {
    exists w | w in scope.wildcards :: Get(m, w).target != [] && Get(m, w).target[0].target.None?
  }

  lemma StayRule(m: Model, sc: seq<Scope>, parts: seq<string>)
    requires parts != []
    ensures Excused(m, sc, parts) <==> MayStay(m, sc, parts)
  {
    hide Head, HeadIs;
    forall h: Id ensures Head(m, sc, parts[0]) == Some(h) <==> HeadIs(m, sc, parts[0], h) { HeadRule(m, sc, parts[0], h); }
    forall k | 0 <= k < |sc|
      ensures HasUnbound(m, sc[k]) <==> exists i | i in sc[k].wildcards :: Get(m, i).target != [] && TargetOf(Get(m, i)).None?
    {
    }
  }

  /** The error of a reference: it is not bound, and must not stay so. */
  lemma UndefinedRule(m: Model, sc: seq<Scope>, r: Ref)
    requires r.parts != []
    ensures Resolve(m, sc, r).Undefined? <==>
      (forall t, x: Id, parity :: !Leads(m, sc, r, t, x, parity)) && !MayStay(m, sc, r.parts)
  {
    hide Leads, MayStay, Head, Follow, SeeThrough, AnyUnresolved;
    StayRule(m, sc, r.parts);
    if Resolve(m, sc, r).Found? {
      BindingRule(m, sc, r, Resolve(m, sc, r).id, Resolve(m, sc, r).parity);
    } else if t, x, parity :| Leads(m, sc, r, t, x, parity) {
      BindingRule(m, sc, r, x, parity);
    }
  }
}
