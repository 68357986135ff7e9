/** What a run without errors leaves behind: every reference is bound or excused. */
module Settlement {
  import opened Basics
  import opened Elements
  import opened Lookup
  import opened Naming
  import opened Resolver
  import opened Runs
  import opened Handling

  // ---- names mean the same while the imports of their scopes do ---------------------------------

  lemma {:induction false} SearchImportsStable(a: Model, b: Model, imports: seq<Id>, name: string)
    requires Extends(a, b) && forall w | w in imports :: Get(b, w) == Get(a, w)
    ensures SearchImports(b, imports, name) == SearchImports(a, imports, name)
  {
    hide Extends;
    if imports != [] {
      var t := TargetOf(Get(a, imports[0]));
      if t.Some? {
        ExtendsShape(a, b, t.value);
        FirstNamedStable(a, b, Get(a, t.value).members, name);
      }
      SearchImportsStable(a, b, imports[1..], name);
    }
  }

  lemma {:induction false} HeadStable(a: Model, b: Model, scopes: seq<Scope>, name: string)
    requires Extends(a, b) && SameImports(a, b, scopes)
    ensures LookupChain(b, scopes, name) == LookupChain(a, scopes, name)
    ensures SearchWildcards(b, scopes, name) == SearchWildcards(a, scopes, name)
    ensures AnyUnresolved(b, scopes) == AnyUnresolved(a, scopes)
  {
    hide Extends, FirstNamed, SearchImports;
    if scopes != [] {
      FirstNamedStable(a, b, scopes[0].symbols, name);
      SearchImportsStable(a, b, scopes[0].wildcards, name);
      assert SameImports(a, b, scopes[1..]) by {
        forall k, w | 0 <= k < |scopes[1..]| && w in scopes[1..][k].wildcards ensures Get(b, w) == Get(a, w) {
          assert scopes[k + 1] == scopes[1..][k];
        }
      }
      HeadStable(a, b, scopes[1..], name);
      UnresolvedSplit(a, scopes);
      UnresolvedSplit(b, scopes);
    }
  }

  lemma UnresolvedSplit(m: Model, scopes: seq<Scope>)
    requires scopes != []
    ensures AnyUnresolved(m, scopes) <==>
      (exists i | i in scopes[0].wildcards :: Get(m, i).target != [] && TargetOf(Get(m, i)).None?)
      || AnyUnresolved(m, scopes[1..])
  {
    forall k | 0 < k < |scopes| ensures scopes[k] == scopes[1..][k - 1] {
    }
  }

  // ---- settled references ------------------------------------------------------------------------

  /** `r0` became `r`: it is bound, or it is excused; and a name of one segment that the
      run bound stands for what its scopes declare or import, unless that is an alias. */
  predicate Settled(m: Model, scopes: seq<Scope>, r0: Ref, r: Ref) {
    r.parts != [] ==>
      && (r.target.None? ==> Excused(m, scopes, r.parts))
      && (r0.target.None? && r.target.Some? && |r.parts| == 1 ==>
            var h := Head(m, scopes, r.parts[0]);
            h.Some? && (Get(m, h.value).kind != Alias ==> r.target == h))
  }

  lemma SettledStable(a: Model, b: Model, scopes: seq<Scope>, r0: Ref, r: Ref)
    requires Settled(a, scopes, r0, r) && Extends(a, b) && SameImports(a, b, scopes)
    ensures Settled(b, scopes, r0, r)
  {
    hide Extends, LookupChain, SearchWildcards, AnyUnresolved, SameImports;
    if r.parts != [] {
      HeadStable(a, b, scopes, r.parts[0]);
      var h := Head(a, scopes, r.parts[0]);
      if h.Some? { ExtendsShape(a, b, h.value); }
    }
  }

  /** What one call of the name resolution does to a reference that is not bound yet. */
  lemma SettledByResolve(m: Model, scopes: seq<Scope>, r: Ref)
    ensures r.parts == [] || r.target.Some? ==> Settled(m, scopes, r, r)
    ensures r.parts != [] && r.target.None? && Resolve(m, scopes, r).Tolerated? ==> Settled(m, scopes, r, r)
    ensures r.parts != [] && r.target.None? && Resolve(m, scopes, r).Found? ==>
      var o := Resolve(m, scopes, r);
      Settled(m, scopes, r, r.(target := Some(o.id), parity := o.parity))
  {
    hide Head;
  }

  lemma StepSettles(p: Progress, s: Slot, scopes: seq<Scope>)
    requires IsSlot(p.model, s) && Stepped(p, s, scopes, true).errors == p.errors
    ensures var q := Stepped(p, s, scopes, true);
      IsSlot(q.model, s) && Settled(p.model, scopes, RefAt(p.model, s), RefAt(q.model, s))
  {
    hide Resolve, Settled;
    var r := RefAt(p.model, s);
    SettledByResolve(p.model, scopes, r);
    StepBinds(p, s, scopes, true);
  }

  /** What a step makes of its reference. */
  lemma StepBinds(p: Progress, s: Slot, scopes: seq<Scope>, report: bool)
    requires IsSlot(p.model, s)
    ensures var q, r := Stepped(p, s, scopes, report), RefAt(p.model, s);
      && IsSlot(q.model, s)
      && RefAt(q.model, s) ==
        if r.parts == [] || r.target.Some? then r
        else match Resolve(p.model, scopes, r)
          case Found(id, parity) => r.(target := Some(id), parity := parity)
          case _ => r
  {
    hide Resolve;
  }

  lemma HandledIsSettled(p: Progress, q: Progress, s: Slot, scopes: seq<Scope>)
    requires Handled(p, q, s, scopes, true) && q.errors == p.errors && IsSlot(p.model, s)
    ensures IsSlot(q.model, s) && Settled(q.model, scopes, RefAt(p.model, s), RefAt(q.model, s))
  {
    hide Stepped, Extends, SameImports, Settled;
    var t :| HandledAt(p, q, s, scopes, true, t);
    var u := Stepped(t, s, scopes, true);
    StepFollows(t, s, scopes, true);
    StepSettles(t, s, scopes);
    ExtendsTrans(t.model, u.model, q.model);
    SettledStable(t.model, q.model, scopes, RefAt(t.model, s), RefAt(u.model, s));
  }

  /** A walk that counts no error settles every reference of the subtree that it hands over. */
  lemma WalkSettles(p: Progress, extent: Id -> Id, n: Id, scopes: seq<Scope>, s: Slot, sc: seq<Scope>)
    requires Tree(p.model, extent) && Apart(p.model, extent, scopes, n) && Hands(p.model, n, scopes, s, sc, true)
    requires Walked(p, n, scopes).errors == p.errors
    ensures var q := Walked(p, n, scopes).model;
      IsSlot(p.model, s) && IsSlot(q, s) && Settled(q, sc, RefAt(p.model, s), RefAt(q, s))
  {
    hide Tree, Walked, Handled, Settled, Apart, Hands;
    HandsRange(p.model, extent, n, scopes, s, sc, true);
    WalkHandles(p, extent, n, scopes, s, sc, true);
    HandledIsSettled(p, Walked(p, n, scopes), s, sc);
  }

  // ---- whole programs --------------------------------------------------------------------------------

  /** The scope of the root: the library and the members of the program. */
  function RootScopes(m: Model, program: Id, library: Id): seq<Scope> {
    [Inner(m, [library], Get(m, program).members)]
  }

  function RootDeclared(m: Model, program: Id, library: Id): Progress {
    Declared(Progress(m, 0), [library], Get(m, program).members, [], true)
  }

  /** A run of the resolver is a walk of the program once its names are declared; a tree meets
      what the run demands. */
  lemma ProgramIsWalk(m: Model, extent: Id -> Id, program: Id, library: Id)
    requires Tree(m, extent) && Get(m, program).kind == Program
    ensures Contained(m)
    ensures var p := RootDeclared(m, program, library);
      && Follows(Progress(m, 0), p) && Tree(p.model, extent)
      && ProgramWalked(m, program, library) == Walked(p, program, RootScopes(m, program, library))
      && Apart(p.model, extent, RootScopes(m, program, library), program)
      && forall id: Id | !(id in Get(m, program).members && Get(m, id).kind == Import) :: Get(p.model, id) == Get(m, id)
  {
    hide Tree, Contained, Declared, MembersWalked, Follows, ScopeWalked, RolesStepped, Inner, EarlyRoles;
    var members, scopes := Get(m, program).members, RootScopes(m, program, library);
    TreeIsContained(m, extent);
    var p := RootDeclared(m, program, library);
    DeclaredFollows(Progress(m, 0), [library], members, [], true);
    DeclaredFrame(Progress(m, 0), [library], members, [], true);
    TreeKept(Progress(m, 0), p, extent);
    SameShape(Progress(m, 0), p, program);
    forall k, w | 0 <= k < |scopes| && w in scopes[k].wildcards
      ensures Get(p.model, w).kind == Import && w in members
    {
      RootImports(m, library, members, w);
      SameShape(Progress(m, 0), p, w);
    }
  }

  lemma RootImports(m: Model, library: Id, members: seq<Id>, w: Id)
    requires w in Inner(m, [library], members).wildcards
    ensures w in members && Get(m, w).kind == Import
  {
    WildcardsAreImports(m, members, w);
  }

  /** After a run without errors every reference that is handed to the name resolution is
      bound, or its head is unknown and it is a longer path or under an import that is not
      loaded. */
  lemma ProgramSettles(m: Model, extent: Id -> Id, program: Id, library: Id, s: Slot, sc: seq<Scope>)
    requires Tree(m, extent) && Get(m, program).kind == Program
    requires Hands(m, program, RootScopes(m, program, library), s, sc, true)
    requires ProgramWalked(m, program, library).errors == 0
    ensures var q := ProgramWalked(m, program, library).model;
      IsSlot(m, s) && IsSlot(q, s) && Settled(q, sc, RefAt(m, s), RefAt(q, s))
  {
    hide Tree, Walked, Handled, Settled, Apart, Hands, Follows, RootScopes, RootDeclared, ProgramWalked;
    var p, scopes := RootDeclared(m, program, library), RootScopes(m, program, library);
    ProgramIsWalk(m, extent, program, library);
    HandsKept(Progress(m, 0), p, program, scopes, s, sc, true);
    HandsRange(m, extent, program, scopes, s, sc, true);
    NoErrorsYet(p, program, scopes);
    WalkSettles(p, extent, program, scopes, s, sc);
    HandsNoImport(m, program, scopes, s, sc);
    SameSlot(Progress(m, 0), p, s);
    SameElementKeeps(m, p.model, s);
  }

  lemma NoErrorsYet(p: Progress, n: Id, scopes: seq<Scope>)
    requires Walked(p, n, scopes).errors == 0
    ensures p.errors == 0
  {
    hide Walked;
    WalkFollows(p, n, scopes);
  }

  /** No reported reference belongs to an import. */
  lemma {:induction false} HandsNoImport(m: Model, n: Id, scopes: seq<Scope>, s: Slot, sc: seq<Scope>)
    requires Hands(m, n, scopes, s, sc, true)
    ensures Get(m, s.element).kind != Import
    decreases if n < |m| then |m| - n else 0
  {
    hide Inner;
    if !HandsOwn(m, n, scopes, s, sc) {
      var x :| x in Get(m, n).members && n < x < |m| && Hands(m, x, InnerScopes(m, n, scopes), s, sc, true);
      HandsNoImport(m, x, InnerScopes(m, n, scopes), s, sc);
    }
  }
}
