/** When a run of the resolver succeeds, told from the program and from what the run leaves behind. */
module Success {
  import opened Basics
  import opened Elements
  import opened Naming
  import opened NameRules
  import opened Resolver
  import opened Runs
  import opened Handling
  import opened Settlement
  import opened Obligations

  // ---- from an error to its cause ----------------------------------------------------------------------------------

  lemma {:induction false} RolesMiss(p: Progress, id: Id, roles: seq<Role>, sc: seq<Scope>) returns (s: Slot)
    requires NotAmong(id, sc) && RolesStepped(p, id, roles, sc).errors > p.errors
    requires forall i, j | 0 <= i < j < |roles| :: roles[i] != roles[j]
    ensures Missing(RolesStepped(p, id, roles, sc).model, s, sc) && s.element == id && s.role in roles
    ensures s.role == RedefinedRefs ==> |RefAt(RolesStepped(p, id, roles, sc).model, s).parts| > 1
    decreases |roles|
  {
    hide ListStepped, Missing, Follows, SameImports, RefsOf, Confined, NotAmong, Keeps;
    var front, last := roles[..|roles| - 1], roles[|roles| - 1];
    var q := RolesStepped(p, id, front, sc);
    var n := |RefsOf(Get(q.model, id), last)|;
    var r := ListStepped(q, id, last, sc, n);
    ListFollows(q, id, last, sc, n);
    ListFrame(q, id, last, sc, n);
    SparesImports(q.model, r.model, id, sc);
    if q.errors > p.errors {
      s := RolesMiss(p, id, front, sc);
      MissingSlot(q.model, s, sc);
      StillMissing(q, r, s, sc);
      SameSlot(q, r, s);
    } else {
      s := ListMisses(q, id, last, sc, n);
    }
  }

  /** Some member was walked with an error. */
  lemma {:induction false} PartsMiss(p: Progress, n: Id, k: nat, scopes: seq<Scope>) returns (i: nat)
    requires k <= |Get(p.model, n).members| && HasParts(Get(p.model, n).kind)
    requires BeforePart(p, n, k, scopes).errors > AfterNames(p, n, scopes).errors
    ensures i < k && n < Get(p.model, n).members[i] < |p.model|
    ensures var r := BeforePart(p, n, i, scopes);
      Walked(r, Get(p.model, n).members[i], InnerScopes(p.model, n, scopes)).errors > r.errors
  {
    hide Walked, AfterNames, InnerScopes;
    var members, inner := Get(p.model, n).members, InnerScopes(p.model, n, scopes);
    NoPartsYet(p, n, scopes);
    MembersNext(AfterNames(p, n, scopes), n, members, k - 1, inner);
    NamesLength(p, n, scopes);
    if BeforePart(p, n, k - 1, scopes).errors > AfterNames(p, n, scopes).errors {
      i := PartsMiss(p, n, k - 1, scopes);
    } else {
      i := k - 1;
    }
  }

  lemma NoPartsYet(p: Progress, n: Id, scopes: seq<Scope>)
    ensures BeforePart(p, n, 0, scopes) == AfterNames(p, n, scopes)
  {
    hide AfterNames, InnerScopes;
    assert Get(p.model, n).members[..0] == [];
  }

  lemma NamesLength(p: Progress, n: Id, scopes: seq<Scope>)
    ensures |AfterNames(p, n, scopes).model| == |p.model|
  {
    hide RolesStepped, Declared;
  }

  /** `c` opens a scope, and is nested in `n`. */
  ghost predicate Opens(m: Model, n: Id, c: Id) {
    Get(m, c).kind in {Package, Definition, Usage} && exists p :: IsNesting(m, p, n, c)
  }

  /** A name is repeated in a scope, or a reference is missing in the end. */
  ghost predicate Fails(m: Model, q: Model, n: Id, scopes: seq<Scope>) {
    || (exists c :: Opens(m, n, c) && Repeats(m, Get(m, c).members))
    || (exists s, sc :: Hands(m, n, scopes, s, sc, true) && Missing(q, s, sc))
  }

  lemma OwnMisses(p: Progress, extent: Id -> Id, n: Id, scopes: seq<Scope>)
    requires Tree(p.model, extent) && Apart(p.model, extent, scopes, n) && n < |p.model| && Get(p.model, n).kind != Import
    requires AfterRoles(p, n, scopes).errors > p.errors
    ensures exists s :: HandsOwn(p.model, n, scopes, s, scopes) && Missing(Walked(p, n, scopes).model, s, scopes)
  {
    hide Tree, RolesStepped, AfterNames, AfterParts, Walked, Follows, InnerScopes, Keeps, SameImports, NotAmong, Missing, Apart;
    var q1, q2, q3, q := AfterRoles(p, n, scopes), AfterNames(p, n, scopes), AfterParts(p, n, scopes), Walked(p, n, scopes);
    NotImported(p.model, extent, n, scopes);
    var s := RolesMiss(p, n, EarlyRoles(Get(p.model, n).kind), scopes);
    WalkedStages(p, n, scopes);
    OwnKeeps(p, extent, n, scopes, s);
    ScopesSpared(p, extent, n, scopes);
    SameImportsTrans(q1.model, q2.model, q3.model, scopes);
    SameImportsTrans(q1.model, q3.model, q.model, scopes);
    KeepsTrans(q1.model, q3.model, q.model, s);
    RolesFollow(q3, n, [UsedRefs], InnerScopes(p.model, n, scopes));
    FollowsSelf(q3);
    FollowsTrans(q1, q2, q3);
    FollowsTrans(q1, q3, q);
    MissingSlot(q1.model, s, scopes);
    SameSlot(p, q1, s);
    StillMissing(q1, q, s, scopes);
    assert HandsOwn(p.model, n, scopes, s, scopes);
  }

  lemma BodyMisses(p: Progress, extent: Id -> Id, n: Id, scopes: seq<Scope>)
    requires Tree(p.model, extent) && Apart(p.model, extent, scopes, n) && n < |p.model| && Get(p.model, n).kind == Definition
    requires Walked(p, n, scopes).errors > AfterParts(p, n, scopes).errors
    ensures exists s, sc :: HandsOwn(p.model, n, scopes, s, sc) && Missing(Walked(p, n, scopes).model, s, sc)
  {
    hide Tree, RolesStepped, AfterNames, AfterParts, AfterRoles, Walked, Follows, InnerScopes, NotAmong, Missing, Apart;
    var inner := InnerScopes(p.model, n, scopes);
    NotImported(p.model, extent, n, scopes);
    WalkedStages(p, n, scopes);
    var s := RolesMiss(AfterParts(p, n, scopes), n, [UsedRefs], inner);
    FollowsTrans(p, AfterRoles(p, n, scopes), AfterNames(p, n, scopes));
    FollowsTrans(p, AfterNames(p, n, scopes), AfterParts(p, n, scopes));
    RolesFollow(AfterParts(p, n, scopes), n, [UsedRefs], inner);
    FollowsTrans(p, AfterParts(p, n, scopes), Walked(p, n, scopes));
    MissingSlot(Walked(p, n, scopes).model, s, inner);
    SameSlot(p, Walked(p, n, scopes), s);
    assert HandsOwn(p.model, n, scopes, s, inner);
  }

  lemma NamesMiss(p: Progress, n: Id, scopes: seq<Scope>)
    requires AfterNames(p, n, scopes).errors > AfterRoles(p, n, scopes).errors
    ensures Opens(p.model, n, n) && Repeats(p.model, Get(p.model, n).members)
  {
    hide RolesStepped, Declared, Follows, Repeats;
    var q := AfterRoles(p, n, scopes);
    WalkedStages(p, n, scopes);
    DeclaredCounts(q, [], Get(p.model, n).members, scopes, false);
    assert [] + Get(p.model, n).members == Get(p.model, n).members;
    RepeatsKept(p, q, Get(p.model, n).members);
    assert IsNesting(p.model, [n], n, n);
  }

  lemma RepeatsKept(p: Progress, q: Progress, ids: seq<Id>)
    requires Follows(p, q)
    ensures Repeats(q.model, ids) == Repeats(p.model, ids)
  {
    hide Follows;
    forall x, y | x in ids && y in ids ensures SameName(q.model, x, y) == SameName(p.model, x, y) {
      SameShape(p, q, x);
      SameShape(p, q, y);
    }
  }

  /** A missing reference of the `i`th member is missing in the end, and so is a repeated name. */
  lemma PartFails(p: Progress, extent: Id -> Id, n: Id, i: nat, scopes: seq<Scope>)
    requires Tree(p.model, extent) && Apart(p.model, extent, scopes, n) && n < |p.model|
    requires i < |Get(p.model, n).members| && HasParts(Get(p.model, n).kind)
    requires var x := Get(p.model, n).members[i]; n < x < |p.model| && Get(p.model, x).kind != Import
    requires var r, x, inner := BeforePart(p, n, i, scopes), Get(p.model, n).members[i], InnerScopes(p.model, n, scopes);
      Fails(r.model, Walked(r, x, inner).model, x, inner)
    ensures Fails(p.model, Walked(p, n, scopes).model, n, scopes)
  {
    hide Tree, Walked, Follows, SameImports, Keeps, Apart, InnerScopes, BeforePart, Handling.Within, Missing, Hands, Repeats, Opens;
    var x, inner, q := Get(p.model, n).members[i], InnerScopes(p.model, n, scopes), Walked(p, n, scopes);
    var r := BeforePart(p, n, i, scopes);
    var z := Walked(r, x, inner);
    PartFollows(p, n, i, scopes);
    if c :| Opens(r.model, x, c) && Repeats(r.model, Get(r.model, c).members) {
      SameShape(p, r, c);
      RepeatsKept(p, r, Get(p.model, c).members);
      OpensHigher(p, r, n, x, c);
    } else {
      var s, sc :| Hands(r.model, x, inner, s, sc, true) && Missing(z.model, s, sc);
      HandsBack(p, r, x, inner, s, sc, true);
      HandsHigher(p.model, n, x, scopes, s, sc);
      HandsRange(p.model, extent, x, inner, s, sc, true);
      InnerApart(p.model, extent, n, scopes, x);
      HandsScopes(p.model, extent, x, inner, s, sc, true);
      PartSpared(p, extent, n, i, scopes, s, sc);
      StillMissing(z, q, s, sc);
    }
  }

  lemma OpensHigher(p: Progress, r: Progress, n: Id, x: Id, c: Id)
    requires Follows(p, r) && HasParts(Get(p.model, n).kind) && x in Get(p.model, n).members && n < x < |p.model|
    requires Opens(r.model, x, c)
    ensures Opens(p.model, n, c)
  {
    hide Follows, IsPart;
    SameShape(p, r, c);
    var q :| IsNesting(r.model, q, x, c);
    forall k | 0 <= k < |q| - 1 ensures IsPart(p.model, q[k], q[k + 1]) {
      SamePart(p, r, q[k], q[k + 1]);
    }
    assert IsPart(p.model, n, x) by { MemberIsPart(p.model, n, x); }
    NestingGrows(p.model, n, x, q, Slot(c, UsedRefs, 0), []);
  }

  lemma MemberIsPart(m: Model, n: Id, x: Id)
    requires HasParts(Get(m, n).kind) && x in Get(m, n).members && n < x < |m|
    ensures IsPart(m, n, x)
  {
  }

  lemma SamePart(p: Progress, r: Progress, a: Id, b: Id)
    requires Follows(p, r)
    ensures IsPart(r.model, a, b) == IsPart(p.model, a, b)
  {
    hide Follows;
    SameShape(p, r, a);
    SameSlot(p, r, Slot(a, UsedRefs, 0));
  }

  lemma HandsHigher(m: Model, n: Id, x: Id, scopes: seq<Scope>, s: Slot, sc: seq<Scope>)
    requires HasParts(Get(m, n).kind) && x in Get(m, n).members && n < x < |m|
    requires Hands(m, x, InnerScopes(m, n, scopes), s, sc, true)
    ensures Hands(m, n, scopes, s, sc, true)
  {
  }

  /** Every error of a walk has such a cause. */
  lemma {:induction false} ErrorsHaveCauses(p: Progress, extent: Id -> Id, n: Id, scopes: seq<Scope>)
    requires Tree(p.model, extent) && Apart(p.model, extent, scopes, n) && n < |p.model|
    requires Walked(p, n, scopes).errors > p.errors
    ensures Fails(p.model, Walked(p, n, scopes).model, n, scopes)
    decreases |p.model| - n
  {
    hide Tree, Walked, Follows, Apart, InnerScopes, BeforePart, AfterRoles, AfterNames, AfterParts, Missing, Repeats, Opens, HandsOwn;
    var q1, q2, q3 := AfterRoles(p, n, scopes), AfterNames(p, n, scopes), AfterParts(p, n, scopes);
    var members, inner := Get(p.model, n).members, InnerScopes(p.model, n, scopes);
    WalkedStages(p, n, scopes);
    WalkFrame(p, extent, n, scopes);
    if q1.errors > p.errors {
      OwnMisses(p, extent, n, scopes);
    } else if q2.errors > q1.errors {
      NamesMiss(p, n, scopes);
    } else if q3.errors > q2.errors {
      LastPart(p, n, scopes);
      var i := PartsMiss(p, n, |members|, scopes);
      var r, x := BeforePart(p, n, i, scopes), members[i];
      TreeMember(p.model, extent, n, x);
      PartFollows(p, n, i, scopes);
      TreeKept(p, r, extent);
      InnerApart(p.model, extent, n, scopes, x);
      ApartKept(p, r, extent, inner, x);
      SameShape(p, r, x);
      FollowsLength(p, r);
      WalkFrame(r, extent, x, inner);
      ErrorsHaveCauses(r, extent, x, inner);
      PartFails(p, extent, n, i, scopes);
    } else {
      BodyOnly(p, n, scopes);
      BodyMisses(p, extent, n, scopes);
    }
  }

  lemma FollowsLength(p: Progress, q: Progress)
    requires Follows(p, q)
    ensures |q.model| == |p.model| && p.errors <= q.errors
  {
  }

  lemma LastPart(p: Progress, n: Id, scopes: seq<Scope>)
    requires AfterParts(p, n, scopes) != AfterNames(p, n, scopes)
    ensures HasParts(Get(p.model, n).kind)
    ensures BeforePart(p, n, |Get(p.model, n).members|, scopes) == AfterParts(p, n, scopes)
  {
    hide AfterNames, InnerScopes, MembersWalked;
    assert Get(p.model, n).members[..|Get(p.model, n).members|] == Get(p.model, n).members;
  }

  lemma BodyOnly(p: Progress, n: Id, scopes: seq<Scope>)
    requires Walked(p, n, scopes).errors > AfterParts(p, n, scopes).errors
    ensures Get(p.model, n).kind == Definition
  {
    hide AfterParts, InnerScopes, Walked;
    WalkedStages(p, n, scopes);
  }

  // ---- from a cause to an error ----------------------------------------------------------------------------------------

  lemma NamesCount(p: Progress, n: Id, scopes: seq<Scope>)
    requires Get(p.model, n).kind in {Package, Definition, Usage} && Repeats(p.model, Get(p.model, n).members)
    ensures Walked(p, n, scopes).errors > p.errors
  {
    hide RolesStepped, Declared, Follows, Repeats, MembersWalked, Walked, InnerScopes;
    var q1, q2, q3 := AfterRoles(p, n, scopes), AfterNames(p, n, scopes), AfterParts(p, n, scopes);
    WalkedStages(p, n, scopes);
    DeclaredCounts(q1, [], Get(p.model, n).members, scopes, false);
    assert [] + Get(p.model, n).members == Get(p.model, n).members;
    RepeatsKept(p, q1, Get(p.model, n).members);
    RolesFollow(q3, n, [UsedRefs], InnerScopes(p.model, n, scopes));
    FollowsLength(p, q1);
    FollowsLength(q2, q3);
    FollowsLength(q3, RolesStepped(q3, n, [UsedRefs], InnerScopes(p.model, n, scopes)));
  }

  /** A name that is repeated somewhere in a subtree is counted by its walk. */
  lemma {:induction false} RepeatsCount(p: Progress, n: Id, scopes: seq<Scope>, c: Id, q: seq<Id>)
    requires IsNesting(p.model, q, n, c) && Get(p.model, c).kind in {Package, Definition, Usage}
    requires Repeats(p.model, Get(p.model, c).members)
    ensures Walked(p, n, scopes).errors > p.errors
    decreases |q|
  {
    hide Walked, Follows, Repeats, InnerScopes, BeforePart, AfterNames, AfterRoles, AfterParts, IsPart, RolesStepped;
    if |q| == 1 {
      NamesCount(p, n, scopes);
    } else {
      NestingShrinks(p.model, n, q, Slot(c, UsedRefs, 0), scopes);
      var x, members, inner := q[1], Get(p.model, n).members, InnerScopes(p.model, n, scopes);
      PartIsMember(p.model, n, x);
      var i :| 0 <= i < |members| && members[i] == x;
      var r, q3 := BeforePart(p, n, i, scopes), AfterParts(p, n, scopes);
      PartFollows(p, n, i, scopes);
      PartWalked(p, n, i, scopes);
      WalkedStages(p, n, scopes);
      SameShape(p, r, c);
      RepeatsKept(p, r, Get(p.model, c).members);
      forall k | 0 <= k < |q[1..]| - 1 ensures IsPart(r.model, q[1..][k], q[1..][k + 1]) {
        SamePart(p, r, q[1..][k], q[1..][k + 1]);
      }
      RepeatsCount(r, x, inner, c, q[1..]);
      FollowsLength(p, r);
      MembersFollow(Walked(r, x, inner), n, members[i + 1..], inner);
      FollowsLength(Walked(r, x, inner), q3);
      RolesFollow(q3, n, [UsedRefs], inner);
      FollowsLength(q3, RolesStepped(q3, n, [UsedRefs], inner));
    }
  }

  lemma PartIsMember(m: Model, n: Id, x: Id)
    requires IsPart(m, n, x)
    ensures HasParts(Get(m, n).kind) && x in Get(m, n).members && n < x < |m|
  {
  }

  /** A walk counts an error exactly when it fails. */
  lemma WalkCountsExactly(p: Progress, extent: Id -> Id, n: Id, scopes: seq<Scope>)
    requires Tree(p.model, extent) && Apart(p.model, extent, scopes, n) && n < |p.model|
    ensures Walked(p, n, scopes).errors > p.errors <==> Fails(p.model, Walked(p, n, scopes).model, n, scopes)
  {
    hide Tree, Walked, Follows, Apart, Missing, Hands, Repeats;
    WalkFollows(p, n, scopes);
    FollowsLength(p, Walked(p, n, scopes));
    if Walked(p, n, scopes).errors > p.errors {
      ErrorsHaveCauses(p, extent, n, scopes);
    } else {
      if c :| Opens(p.model, n, c) && Repeats(p.model, Get(p.model, c).members) {
        var q :| IsNesting(p.model, q, n, c);
        RepeatsCount(p, n, scopes, c, q);
      }
      if s, sc :| Hands(p.model, n, scopes, s, sc, true) && Missing(Walked(p, n, scopes).model, s, sc) {
        WalkSettles(p, extent, n, scopes, s, sc);
        SettledIsThere(Walked(p, n, scopes).model, sc, RefAt(p.model, s), s);
      }
    }
  }

  lemma SettledIsThere(q: Model, sc: seq<Scope>, r: Ref, s: Slot)
    requires IsSlot(q, s) && Settled(q, sc, r, RefAt(q, s))
    ensures !Missing(q, s, sc)
  {
    hide Excused, Head;
  }

  // ---- whole programs --------------------------------------------------------------------------------------------------

  /** Every reference of the program, in the scopes of its place, is bound or may stay unbound. */
  ghost predicate AllBound(m: Model, q: Model, program: Id, library: Id) {
    forall s, sc | Answers(m, s) && Stands(m, program, RootScopes(m, program, library), s, sc) ::
      IsSlot(q, s) && (RefAt(q, s).target.Some? || RefAt(q, s).parts == [] || MayStay(q, sc, RefAt(q, s).parts))
  }

  /** No scope of the program declares a name twice. */
  ghost predicate AllNamesDiffer(m: Model, program: Id, library: Id) {
    && !Repeats(m, [library] + Get(m, program).members)
    && forall c | Opens(m, program, c) :: !Repeats(m, Get(m, c).members)
  }

  /** A run succeeds exactly when no scope declares a name twice and in the end every reference is bound or may
      stay unbound. */
  lemma SucceedsExactly(m: Model, extent: Id -> Id, program: Id, library: Id)
    requires Tree(m, extent) && Get(m, program).kind == Program && Get(m, library).kind != Import && program < |m|
    ensures var q := ProgramWalked(m, program, library);
      q.errors == 0 <==> AllNamesDiffer(m, program, library) && AllBound(m, q.model, program, library)
  {
    hide Tree, Walked, Follows, Apart, Missing, Hands, Repeats, Stands, Answers, RootDeclared, RootScopes, ProgramWalked,
         MayStay, Opens;
    var p, scopes, q := RootDeclared(m, program, library), RootScopes(m, program, library), ProgramWalked(m, program, library);
    ProgramIsWalk(m, extent, program, library);
    RootCounts(m, program, library);
    FollowsLength(Progress(m, 0), p);
    WalkCountsExactly(p, extent, program, scopes);
    WalkFollows(p, program, scopes);
    FollowsLength(p, q);
    forall c: Id
      ensures Opens(p.model, program, c) <==> Opens(m, program, c)
      ensures Repeats(p.model, Get(p.model, c).members) == Repeats(m, Get(m, c).members)
    {
      SameOpens(Progress(m, 0), p, program, c);
      SameShape(Progress(m, 0), p, c);
      RepeatsKept(Progress(m, 0), p, Get(m, c).members);
    }
    FollowsTrans(Progress(m, 0), p, q);
    forall s, sc ensures Hands(p.model, program, scopes, s, sc, true) <==> Answers(m, s) && Stands(m, program, scopes, s, sc) {
      HandsExactly(m, program, scopes, s, sc);
      if Hands(p.model, program, scopes, s, sc, true) { HandsBack(Progress(m, 0), p, program, scopes, s, sc, true); }
      if Hands(m, program, scopes, s, sc, true) { HandsKept(Progress(m, 0), p, program, scopes, s, sc, true); }
    }
    forall s, sc | Answers(m, s)
      ensures IsSlot(q.model, s)
      ensures Missing(q.model, s, sc) <==>
        !(RefAt(q.model, s).target.Some? || RefAt(q.model, s).parts == [] || MayStay(q.model, sc, RefAt(q.model, s).parts))
    {
      AnswersSlot(m, s);
      SameSlot(Progress(m, 0), q, s);
      MissingIs(q.model, s, sc);
    }
  }

  lemma AnswersSlot(m: Model, s: Slot)
    requires Answers(m, s)
    ensures IsSlot(m, s)
  {
  }

  lemma MissingIs(q: Model, s: Slot, sc: seq<Scope>)
    requires IsSlot(q, s)
    ensures Missing(q, s, sc) <==>
      !(RefAt(q, s).target.Some? || RefAt(q, s).parts == [] || MayStay(q, sc, RefAt(q, s).parts))
  {
    hide Excused, MayStay;
    if RefAt(q, s).parts != [] { StayRule(q, sc, RefAt(q, s).parts); }
  }

  lemma RootCounts(m: Model, program: Id, library: Id)
    requires Get(m, library).kind != Import
    ensures RootDeclared(m, program, library).errors == 0 <==> !Repeats(m, [library] + Get(m, program).members)
  {
    hide Repeats, Declared;
    DeclaredCounts(Progress(m, 0), [library], Get(m, program).members, [], true);
  }

  lemma SameOpens(p: Progress, r: Progress, n: Id, c: Id)
    requires Follows(p, r)
    ensures Opens(r.model, n, c) <==> Opens(p.model, n, c)
  {
    hide Follows, IsPart;
    SameShape(p, r, c);
    forall a: Id, b: Id ensures IsPart(r.model, a, b) == IsPart(p.model, a, b) { SamePart(p, r, a, b); }
    if q :| IsNesting(p.model, q, n, c) { assert IsNesting(r.model, q, n, c); }
    if q :| IsNesting(r.model, q, n, c) { assert IsNesting(p.model, q, n, c); }
  }
}
