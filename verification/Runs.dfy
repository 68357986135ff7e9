/** What a run of the resolver may change: its stages, and the part of the tree each of them
    leaves alone. */
module Runs {
  import opened Elements
  import opened Lookup
  import opened Naming
  import opened Resolver

  // ---- the tree ----------------------------------------------------------------------------

  /** The descendants of `n` are the numbers strictly between `n` and `extent(n)`; the members
      of a container may be listed in any order. */
  ghost predicate Tree(m: Model, extent: Id -> Id) {
    forall n | 0 <= n < |m| ::
      && n < extent(n) <= |m|
      && (forall i | 0 <= i < |m[n].members| :: n < m[n].members[i] < |m| && extent(m[n].members[i]) <= extent(n))
      && (forall i, j | 0 <= i < j < |m[n].members| ::
            extent(m[n].members[i]) <= m[n].members[j] || extent(m[n].members[j]) <= m[n].members[i])
  }

  lemma TreeMember(m: Model, extent: Id -> Id, n: Id, x: Id)
    requires Tree(m, extent) && x in Get(m, n).members
    ensures n < |m| && n < x < |m| && x < extent(x) <= extent(n)
  {
    var i :| 0 <= i < |m[n].members| && m[n].members[i] == x;
  }

  /** No member of a container lies among the descendants of another one. */
  lemma SiblingsApart(m: Model, extent: Id -> Id, n: Id, x: Id, y: Id)
    requires Tree(m, extent) && x in Get(m, n).members && y in Get(m, n).members && x != y
    ensures extent(x) <= y || extent(y) <= x
  {
    var i :| 0 <= i < |m[n].members| && m[n].members[i] == x;
    var j :| 0 <= j < |m[n].members| && m[n].members[j] == y;
    assert i < j || j < i;
  }

  lemma NoRepeats(m: Model, extent: Id -> Id, n: Id, i: nat, j: nat)
    requires Tree(m, extent) && i < j < |Get(m, n).members|
    ensures Get(m, n).members[i] != Get(m, n).members[j]
  {
    var x, y := m[n].members[i], m[n].members[j];
    assert x < extent(x) && y < extent(y);
  }

  lemma TreeKept(p: Progress, q: Progress, extent: Id -> Id)
    requires Tree(p.model, extent) && Follows(p, q)
    ensures Tree(q.model, extent)
  {
    hide Extends;
    ExtendsLength(p.model, q.model);
    forall n | 0 <= n < |q.model| ensures q.model[n].members == p.model[n].members {
      ExtendsShape(p.model, q.model, n);
    }
  }

  lemma TreeIsContained(m: Model, extent: Id -> Id)
    requires Tree(m, extent)
    ensures Contained(m)
  {
    forall c, x | 0 <= c < |m| && x in m[c].members ensures c < x < |m| {
      TreeMember(m, extent, c, x);
    }
  }

  // ---- the stages of a walk -----------------------------------------------------------------

  /** The kinds that open a scope, and those whose members are walked. */
  predicate Scoped(k: ElementKind) { k == Package || k == Definition || k == Usage }

  predicate HasParts(k: ElementKind) { Scoped(k) || k == Program || k == Statement }

  function InnerScopes(m: Model, n: Id, scopes: seq<Scope>): seq<Scope> {
    if Scoped(Get(m, n).kind) then [Inner(m, [], Get(m, n).members)] + scopes else scopes
  }

  function AfterRoles(p: Progress, n: Id, scopes: seq<Scope>): Progress {
    RolesStepped(p, n, EarlyRoles(Get(p.model, n).kind), scopes)
  }

  function AfterNames(p: Progress, n: Id, scopes: seq<Scope>): Progress {
    var q := AfterRoles(p, n, scopes);
    if Scoped(Get(p.model, n).kind) then Declared(q, [], Get(p.model, n).members, scopes, false) else q
  }

  function AfterParts(p: Progress, n: Id, scopes: seq<Scope>): Progress {
    var q := AfterNames(p, n, scopes);
    if HasParts(Get(p.model, n).kind) then MembersWalked(q, n, Get(p.model, n).members, InnerScopes(p.model, n, scopes))
    else q
  }

  /** The state before the `i`th member is walked. */
  function BeforePart(p: Progress, n: Id, i: nat, scopes: seq<Scope>): Progress
    requires i <= |Get(p.model, n).members|
  {
    MembersWalked(AfterNames(p, n, scopes), n, Get(p.model, n).members[..i], InnerScopes(p.model, n, scopes))
  }

  lemma RolesEmpty(p: Progress, n: Id, scopes: seq<Scope>)
    requires Get(p.model, n).kind in {Program, Package, Import}
    ensures AfterRoles(p, n, scopes) == p
  {
  }

  lemma WalkedStages(p: Progress, n: Id, scopes: seq<Scope>)
    ensures var q := AfterParts(p, n, scopes);
      Walked(p, n, scopes) ==
        if Get(p.model, n).kind == Definition then RolesStepped(q, n, [UsedRefs], InnerScopes(p.model, n, scopes)) else q
    ensures Follows(p, AfterRoles(p, n, scopes)) && Follows(AfterRoles(p, n, scopes), AfterNames(p, n, scopes))
    ensures Follows(AfterNames(p, n, scopes), AfterParts(p, n, scopes))
  {
    hide RolesStepped, MembersWalked, Declared, Inner, Follows;
    var k, members := Get(p.model, n).kind, Get(p.model, n).members;
    var q := AfterRoles(p, n, scopes);
    RolesFollow(p, n, EarlyRoles(k), scopes);
    SameShape(p, q, n);
    SameScope(p, q, n);
    if k in {Program, Package, Import} { RolesEmpty(p, n, scopes); }
    DeclaredFollows(q, [], members, scopes, false);
    FollowsSelf(q);
    MembersFollow(AfterNames(p, n, scopes), n, members, InnerScopes(p.model, n, scopes));
    FollowsSelf(AfterNames(p, n, scopes));
  }

  // ---- what each stage leaves alone ------------------------------------------------------------

  ghost predicate Confined(a: Model, b: Model, lo: Id, hi: Id) {
    |a| == |b| && forall id: Id | !(lo <= id < hi) :: Get(b, id) == Get(a, id)
  }

  /** The reference at `t` is as it was. */
  predicate Keeps(a: Model, b: Model, t: Slot) {
    IsSlot(a, t) ==> IsSlot(b, t) && RefAt(b, t) == RefAt(a, t)
  }

  lemma KeepsTrans(a: Model, b: Model, c: Model, t: Slot)
    requires Keeps(a, b, t) && Keeps(b, c, t)
    ensures Keeps(a, c, t)
  {
  }

  lemma SameElementKeeps(a: Model, b: Model, t: Slot)
    requires |a| == |b| && Get(b, t.element) == Get(a, t.element)
    ensures Keeps(a, b, t)
  {
  }

  lemma StepFrame(p: Progress, s: Slot, scopes: seq<Scope>, report: bool)
    ensures var q := Stepped(p, s, scopes, report);
      Confined(p.model, q.model, s.element, s.element + 1) && forall t | t != s :: Keeps(p.model, q.model, t)
  {
    hide Resolve;
  }

  lemma {:induction false} ListFrame(p: Progress, id: Id, role: Role, scopes: seq<Scope>, n: nat)
    ensures var q := ListStepped(p, id, role, scopes, n);
      && Confined(p.model, q.model, id, id + 1)
      && forall t: Slot | !(t.element == id && t.role == role && t.index < n) :: Keeps(p.model, q.model, t)
  {
    hide Stepped, Keeps;
    if n == 0 {
      forall t ensures Keeps(p.model, p.model, t) { SameElementKeeps(p.model, p.model, t); }
    } else {
      var q, s := ListStepped(p, id, role, scopes, n - 1), Slot(id, role, n - 1);
      ListFrame(p, id, role, scopes, n - 1);
      StepFrame(q, s, scopes, true);
      forall t: Slot | !(t.element == id && t.role == role && t.index < n)
        ensures Keeps(p.model, ListStepped(p, id, role, scopes, n).model, t)
      {
        if t != s { KeepsTrans(p.model, q.model, Stepped(q, s, scopes, true).model, t); }
      }
    }
  }

  lemma {:induction false} RolesFrame(p: Progress, id: Id, roles: seq<Role>, scopes: seq<Scope>)
    ensures var q := RolesStepped(p, id, roles, scopes);
      && Confined(p.model, q.model, id, id + 1)
      && forall t: Slot | !(t.element == id && t.role in roles) :: Keeps(p.model, q.model, t)
    decreases |roles|
  {
    hide ListStepped, Keeps, RefsOf;
    if roles == [] {
      forall t ensures Keeps(p.model, p.model, t) { SameElementKeeps(p.model, p.model, t); }
    } else {
      var front, last := roles[..|roles| - 1], roles[|roles| - 1];
      var q := RolesStepped(p, id, front, scopes);
      var n := |RefsOf(Get(q.model, id), last)|;
      RolesFrame(p, id, front, scopes);
      ListFrame(q, id, last, scopes, n);
      assert roles == front + [last];
      forall t: Slot | !(t.element == id && t.role in roles)
        ensures Keeps(p.model, RolesStepped(p, id, roles, scopes).model, t)
      {
        KeepsTrans(p.model, q.model, ListStepped(q, id, last, scopes, n).model, t);
      }
    }
  }

  /** Declaring names binds nothing but import targets. */
  lemma {:induction false} DeclaredFrame(p: Progress, start: seq<Id>, members: seq<Id>, outer: seq<Scope>, root: bool)
    ensures var q := Declared(p, start, members, outer, root);
      |q.model| == |p.model| && forall id: Id | !(id in members && Get(p.model, id).kind == Import) :: Get(q.model, id) == Get(p.model, id)
    decreases |members|
  {
    hide Stepped, FirstNamed, Inner, Keeps;
    if members != [] {
      var front, x := members[..|members| - 1], members[|members| - 1];
      var q := Declared(p, start, front, outer, root);
      DeclaredFrame(p, start, front, outer, root);
      StepFrame(q, Slot(x, TargetRefs, 0), if root then [Inner(p.model, start, front)] else outer, false);
    }
  }

  /** An element inside a part that is walked, hence possibly changed. */
  ghost predicate Touched(m: Model, extent: Id -> Id, parts: seq<Id>, id: Id) {
    exists j | 0 <= j < |parts| :: Get(m, parts[j]).kind != Import && parts[j] <= id < extent(parts[j])
  }

  lemma {:induction false} PartsFrame(p: Progress, extent: Id -> Id, n: Id, parts: seq<Id>, scopes: seq<Scope>)
    requires Tree(p.model, extent) && forall x | x in parts :: x in Get(p.model, n).members
    ensures var q := MembersWalked(p, n, parts, scopes);
      forall id: Id | Get(q.model, id) != Get(p.model, id) :: Touched(p.model, extent, parts, id)
    decreases if n < |p.model| then |p.model| - n else 0, 0, |parts|
  {
    hide Tree, Walked;
    if parts != [] {
      var front, x := parts[..|parts| - 1], parts[|parts| - 1];
      var q := MembersWalked(p, n, front, scopes);
      PartsFrame(p, extent, n, front, scopes);
      assert x in parts;
      TreeMember(p.model, extent, n, x);
      MembersFollow(p, n, front, scopes);
      TreeKept(p, q, extent);
      SameShape(p, q, x);
      WalkFrame(q, extent, x, scopes);
      var r := Walked(q, x, scopes);
      forall id: Id | Get(r.model, id) != Get(p.model, id) ensures Touched(p.model, extent, parts, id) {
        if Get(q.model, id) != Get(p.model, id) {
          var j :| 0 <= j < |front| && Get(p.model, front[j]).kind != Import && front[j] <= id < extent(front[j]);
          assert parts[j] == front[j];
        }
      }
    }
  }

  lemma PartsConfined(m: Model, extent: Id -> Id, n: Id, parts: seq<Id>, id: Id)
    requires Tree(m, extent) && (forall x | x in parts :: x in Get(m, n).members) && Touched(m, extent, parts, id)
    ensures n < id < extent(n)
  {
    hide Tree;
    var j :| 0 <= j < |parts| && Get(m, parts[j]).kind != Import && parts[j] <= id < extent(parts[j]);
    assert parts[j] in parts;
    TreeMember(m, extent, n, parts[j]);
  }

  /** A walk changes nothing outside its subtree, and the walk of an import nothing at all. */
  lemma {:induction false} WalkFrame(p: Progress, extent: Id -> Id, n: Id, scopes: seq<Scope>)
    requires Tree(p.model, extent) && n < |p.model|
    ensures var q := Walked(p, n, scopes);
      Confined(p.model, q.model, n, extent(n)) && (Get(p.model, n).kind == Import ==> q == p)
    decreases |p.model| - n, 2
  {
    hide Tree, Walked, AfterRoles, AfterNames, AfterParts, InnerScopes;
    WalkedStages(p, n, scopes);
    StagesFrame(p, extent, n, scopes);
    RolesFrame(AfterParts(p, n, scopes), n, [UsedRefs], InnerScopes(p.model, n, scopes));
    if Get(p.model, n).kind == Import { ImportStages(p, n, scopes); }
  }

  lemma ImportStages(p: Progress, n: Id, scopes: seq<Scope>)
    requires Get(p.model, n).kind == Import
    ensures AfterParts(p, n, scopes) == p
  {
  }

  lemma {:induction false} StagesFrame(p: Progress, extent: Id -> Id, n: Id, scopes: seq<Scope>)
    requires Tree(p.model, extent) && n < |p.model|
    ensures n < extent(n)
    ensures Confined(p.model, AfterRoles(p, n, scopes).model, n, n + 1)
    ensures Confined(AfterRoles(p, n, scopes).model, AfterNames(p, n, scopes).model, n + 1, extent(n))
    ensures Confined(AfterNames(p, n, scopes).model, AfterParts(p, n, scopes).model, n + 1, extent(n))
    decreases |p.model| - n, 1
  {
    hide RolesStepped, Declared, MembersWalked, Inner, Follows, InnerScopes;
    var members := Get(p.model, n).members;
    var q, r := AfterRoles(p, n, scopes), AfterNames(p, n, scopes);
    WalkedStages(p, n, scopes);
    RolesFrame(p, n, EarlyRoles(Get(p.model, n).kind), scopes);
    DeclaredFrame(q, [], members, scopes, false);
    forall x | x in members ensures n < x < extent(n) { TreeMember(p.model, extent, n, x); }
    FollowsTrans(p, q, r);
    TreeKept(p, r, extent);
    SameShape(p, r, n);
    PartsFrame(r, extent, n, members, InnerScopes(p.model, n, scopes));
    forall id: Id | Touched(r.model, extent, members, id) ensures n < id < extent(n) {
      PartsConfined(r.model, extent, n, members, id);
    }
  }
}
