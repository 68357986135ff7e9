/** Which references a walk hands to the name resolution, in which scopes, and what becomes
    of them. */
module Handling {
  import opened Elements
  import opened Lookup
  import opened Naming
  import opened Resolver
  import opened Runs

  // ---- what is handed over ------------------------------------------------------------------

  /** The body of a definition is resolved inside its own scope. */
  predicate OwnRole(k: ElementKind, role: Role) { role in EarlyRoles(k) || (k == Definition && role == UsedRefs) }

  function OwnScopes(m: Model, n: Id, role: Role, scopes: seq<Scope>): seq<Scope> {
    if Get(m, n).kind == Definition && role == UsedRefs then InnerScopes(m, n, scopes) else scopes
  }

  /** `s` is a reference of `n` itself; of the redefinitions only the longer paths count. */
  predicate HandsOwn(m: Model, n: Id, scopes: seq<Scope>, s: Slot, sc: seq<Scope>) {
    && s.element == n && IsSlot(m, s) && OwnRole(Get(m, n).kind, s.role)
    && (s.role == RedefinedRefs ==> |RefAt(m, s).parts| > 1)
    && sc == OwnScopes(m, n, s.role, scopes)
  }

  /** `s` is the target of an import among the members of `n`. */
  predicate HandsImport(m: Model, n: Id, scopes: seq<Scope>, s: Slot, sc: seq<Scope>) {
    && Scoped(Get(m, n).kind) && s.element in Get(m, n).members && Get(m, s.element).kind == Import
    && IsSlot(m, s) && s.role == TargetRefs && s.index == 0 && sc == scopes
  }

  /** The walk of `n` in `scopes` hands `s` to the name resolution in the scopes `sc`, and
      reports it when it is undefined. */
  ghost predicate Hands(m: Model, n: Id, scopes: seq<Scope>, s: Slot, sc: seq<Scope>, report: bool)
    decreases if n < |m| then |m| - n else 0
  {
    || (report && HandsOwn(m, n, scopes, s, sc))
    || (!report && HandsImport(m, n, scopes, s, sc))
    || (HasParts(Get(m, n).kind) &&
        exists x | x in Get(m, n).members && n < x < |m| :: Hands(m, x, InnerScopes(m, n, scopes), s, sc, report))
  }

  // ---- what becomes of it --------------------------------------------------------------------

  /** The imports of the scope chain are bound as they were. */
  ghost predicate SameImports(a: Model, b: Model, scopes: seq<Scope>) {
    forall k, w | 0 <= k < |scopes| && w in scopes[k].wildcards :: Get(b, w) == Get(a, w)
  }

  /** At some moment `t` between `p` and `q` the reference `s` was handed to the name
      resolution; neither it nor the imports of its scopes have changed since. */
  ghost predicate HandledAt(p: Progress, q: Progress, s: Slot, scopes: seq<Scope>, report: bool, t: Progress) {
    var u := Stepped(t, s, scopes, report);
    && Follows(p, t) && Follows(u, q)
    && Keeps(p.model, t.model, s) && Keeps(u.model, q.model, s)
    && SameImports(t.model, q.model, scopes)
  }

  ghost predicate Handled(p: Progress, q: Progress, s: Slot, scopes: seq<Scope>, report: bool) {
    exists t :: HandledAt(p, q, s, scopes, report, t)
  }

  lemma HandledNow(p: Progress, s: Slot, scopes: seq<Scope>, report: bool)
    requires SameImports(p.model, Stepped(p, s, scopes, report).model, scopes)
    ensures Handled(p, Stepped(p, s, scopes, report), s, scopes, report)
  {
    hide Follows, Stepped, SameImports;
    var q := Stepped(p, s, scopes, report);
    FollowsSelf(p);
    FollowsSelf(q);
    SameElementKeeps(p.model, p.model, s);
    SameElementKeeps(q.model, q.model, s);
    assert HandledAt(p, q, s, scopes, report, p);
  }

  lemma SameImportsTrans(a: Model, b: Model, c: Model, scopes: seq<Scope>)
    requires SameImports(a, b, scopes) && SameImports(b, c, scopes)
    ensures SameImports(a, c, scopes)
  {
  }

  lemma HandledBefore(p: Progress, q: Progress, r: Progress, s: Slot, scopes: seq<Scope>, report: bool)
    requires Handled(p, q, s, scopes, report) && Follows(q, r)
    requires Keeps(q.model, r.model, s) && SameImports(q.model, r.model, scopes)
    ensures Handled(p, r, s, scopes, report)
  {
    hide Follows, Stepped, SameImports, Keeps;
    var t :| HandledAt(p, q, s, scopes, report, t);
    var u := Stepped(t, s, scopes, report);
    FollowsTrans(u, q, r);
    KeepsTrans(u.model, q.model, r.model, s);
    SameImportsTrans(t.model, q.model, r.model, scopes);
    assert HandledAt(p, r, s, scopes, report, t);
  }

  lemma HandledAfter(o: Progress, p: Progress, q: Progress, s: Slot, scopes: seq<Scope>, report: bool)
    requires Handled(p, q, s, scopes, report) && Follows(o, p) && Keeps(o.model, p.model, s)
    ensures Handled(o, q, s, scopes, report)
  {
    hide Follows, Stepped, SameImports, Keeps;
    var t :| HandledAt(p, q, s, scopes, report, t);
    FollowsTrans(o, p, t);
    KeepsTrans(o.model, p.model, t.model, s);
    assert HandledAt(o, q, s, scopes, report, t);
  }

  // ---- the reference lists ------------------------------------------------------------------------

  /** The scopes import nothing through `id`. */
  predicate NotAmong(id: Id, scopes: seq<Scope>) {
    forall k | 0 <= k < |scopes| :: id !in scopes[k].wildcards
  }

  lemma SparesImports(a: Model, b: Model, id: Id, scopes: seq<Scope>)
    requires Confined(a, b, id, id + 1) && NotAmong(id, scopes)
    ensures SameImports(a, b, scopes)
  {
  }

  lemma {:induction false} ListHandles(p: Progress, id: Id, role: Role, scopes: seq<Scope>, n: nat, s: Slot)
    requires s.element == id && s.role == role && s.index < n && IsSlot(p.model, s) && NotAmong(id, scopes)
    requires role == RedefinedRefs ==> |RefAt(p.model, s).parts| > 1
    ensures Handled(p, ListStepped(p, id, role, scopes, n), s, scopes, true)
  {
    hide Stepped, Handled, Follows, SameImports, RefsOf, Confined, NotAmong;
    var q, z := ListStepped(p, id, role, scopes, n - 1), Slot(id, role, n - 1);
    var r := Stepped(q, z, scopes, true);
    ListFollows(p, id, role, scopes, n - 1);
    ListFrame(p, id, role, scopes, n - 1);
    StepFollows(q, z, scopes, true);
    StepFrame(q, z, scopes, true);
    SparesImports(q.model, r.model, id, scopes);
    if z == s {
      HandledNow(q, s, scopes, true);
      HandledAfter(p, q, r, s, scopes, true);
    } else {
      ListHandles(p, id, role, scopes, n - 1, s);
      HandledBefore(p, q, r, s, scopes, true);
    }
  }

  lemma {:induction false} RolesHandle(p: Progress, id: Id, roles: seq<Role>, scopes: seq<Scope>, s: Slot)
    requires s.element == id && s.role in roles && IsSlot(p.model, s) && NotAmong(id, scopes)
    requires s.role == RedefinedRefs ==> |RefAt(p.model, s).parts| > 1
    requires forall i, j | 0 <= i < j < |roles| :: roles[i] != roles[j]
    ensures Handled(p, RolesStepped(p, id, roles, scopes), s, scopes, true)
    decreases |roles|
  {
    hide ListStepped, Handled, Follows, SameImports, Confined, NotAmong, Keeps;
    var front, last := roles[..|roles| - 1], roles[|roles| - 1];
    var q := RolesStepped(p, id, front, scopes);
    var n := |RefsOf(Get(q.model, id), last)|;
    var r := ListStepped(q, id, last, scopes, n);
    RolesFollow(p, id, front, scopes);
    RolesFrame(p, id, front, scopes);
    ListFollows(q, id, last, scopes, n);
    ListFrame(q, id, last, scopes, n);
    SparesImports(q.model, r.model, id, scopes);
    if s.role == last {
      KeptSlot(p.model, q.model, s);
      ListHandles(q, id, last, scopes, n, s);
      HandledAfter(p, q, r, s, scopes, true);
    } else {
      RolesHandle(p, id, front, scopes, s);
      HandledBefore(p, q, r, s, scopes, true);
    }
  }

  lemma KeptSlot(a: Model, b: Model, s: Slot)
    requires Keeps(a, b, s) && IsSlot(a, s)
    ensures IsSlot(b, s) && RefAt(b, s) == RefAt(a, s)
    ensures s.index < |RefsOf(Get(b, s.element), s.role)|
  {
  }

  /** The target of the import `members[i]` is handed over among its members' names. */
  lemma {:induction false} NamesHandle(p: Progress, members: seq<Id>, outer: seq<Scope>, i: nat, s: Slot)
    requires i < |members| && s == Slot(members[i], TargetRefs, 0) && Get(p.model, members[i]).kind == Import
    requires forall j | 0 <= j < |members| && j != i :: members[j] != members[i]
    requires forall x | x in members :: NotAmong(x, outer)
    ensures Handled(p, Declared(p, [], members, outer, false), s, outer, false)
    decreases |members|
  {
    hide Stepped, Handled, Follows, SameImports, Confined, NotAmong, Keeps, FirstNamed, Inner;
    var front, x := members[..|members| - 1], members[|members| - 1];
    var q, z := Declared(p, [], front, outer, false), Slot(x, TargetRefs, 0);
    var r := Declared(p, [], members, outer, false);
    DeclaredFollows(p, [], front, outer, false);
    DeclaredFrame(p, [], front, outer, false);
    StepFollows(q, z, outer, false);
    StepFrame(q, z, outer, false);
    assert x in members;
    SparesImports(q.model, Stepped(q, z, outer, false).model, x, outer);
    if i == |members| - 1 {
      assert x !in front;
      SameElementKeeps(p.model, q.model, s);
      HandledNow(q, s, outer, false);
      HandledAfter(p, q, r, s, outer, false);
    } else {
      assert front[i] == members[i];
      assert forall y | y in front :: y in members;
      NamesHandle(p, front, outer, i, s);
      LaterName(q, r, z, outer, s);
      HandledBefore(p, q, r, s, outer, false);
    }
  }

  /** A step for another name, or an error that is counted. */
  lemma LaterName(q: Progress, r: Progress, z: Slot, outer: seq<Scope>, s: Slot)
    requires r == Stepped(q, z, outer, false) || r == q.(errors := q.errors + 1) || r == q
    requires z != s && NotAmong(z.element, outer)
    ensures Follows(q, r) && Keeps(q.model, r.model, s) && SameImports(q.model, r.model, outer)
  {
    hide Stepped, Keeps, NotAmong;
    StepFollows(q, z, outer, false);
    StepFrame(q, z, outer, false);
    SparesImports(q.model, Stepped(q, z, outer, false).model, z.element, outer);
    SameElementKeeps(q.model, q.model, s);
    FollowsSelf(q);
  }

  // ---- the whole walk ------------------------------------------------------------------------------

  /** The imports of the scopes are not changed by the walk of `n`: they lie outside, or are
      members of an `n` that opens no scope of its own. */
  ghost predicate Apart(m: Model, extent: Id -> Id, scopes: seq<Scope>, n: Id) {
    forall k, w | 0 <= k < |scopes| && w in scopes[k].wildcards ::
      Get(m, w).kind == Import && (n < w < extent(n) ==> !Scoped(Get(m, n).kind) && w in Get(m, n).members)
  }

  lemma {:induction false} PartsSplit(p: Progress, n: Id, a: seq<Id>, b: seq<Id>, scopes: seq<Scope>)
    ensures MembersWalked(p, n, a + b, scopes) == MembersWalked(MembersWalked(p, n, a, scopes), n, b, scopes)
    decreases |b|
  {
    hide Walked;
    if b == [] {
      assert a + b == a;
    } else {
      var front := b[..|b| - 1];
      assert (a + b)[..|a + b| - 1] == a + front;
      PartsSplit(p, n, a, front, scopes);
    }
  }

  /** What lies in one member, or is an import among the members, or lies outside, is not
      touched by the walk of the other members. */
  lemma NotTouched(m: Model, extent: Id -> Id, n: Id, parts: seq<Id>, x: Id, id: Id)
    requires Tree(m, extent) && x in Get(m, n).members && forall y | y in parts :: y in Get(m, n).members && y != x
    requires x <= id < extent(x) || (id in Get(m, n).members && Get(m, id).kind == Import) || !(n < id < extent(n))
    ensures !Touched(m, extent, parts, id)
  {
    hide Tree;
    forall j | 0 <= j < |parts| ensures !(Get(m, parts[j]).kind != Import && parts[j] <= id < extent(parts[j])) {
      assert parts[j] in parts;
      TreeMember(m, extent, n, parts[j]);
      TreeMember(m, extent, n, x);
      SiblingsApart(m, extent, n, parts[j], x);
      if id in Get(m, n).members && id != parts[j] {
        TreeMember(m, extent, n, id);
        SiblingsApart(m, extent, n, parts[j], id);
      }
    }
  }

  lemma ImportUntouched(m: Model, extent: Id -> Id, n: Id, parts: seq<Id>, id: Id)
    requires Tree(m, extent) && forall y | y in parts :: y in Get(m, n).members
    requires (id in Get(m, n).members && Get(m, id).kind == Import) || !(n < id < extent(n))
    ensures !Touched(m, extent, parts, id)
  {
    hide Tree;
    forall j | 0 <= j < |parts| ensures !(Get(m, parts[j]).kind != Import && parts[j] <= id < extent(parts[j])) {
      assert parts[j] in parts;
      TreeMember(m, extent, n, parts[j]);
      if id in Get(m, n).members && id != parts[j] {
        TreeMember(m, extent, n, id);
        SiblingsApart(m, extent, n, parts[j], id);
      }
    }
  }

  /** The walk of `n` leaves the imports of its scopes alone. */
  lemma ScopesSpared(p: Progress, extent: Id -> Id, n: Id, scopes: seq<Scope>)
    requires Tree(p.model, extent) && n < |p.model| && Apart(p.model, extent, scopes, n) && Get(p.model, n).kind != Import
    ensures SameImports(p.model, AfterRoles(p, n, scopes).model, scopes)
    ensures SameImports(AfterRoles(p, n, scopes).model, AfterNames(p, n, scopes).model, scopes)
    ensures SameImports(AfterNames(p, n, scopes).model, AfterParts(p, n, scopes).model, scopes)
    ensures SameImports(AfterParts(p, n, scopes).model, Walked(p, n, scopes).model, scopes)
  {
    hide Tree, RolesStepped, Declared, MembersWalked, Inner, Walked, Follows;
    var q1, q2, q3 := AfterRoles(p, n, scopes), AfterNames(p, n, scopes), AfterParts(p, n, scopes);
    var members := Get(p.model, n).members;
    WalkedStages(p, n, scopes);
    StagesFrame(p, extent, n, scopes);
    RolesFrame(q3, n, [UsedRefs], InnerScopes(p.model, n, scopes));
    FollowsTrans(p, q1, q2);
    TreeKept(p, q2, extent);
    SameShape(p, q2, n);
    PartsFrame(q2, extent, n, members, InnerScopes(p.model, n, scopes));
    forall k, w | 0 <= k < |scopes| && w in scopes[k].wildcards
      ensures w != n && Get(q1.model, w) == Get(p.model, w) == Get(q2.model, w) == Get(q3.model, w)
    {
      SameShape(p, q2, w);
      ImportUntouched(q2.model, extent, n, members, w);
    }
  }

  lemma HandsKept(p: Progress, q: Progress, n: Id, scopes: seq<Scope>, s: Slot, sc: seq<Scope>, report: bool)
    requires Follows(p, q) && Hands(p.model, n, scopes, s, sc, report)
    ensures Hands(q.model, n, scopes, s, sc, report)
    decreases if n < |p.model| then |p.model| - n else 0
  {
    hide Follows, Inner;
    SameShape(p, q, n);
    SameShape(p, q, s.element);
    SameScope(p, q, n);
    SameSlot(p, q, s);
    if HasParts(Get(p.model, n).kind) {
      if x :| x in Get(p.model, n).members && n < x < |p.model| && Hands(p.model, x, InnerScopes(p.model, n, scopes), s, sc, report) {
        HandsKept(p, q, x, InnerScopes(p.model, n, scopes), s, sc, report);
      }
    }
  }

  lemma {:induction false} HandsBack(p: Progress, q: Progress, n: Id, scopes: seq<Scope>, s: Slot, sc: seq<Scope>, report: bool)
    requires Follows(p, q) && Hands(q.model, n, scopes, s, sc, report)
    ensures Hands(p.model, n, scopes, s, sc, report)
    decreases if n < |q.model| then |q.model| - n else 0
  {
    hide Follows, Inner;
    SameShape(p, q, n);
    SameShape(p, q, s.element);
    SameScope(p, q, n);
    SameSlot(p, q, s);
    if HasParts(Get(q.model, n).kind) {
      if x :| x in Get(q.model, n).members && n < x < |q.model| && Hands(q.model, x, InnerScopes(q.model, n, scopes), s, sc, report) {
        HandsBack(p, q, x, InnerScopes(q.model, n, scopes), s, sc, report);
      }
    }
  }

  lemma SameSlot(p: Progress, q: Progress, s: Slot)
    requires Follows(p, q)
    ensures |q.model| == |p.model| && IsSlot(q.model, s) == IsSlot(p.model, s)
    ensures IsSlot(p.model, s) ==> RefAt(q.model, s).parts == RefAt(p.model, s).parts
  {
    if s.element < |p.model| { assert ElementExtends(p.model[s.element], q.model[s.element]); }
  }

  /** Only references inside the subtree are handed over, none by an import itself. */
  lemma {:induction false} HandsRange(m: Model, extent: Id -> Id, n: Id, scopes: seq<Scope>, s: Slot, sc: seq<Scope>, report: bool)
    requires Tree(m, extent) && Hands(m, n, scopes, s, sc, report)
    ensures n < |m| && n <= s.element < extent(n) && IsSlot(m, s) && Get(m, n).kind != Import
    ensures s.element == n ==> report
    decreases if n < |m| then |m| - n else 0
  {
    hide Tree, Inner;
    if report && HandsOwn(m, n, scopes, s, sc) {
      assert Get(m, n).kind != Import by { assert EarlyRoles(Import) == []; }
      TreeSelf(m, extent, n);
    } else if !report && HandsImport(m, n, scopes, s, sc) {
      TreeMember(m, extent, n, s.element);
    } else {
      assert HasParts(Get(m, n).kind);
      var x :| x in Get(m, n).members && n < x < |m| && Hands(m, x, InnerScopes(m, n, scopes), s, sc, report);
      HandsRange(m, extent, x, InnerScopes(m, n, scopes), s, sc, report);
      TreeMember(m, extent, n, x);
    }
  }

  lemma TreeSelf(m: Model, extent: Id -> Id, n: Id)
    requires Tree(m, extent) && n < |m|
    ensures n < extent(n) <= |m|
  {
  }

  /** The inner scope adds imports that are members of `n`. */
  lemma InnerApart(m: Model, extent: Id -> Id, n: Id, scopes: seq<Scope>, x: Id)
    requires Tree(m, extent) && Apart(m, extent, scopes, n) && x in Get(m, n).members && HasParts(Get(m, n).kind)
    ensures Apart(m, extent, InnerScopes(m, n, scopes), x)
    ensures forall k, w | 0 <= k < |InnerScopes(m, n, scopes)| && w in InnerScopes(m, n, scopes)[k].wildcards ::
      (w in Get(m, n).members && Get(m, w).kind == Import) || !(n < w < extent(n))
  {
    hide Tree, Inner, InnerScopes, Apart;
    var inner, members := InnerScopes(m, n, scopes), Get(m, n).members;
    TreeMember(m, extent, n, x);
    forall k, w | 0 <= k < |inner| && w in inner[k].wildcards
      ensures Get(m, w).kind == Import && !(x < w < extent(x)) && (w in members || !(n < w < extent(n)))
    {
      InnerImports(m, extent, n, scopes, k, w);
      if w in members && w != x {
        TreeMember(m, extent, n, w);
        SiblingsApart(m, extent, n, x, w);
      }
    }
    MeansApart(m, extent, inner, x);
  }

  lemma MeansApart(m: Model, extent: Id -> Id, scopes: seq<Scope>, n: Id)
    requires forall k, w | 0 <= k < |scopes| && w in scopes[k].wildcards :: Get(m, w).kind == Import && !(n < w < extent(n))
    ensures Apart(m, extent, scopes, n)
  {
  }

  lemma InnerImports(m: Model, extent: Id -> Id, n: Id, scopes: seq<Scope>, k: nat, w: Id)
    requires Apart(m, extent, scopes, n)
    requires k < |InnerScopes(m, n, scopes)| && w in InnerScopes(m, n, scopes)[k].wildcards
    ensures Get(m, w).kind == Import && (w in Get(m, n).members || !(n < w < extent(n)))
  {
    hide Inner;
    if Scoped(Get(m, n).kind) {
      if k == 0 { ScopeImports(m, Get(m, n).members, w); } else { assert InnerScopes(m, n, scopes)[k] == scopes[k - 1]; }
    }
  }

  lemma ScopeImports(m: Model, members: seq<Id>, w: Id)
    requires w in Inner(m, [], members).wildcards
    ensures w in members && Get(m, w).kind == Import
  {
    WildcardsAreImports(m, members, w);
  }

  lemma {:induction false} WildcardsAreImports(m: Model, members: seq<Id>, w: Id)
    requires w in Wildcards(m, members)
    ensures w in members && Get(m, w).kind == Import
    decreases |members|
  {
    var front := members[..|members| - 1];
    if w in Wildcards(m, front) { WildcardsAreImports(m, front, w); }
  }

  /** The imports of a scope chain lie in the subtree of `n` or belong to `scopes`. */
  ghost predicate Within(m: Model, extent: Id -> Id, n: Id, scopes: seq<Scope>, sc: seq<Scope>) {
    forall k, w | 0 <= k < |sc| && w in sc[k].wildcards ::
      Get(m, w).kind == Import && (n < w < extent(n) || !NotAmong(w, scopes))
  }

  lemma InnerWithin(m: Model, extent: Id -> Id, n: Id, scopes: seq<Scope>)
    requires Tree(m, extent) && Apart(m, extent, scopes, n)
    ensures Within(m, extent, n, scopes, InnerScopes(m, n, scopes)) && Within(m, extent, n, scopes, scopes)
  {
    hide Tree, Inner;
    var inner := InnerScopes(m, n, scopes);
    forall k, w | 0 <= k < |inner| && w in inner[k].wildcards
      ensures Get(m, w).kind == Import && (n < w < extent(n) || !NotAmong(w, scopes))
    {
      if Scoped(Get(m, n).kind) && k == 0 {
        ScopeImports(m, Get(m, n).members, w);
        TreeMember(m, extent, n, w);
      } else {
        assert inner[k] == scopes[if Scoped(Get(m, n).kind) then k - 1 else k];
      }
    }
  }

  lemma WithinTrans(m: Model, extent: Id -> Id, n: Id, x: Id, scopes: seq<Scope>, inner: seq<Scope>, sc: seq<Scope>)
    requires Within(m, extent, n, scopes, inner) && Within(m, extent, x, inner, sc) && n < x && extent(x) <= extent(n)
    ensures Within(m, extent, n, scopes, sc)
  {
    forall k, w | 0 <= k < |sc| && w in sc[k].wildcards
      ensures Get(m, w).kind == Import && (n < w < extent(n) || !NotAmong(w, scopes))
    {
      if !NotAmong(w, inner) {
        var j :| 0 <= j < |inner| && w in inner[j].wildcards;
      }
    }
  }

  lemma {:induction false} HandsScopes(m: Model, extent: Id -> Id, n: Id, scopes: seq<Scope>, s: Slot, sc: seq<Scope>, report: bool)
    requires Tree(m, extent) && Apart(m, extent, scopes, n) && Hands(m, n, scopes, s, sc, report)
    ensures Within(m, extent, n, scopes, sc)
    decreases if n < |m| then |m| - n else 0
  {
    hide Tree, Inner, Apart, Within, InnerScopes;
    var inner := InnerScopes(m, n, scopes);
    InnerWithin(m, extent, n, scopes);
    if !(report && HandsOwn(m, n, scopes, s, sc)) && !(!report && HandsImport(m, n, scopes, s, sc)) {
      var x :| x in Get(m, n).members && n < x < |m| && Hands(m, x, inner, s, sc, report);
      InnerApart(m, extent, n, scopes, x);
      HandsScopes(m, extent, x, inner, s, sc, report);
      TreeMember(m, extent, n, x);
      WithinTrans(m, extent, n, x, scopes, inner, sc);
    }
  }

  // ---- the main result -------------------------------------------------------------------------------

  /** The parts before and after the `i`th member. */
  lemma PartWalked(p: Progress, n: Id, i: nat, scopes: seq<Scope>)
    requires i < |Get(p.model, n).members| && HasParts(Get(p.model, n).kind)
    requires var x := Get(p.model, n).members[i]; n < x < |p.model|
    ensures var members, inner := Get(p.model, n).members, InnerScopes(p.model, n, scopes);
      var r := BeforePart(p, n, i, scopes);
      && Follows(AfterNames(p, n, scopes), r) && Follows(r, Walked(r, members[i], inner))
      && AfterParts(p, n, scopes) == MembersWalked(Walked(r, members[i], inner), n, members[i + 1..], inner)
  {
    hide MembersWalked, Walked, AfterNames, AfterRoles, InnerScopes, Follows;
    WalkedStages(p, n, scopes);
    FollowsTrans(p, AfterRoles(p, n, scopes), AfterNames(p, n, scopes));
    SameSlot(p, AfterNames(p, n, scopes), Slot(n, UsedRefs, 0));
    var members, inner := Get(p.model, n).members, InnerScopes(p.model, n, scopes);
    var q, r := AfterNames(p, n, scopes), BeforePart(p, n, i, scopes);
    MembersFollow(q, n, members[..i], inner);
    WalkFollows(r, members[i], inner);
    MembersNext(q, n, members, i, inner);
    PartsSplit(q, n, members[..i + 1], members[i + 1..], inner);
    assert members[..i + 1] + members[i + 1..] == members;
  }

  lemma PartFollows(p: Progress, n: Id, i: nat, scopes: seq<Scope>)
    requires i < |Get(p.model, n).members| && HasParts(Get(p.model, n).kind)
    requires n < Get(p.model, n).members[i] < |p.model|
    ensures Follows(p, BeforePart(p, n, i, scopes))
  {
    hide Follows, AfterNames, AfterRoles, BeforePart;
    WalkedStages(p, n, scopes);
    PartWalked(p, n, i, scopes);
    FollowsTrans(p, AfterRoles(p, n, scopes), AfterNames(p, n, scopes));
    FollowsTrans(p, AfterNames(p, n, scopes), BeforePart(p, n, i, scopes));
  }

  /** A reference of the `i`th member keeps still before and after that member is walked. */
  lemma PartSpared(p: Progress, extent: Id -> Id, n: Id, i: nat, scopes: seq<Scope>, s: Slot, sc: seq<Scope>)
    requires Tree(p.model, extent) && n < |p.model| && Apart(p.model, extent, scopes, n)
    requires i < |Get(p.model, n).members| && HasParts(Get(p.model, n).kind)
    requires var x := Get(p.model, n).members[i];
      && x <= s.element < extent(x) && Get(p.model, x).kind != Import && n < x < |p.model|
      && Within(p.model, extent, x, InnerScopes(p.model, n, scopes), sc)
    ensures var r, inner := BeforePart(p, n, i, scopes), InnerScopes(p.model, n, scopes);
      var z := Walked(r, Get(p.model, n).members[i], inner);
      && Follows(p, r) && Follows(z, Walked(p, n, scopes))
      && Keeps(p.model, r.model, s) && Keeps(z.model, Walked(p, n, scopes).model, s)
      && SameImports(z.model, Walked(p, n, scopes).model, sc)
  {
    hide Tree, MembersWalked, Walked, AfterNames, AfterParts, AfterRoles, InnerScopes, Follows, Keeps, Within, BeforePart, Confined;
    var members, inner := Get(p.model, n).members, InnerScopes(p.model, n, scopes);
    var x := members[i];
    var r := BeforePart(p, n, i, scopes);
    var z, q3 := Walked(r, x, inner), AfterParts(p, n, scopes);
    WalkedStages(p, n, scopes);
    PartWalked(p, n, i, scopes);
    FollowsTrans(p, AfterRoles(p, n, scopes), AfterNames(p, n, scopes));
    FollowsTrans(p, AfterNames(p, n, scopes), r);
    FollowsTrans(p, r, z);
    MembersFollow(z, n, members[i + 1..], inner);
    RolesFollow(q3, n, [UsedRefs], inner);
    FollowsSelf(q3);
    FollowsTrans(z, q3, Walked(p, n, scopes));
    EarlierKeeps(p, extent, n, i, scopes, s.element);
    SameElementKeeps(p.model, r.model, s);
    LaterKeeps(p, extent, n, i, scopes, s.element);
    SameElementKeeps(z.model, Walked(p, n, scopes).model, s);
    forall k, w | 0 <= k < |sc| && w in sc[k].wildcards ensures Get(Walked(p, n, scopes).model, w) == Get(z.model, w) {
      ScopesStill(p.model, extent, n, scopes, x, sc, k, w);
      LaterKeeps(p, extent, n, i, scopes, w);
    }
  }

  /** Where an import of the scopes of a reference below the member `x` of `n` can lie. */
  lemma ScopesStill(m: Model, extent: Id -> Id, n: Id, scopes: seq<Scope>, x: Id, sc: seq<Scope>, k: nat, w: Id)
    requires Tree(m, extent) && Apart(m, extent, scopes, n) && x in Get(m, n).members && HasParts(Get(m, n).kind)
    requires Within(m, extent, x, InnerScopes(m, n, scopes), sc) && k < |sc| && w in sc[k].wildcards
    requires Get(m, n).kind != Import
    ensures w != n
    ensures x <= w < extent(x) || (w in Get(m, n).members && Get(m, w).kind == Import) || !(n < w < extent(n))
  {
    hide Tree, InnerScopes;
    InnerApart(m, extent, n, scopes, x);
    if !NotAmong(w, InnerScopes(m, n, scopes)) {
      var j :| 0 <= j < |InnerScopes(m, n, scopes)| && w in InnerScopes(m, n, scopes)[j].wildcards;
    }
  }

  lemma EarlierKeeps(p: Progress, extent: Id -> Id, n: Id, i: nat, scopes: seq<Scope>, id: Id)
    requires Tree(p.model, extent) && n < |p.model|
    requires i < |Get(p.model, n).members| && HasParts(Get(p.model, n).kind)
    requires var x := Get(p.model, n).members[i]; x <= id < extent(x) && Get(p.model, x).kind != Import
    ensures Get(BeforePart(p, n, i, scopes).model, id) == Get(p.model, id)
  {
    hide Tree, RolesStepped, Declared, MembersWalked, Inner, Follows, InnerScopes;
    var members := Get(p.model, n).members;
    var x, q1, q2 := members[i], AfterRoles(p, n, scopes), AfterNames(p, n, scopes);
    WalkedStages(p, n, scopes);
    FollowsTrans(p, q1, q2);
    TreeKept(p, q2, extent);
    SameShape(p, q1, n);
    SameShape(p, q1, id);
    SameShape(p, q2, n);
    RolesFrame(p, n, EarlyRoles(Get(p.model, n).kind), scopes);
    TreeMember(p.model, extent, n, x);
    DeclaredFrame(q1, [], members, scopes, false);
    if id in members && id != x {
      TreeMember(p.model, extent, n, id);
      SiblingsApart(p.model, extent, n, x, id);
    }
    PartsFrame(q2, extent, n, members[..i], InnerScopes(p.model, n, scopes));
    forall y | y in members[..i] ensures y in members && y != x {
      var j :| 0 <= j < i && members[j] == y;
      NoRepeats(p.model, extent, n, j, i);
    }
    NotTouched(q2.model, extent, n, members[..i], x, id);
  }

  lemma LaterKeeps(p: Progress, extent: Id -> Id, n: Id, i: nat, scopes: seq<Scope>, id: Id)
    requires Tree(p.model, extent) && n < |p.model| && id != n
    requires i < |Get(p.model, n).members| && HasParts(Get(p.model, n).kind)
    requires var x := Get(p.model, n).members[i];
      && n < x < |p.model|
      && (x <= id < extent(x) || (id in Get(p.model, n).members && Get(p.model, id).kind == Import) || !(n < id < extent(n)))
    ensures var inner := InnerScopes(p.model, n, scopes);
      var z := Walked(BeforePart(p, n, i, scopes), Get(p.model, n).members[i], inner);
      Get(Walked(p, n, scopes).model, id) == Get(z.model, id)
  {
    hide Tree, RolesStepped, MembersWalked, Walked, Follows, InnerScopes, BeforePart, AfterParts, AfterNames, AfterRoles;
    var members, inner := Get(p.model, n).members, InnerScopes(p.model, n, scopes);
    var x, r := members[i], BeforePart(p, n, i, scopes);
    var z, q3 := Walked(r, x, inner), AfterParts(p, n, scopes);
    WalkedStages(p, n, scopes);
    PartWalked(p, n, i, scopes);
    FollowsTrans(p, AfterRoles(p, n, scopes), AfterNames(p, n, scopes));
    FollowsTrans(p, AfterNames(p, n, scopes), r);
    FollowsTrans(p, r, z);
    TreeKept(p, z, extent);
    SameShape(p, z, n);
    SameShape(p, z, id);
    PartsFrame(z, extent, n, members[i + 1..], inner);
    forall y | y in members[i + 1..] ensures y in members && y != x {
      var j :| i < j < |members| && members[j] == y;
      NoRepeats(p.model, extent, n, i, j);
    }
    NotTouched(z.model, extent, n, members[i + 1..], x, id);
    RolesFrame(q3, n, [UsedRefs], inner);
  }

  lemma NotImported(m: Model, extent: Id -> Id, n: Id, scopes: seq<Scope>)
    requires Tree(m, extent) && Apart(m, extent, scopes, n) && Get(m, n).kind != Import
    ensures NotAmong(n, scopes) && NotAmong(n, InnerScopes(m, n, scopes))
  {
    hide Tree, InnerScopes;
    InnerWithin(m, extent, n, scopes);
  }

  /** A reference of `n` itself changes only when its own list is resolved. */
  lemma OwnKeeps(p: Progress, extent: Id -> Id, n: Id, scopes: seq<Scope>, s: Slot)
    requires Tree(p.model, extent) && n < |p.model| && s.element == n
    ensures s.role !in EarlyRoles(Get(p.model, n).kind) ==> Keeps(p.model, AfterRoles(p, n, scopes).model, s)
    ensures Keeps(AfterRoles(p, n, scopes).model, AfterParts(p, n, scopes).model, s)
    ensures !(Get(p.model, n).kind == Definition && s.role == UsedRefs)
      ==> Keeps(AfterParts(p, n, scopes).model, Walked(p, n, scopes).model, s)
  {
    hide Tree, RolesStepped, AfterNames, AfterParts, Walked, Follows, InnerScopes, Keeps;
    var q1, q3 := AfterRoles(p, n, scopes), AfterParts(p, n, scopes);
    WalkedStages(p, n, scopes);
    StagesFrame(p, extent, n, scopes);
    RolesFrame(p, n, EarlyRoles(Get(p.model, n).kind), scopes);
    RolesFrame(q3, n, [UsedRefs], InnerScopes(p.model, n, scopes));
    SameElementKeeps(q1.model, q3.model, s);
    SameElementKeeps(q3.model, q3.model, s);
  }

  lemma OwnHandled(p: Progress, extent: Id -> Id, n: Id, scopes: seq<Scope>, s: Slot, sc: seq<Scope>)
    requires Tree(p.model, extent) && Apart(p.model, extent, scopes, n) && HandsOwn(p.model, n, scopes, s, sc)
    ensures Handled(p, Walked(p, n, scopes), s, sc, true)
  {
    hide Tree, RolesStepped, Declared, MembersWalked, Inner, Walked, Follows, Handled, SameImports, Keeps, Confined, NotAmong,
         AfterNames, AfterParts;
    var q1, q2, q3 := AfterRoles(p, n, scopes), AfterNames(p, n, scopes), AfterParts(p, n, scopes);
    var q, k := Walked(p, n, scopes), Get(p.model, n).kind;
    WalkedStages(p, n, scopes);
    FollowsTrans(q1, q2, q3);
    FollowsTrans(p, q1, q3);
    OwnKeeps(p, extent, n, scopes, s);
    if k == Definition && s.role == UsedRefs {
      KeepsTrans(p.model, q1.model, q3.model, s);
      KeptSlot(p.model, q3.model, s);
      NotImported(p.model, extent, n, scopes);
      RolesHandle(q3, n, [UsedRefs], sc, s);
      HandledAfter(p, q3, q, s, sc, true);
    } else {
      NotImported(p.model, extent, n, scopes);
      RolesHandle(p, n, EarlyRoles(k), scopes, s);
      ScopesSpared(p, extent, n, scopes);
      SameImportsTrans(q1.model, q2.model, q3.model, scopes);
      HandledBefore(p, q1, q3, s, sc, true);
      RolesFollow(q3, n, [UsedRefs], InnerScopes(p.model, n, scopes));
      FollowsSelf(q3);
      HandledBefore(p, q3, q, s, sc, true);
    }
  }

  lemma ImportHandled(p: Progress, extent: Id -> Id, n: Id, scopes: seq<Scope>, s: Slot)
    requires Tree(p.model, extent) && Apart(p.model, extent, scopes, n) && HandsImport(p.model, n, scopes, s, scopes)
    ensures Handled(p, Walked(p, n, scopes), s, scopes, false)
  {
    hide Tree, RolesStepped, Declared, MembersWalked, Inner, Walked, Follows, Handled, SameImports, Keeps, NotAmong, AfterParts, Apart;
    var members := Get(p.model, n).members;
    var q1, q2, q3 := AfterRoles(p, n, scopes), AfterNames(p, n, scopes), AfterParts(p, n, scopes);
    var q := Walked(p, n, scopes);
    WalkedStages(p, n, scopes);
    ScopesSpared(p, extent, n, scopes);
    StagesFrame(p, extent, n, scopes);
    TreeMember(p.model, extent, n, s.element);
    SameElementKeeps(p.model, q1.model, s);
    SameShape(p, q1, s.element);
    var i :| 0 <= i < |members| && members[i] == s.element;
    forall j | 0 <= j < |members| && j != i ensures members[j] != members[i] {
      NoRepeats(p.model, extent, n, if i < j then i else j, if i < j then j else i);
    }
    forall x | x in members ensures NotAmong(x, scopes) { MemberNotAmong(p.model, extent, n, scopes, x); }
    NamesHandle(q1, members, scopes, i, s);
    HandledAfter(p, q1, q2, s, scopes, false);
    ImportStill(p, extent, n, scopes, s.element);
    SameElementKeeps(q2.model, q.model, s);
    RolesFollow(q3, n, [UsedRefs], InnerScopes(p.model, n, scopes));
    FollowsSelf(q3);
    FollowsTrans(q2, q3, q);
    SameImportsTrans(q2.model, q3.model, q.model, scopes);
    HandledBefore(p, q2, q, s, scopes, false);
  }

  lemma MemberNotAmong(m: Model, extent: Id -> Id, n: Id, scopes: seq<Scope>, x: Id)
    requires Tree(m, extent) && Apart(m, extent, scopes, n) && Scoped(Get(m, n).kind) && x in Get(m, n).members
    ensures NotAmong(x, scopes)
  {
    hide Tree;
    TreeMember(m, extent, n, x);
  }

  /** Once the names are declared, the imports among the members do not change. */
  lemma ImportStill(p: Progress, extent: Id -> Id, n: Id, scopes: seq<Scope>, w: Id)
    requires Tree(p.model, extent) && n < |p.model| && w in Get(p.model, n).members && Get(p.model, w).kind == Import
    ensures |AfterNames(p, n, scopes).model| == |Walked(p, n, scopes).model|
    ensures Get(Walked(p, n, scopes).model, w) == Get(AfterNames(p, n, scopes).model, w)
  {
    hide Tree, RolesStepped, MembersWalked, Walked, Follows, InnerScopes, AfterNames, AfterRoles;
    var members, inner := Get(p.model, n).members, InnerScopes(p.model, n, scopes);
    var q2, q3 := AfterNames(p, n, scopes), AfterParts(p, n, scopes);
    WalkedStages(p, n, scopes);
    FollowsTrans(p, AfterRoles(p, n, scopes), q2);
    TreeKept(p, q2, extent);
    SameShape(p, q2, n);
    SameShape(p, q2, w);
    PartsFrame(q2, extent, n, members, inner);
    ImportUntouched(q2.model, extent, n, members, w);
    RolesFrame(q3, n, [UsedRefs], inner);
    TreeMember(p.model, extent, n, w);
  }

  /** Every reference the walk of `n` hands to the name resolution is handled, once, in its
      scopes, and then left alone. */
  lemma {:induction false} WalkHandles(p: Progress, extent: Id -> Id, n: Id, scopes: seq<Scope>, s: Slot, sc: seq<Scope>, report: bool)
    requires Tree(p.model, extent) && Apart(p.model, extent, scopes, n) && Hands(p.model, n, scopes, s, sc, report)
    ensures Handled(p, Walked(p, n, scopes), s, sc, report)
    decreases if n < |p.model| then |p.model| - n else 0
  {
    hide Tree, Walked, Follows, Handled, SameImports, Keeps, NotAmong, Apart, InnerScopes, BeforePart, Within;
    var inner, q := InnerScopes(p.model, n, scopes), Walked(p, n, scopes);
    HandsRange(p.model, extent, n, scopes, s, sc, report);
    if report && HandsOwn(p.model, n, scopes, s, sc) {
      OwnHandled(p, extent, n, scopes, s, sc);
    } else if !report && HandsImport(p.model, n, scopes, s, sc) {
      ImportHandled(p, extent, n, scopes, s);
    } else {
      var x :| x in Get(p.model, n).members && n < x < |p.model| && Hands(p.model, x, inner, s, sc, report);
      var i :| 0 <= i < |Get(p.model, n).members| && Get(p.model, n).members[i] == x;
      var r := BeforePart(p, n, i, scopes);
      var z := Walked(r, x, inner);
      HandsRange(p.model, extent, x, inner, s, sc, report);
      InnerApart(p.model, extent, n, scopes, x);
      HandsScopes(p.model, extent, x, inner, s, sc, report);
      PartSpared(p, extent, n, i, scopes, s, sc);
      TreeKept(p, r, extent);
      ApartKept(p, r, extent, inner, x);
      HandsKept(p, r, x, inner, s, sc, report);
      SameSlot(p, r, s);
      WalkHandles(r, extent, x, inner, s, sc, report);
      HandledAfter(p, r, z, s, sc, report);
      HandledBefore(p, z, q, s, sc, report);
    }
  }

  lemma ApartKept(p: Progress, q: Progress, extent: Id -> Id, scopes: seq<Scope>, n: Id)
    requires Follows(p, q) && Apart(p.model, extent, scopes, n)
    ensures Apart(q.model, extent, scopes, n)
  {
    hide Follows;
    SameShape(p, q, n);
    forall k, w | 0 <= k < |scopes| && w in scopes[k].wildcards ensures Get(q.model, w).kind == Get(p.model, w).kind {
      SameShape(p, q, w);
    }
  }
}
