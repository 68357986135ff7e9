/** The two-phase resolver: it walks the tree and binds references in source order. */
module Resolver {
  import opened Basics
  import opened Elements
  import opened Lookup
  import opened Naming

  // ---- references of an element ---------------------------------------------------

  datatype Role = TypeRefs | SuperRefs | RedefinedRefs | EndRefs | TargetRefs | UsedRefs

  function RefsOf(e: Element, role: Role): seq<Ref> {
    match role
    case TypeRefs => e.types
    case SuperRefs => e.specializes
    case RedefinedRefs => e.redefines
    case EndRefs => e.ends
    case TargetRefs => e.target
    case UsedRefs => e.uses
  }

  function Put(e: Element, role: Role, refs: seq<Ref>): Element {
    match role
    case TypeRefs => e.(types := refs)
    case SuperRefs => e.(specializes := refs)
    case RedefinedRefs => e.(redefines := refs)
    case EndRefs => e.(ends := refs)
    case TargetRefs => e.(target := refs)
    case UsedRefs => e.(uses := refs)
  }

  datatype Slot = Slot(element: Id, role: Role, index: nat)

  predicate IsSlot(m: Model, s: Slot) {
    s.element < |m| && s.index < |RefsOf(m[s.element], s.role)|
  }

  function RefAt(m: Model, s: Slot): Ref
    requires IsSlot(m, s)
  {
    RefsOf(m[s.element], s.role)[s.index]
  }

  function Bind(m: Model, s: Slot, id: Id, parity: bool): Model
    requires IsSlot(m, s)
  {
    var e := m[s.element];
    var refs := RefsOf(e, s.role);
    m[s.element := Put(e, s.role, refs[s.index := refs[s.index].(target := Some(id), parity := parity)])]
  }

  // ---- how the model may change -----------------------------------------------------

  predicate RefsExtend(a: seq<Ref>, b: seq<Ref>) {
    |a| == |b| && forall i | 0 <= i < |a| ::
      a[i].parts == b[i].parts && a[i].conjugated == b[i].conjugated && (a[i].target.Some? ==> b[i] == a[i])
  }

  predicate ElementExtends(a: Element, b: Element) {
    && b == a.(types := b.types, specializes := b.specializes, redefines := b.redefines, ends := b.ends,
               target := b.target, uses := b.uses)
    && RefsExtend(a.types, b.types) && RefsExtend(a.specializes, b.specializes)
    && RefsExtend(a.redefines, b.redefines) && RefsExtend(a.ends, b.ends)
    && RefsExtend(a.target, b.target) && RefsExtend(a.uses, b.uses)
  }

  /** Only bindings are new; every existing one is as it was. */
  predicate Extends(a: Model, b: Model) {
    |a| == |b| && forall id | 0 <= id < |a| :: ElementExtends(a[id], b[id])
  }

  lemma ExtendsTrans(a: Model, b: Model, c: Model)
    requires Extends(a, b) && Extends(b, c)
    ensures Extends(a, c)
  {
    forall id | 0 <= id < |a| ensures ElementExtends(a[id], c[id]) {
      assert ElementExtends(a[id], b[id]) && ElementExtends(b[id], c[id]);
    }
  }

  lemma ExtendsLength(a: Model, b: Model)
    requires Extends(a, b)
    ensures |a| == |b|
  {
  }

  lemma ExtendsShape(a: Model, b: Model, id: Id)
    requires Extends(a, b)
    ensures Get(b, id).name == Get(a, id).name && Get(b, id).kind == Get(a, id).kind
    ensures Get(b, id).members == Get(a, id).members && Get(b, id).wildcard == Get(a, id).wildcard
  {
    if id < |a| { assert ElementExtends(a[id], b[id]); }
  }

  lemma PutExtends(e: Element, role: Role, refs: seq<Ref>)
    requires RefsExtend(RefsOf(e, role), refs)
    ensures ElementExtends(e, Put(e, role, refs))
  {
    hide RefsExtend;
    RefsExtendRefl(e.types);
    RefsExtendRefl(e.specializes);
    RefsExtendRefl(e.redefines);
    RefsExtendRefl(e.ends);
    RefsExtendRefl(e.target);
    RefsExtendRefl(e.uses);
  }

  lemma RefsExtendRefl(a: seq<Ref>)
    ensures RefsExtend(a, a)
  {
  }

  lemma ElementExtendsRefl(e: Element)
    ensures ElementExtends(e, e)
  {
    PutExtends(e, UsedRefs, e.uses);
  }

  lemma ExtendsRefl(m: Model)
    ensures Extends(m, m)
  {
    hide ElementExtends;
    forall id | 0 <= id < |m| ensures ElementExtends(m[id], m[id]) {
      ElementExtendsRefl(m[id]);
    }
  }

  lemma BindExtends(m: Model, s: Slot, id: Id, parity: bool)
    requires IsSlot(m, s) && RefAt(m, s).target.None?
    ensures Extends(m, Bind(m, s, id, parity))
  {
    hide ElementExtends, RefsOf, Put;
    var b := Bind(m, s, id, parity);
    forall k | 0 <= k < |m| ensures ElementExtends(m[k], b[k]) {
      if k == s.element {
        var refs := RefsOf(m[k], s.role);
        PutExtends(m[k], s.role, refs[s.index := refs[s.index].(target := Some(id), parity := parity)]);
      } else {
        ElementExtendsRefl(m[k]);
      }
    }
  }

  // ---- scopes ---------------------------------------------------------------------------

  /** `declareName`: a name that is already declared stays with its first declaration. */
  function Declare(m: Model, symbols: seq<Id>, x: Id): seq<Id> {
    if Get(m, x).name == "" || FirstNamed(m, symbols, Get(m, x).name).Some? then symbols else symbols + [x]
  }

  /** The names declared by `members`, after `start`. */
  function Symbols(m: Model, start: seq<Id>, members: seq<Id>): seq<Id> {
    if members == [] then start
    else
      var last := members[|members| - 1];
      var before := Symbols(m, start, members[..|members| - 1]);
      if Get(m, last).kind == Import then before else Declare(m, before, last)
  }

  function Wildcards(m: Model, members: seq<Id>): seq<Id> {
    if members == [] then []
    else
      var last := members[|members| - 1];
      Wildcards(m, members[..|members| - 1]) +
        if Get(m, last).kind == Import && Get(m, last).wildcard then [last] else []
  }

  function Inner(m: Model, start: seq<Id>, members: seq<Id>): Scope {
    Scope(Symbols(m, start, members), Wildcards(m, members))
  }

  lemma {:induction false} FirstNamedStable(a: Model, b: Model, ids: seq<Id>, name: string)
    requires Extends(a, b)
    ensures FirstNamed(b, ids, name) == FirstNamed(a, ids, name)
  {
    hide Extends;
    if ids != [] {
      ExtendsShape(a, b, ids[0]);
      FirstNamedStable(a, b, ids[1..], name);
    }
  }

  lemma {:induction false} InnerStable(a: Model, b: Model, start: seq<Id>, members: seq<Id>)
    requires Extends(a, b)
    ensures Inner(b, start, members) == Inner(a, start, members)
    decreases |members|
  {
    hide Extends;
    if members != [] {
      var last, front := members[|members| - 1], members[..|members| - 1];
      InnerStable(a, b, start, front);
      ExtendsShape(a, b, last);
      FirstNamedStable(a, b, Symbols(a, start, front), Get(a, last).name);
    }
  }

  // ---- what one step does to the model and to the error count ---------------------------------

  datatype Progress = Progress(model: Model, errors: nat)

  /** One reference: bound when its path is found, counted when it is undefined. */
  function Stepped(p: Progress, s: Slot, scopes: seq<Scope>, report: bool): (q: Progress)
    ensures |q.model| == |p.model|
  {
    if !IsSlot(p.model, s) || RefAt(p.model, s).parts == [] || RefAt(p.model, s).target.Some? then p
    else match Resolve(p.model, scopes, RefAt(p.model, s))
      case Found(id, parity) => p.(model := Bind(p.model, s, id, parity))
      case Tolerated => p
      case Undefined => p.(errors := p.errors + if report then 1 else 0)
  }

  /** The first `n` references of a list, of the redefinitions only the longer paths. */
  function ListStepped(p: Progress, id: Id, role: Role, scopes: seq<Scope>, n: nat): (q: Progress)
    ensures |q.model| == |p.model|
  {
    if n == 0 then p
    else
      var q, s := ListStepped(p, id, role, scopes, n - 1), Slot(id, role, n - 1);
      if role == RedefinedRefs && IsSlot(q.model, s) && |RefAt(q.model, s).parts| <= 1 then q
      else Stepped(q, s, scopes, true)
  }

  /** The members of a container: an import has its target resolved in the enclosing scopes,
      at the root in what is declared before it; a name that is taken is counted. */
  function Declared(p: Progress, start: seq<Id>, members: seq<Id>, outer: seq<Scope>, root: bool): (q: Progress)
    ensures |q.model| == |p.model|
  {
    if members == [] then p
    else
      var front, x := members[..|members| - 1], members[|members| - 1];
      var q, scope := Declared(p, start, front, outer, root), Inner(p.model, start, front);
      if Get(p.model, x).kind == Import then Stepped(q, Slot(x, TargetRefs, 0), if root then [scope] else outer, false)
      else if Get(p.model, x).name != "" && FirstNamed(p.model, scope.symbols, Get(p.model, x).name).Some? then
        q.(errors := q.errors + 1)
      else q
  }

  /** The reference lists of one element. */
  function RolesStepped(p: Progress, id: Id, roles: seq<Role>, scopes: seq<Scope>): (q: Progress)
    ensures |q.model| == |p.model|
  {
    if roles == [] then p
    else
      var last := roles[|roles| - 1];
      var q := RolesStepped(p, id, roles[..|roles| - 1], scopes);
      ListStepped(q, id, last, scopes, |RefsOf(Get(q.model, id), last)|)
  }

  /** The members of `n`, one after the other. */
  function MembersWalked(p: Progress, n: Id, members: seq<Id>, scopes: seq<Scope>): (q: Progress)
    ensures |q.model| == |p.model|
    decreases if n < |p.model| then |p.model| - n else 0, 0, |members|
  {
    if members == [] then p
    else
      var q, x := MembersWalked(p, n, members[..|members| - 1], scopes), members[|members| - 1];
      if n < x < |q.model| then Walked(q, x, scopes) else q
  }

  /** A new scope: its names, then its members. */
  function ScopeWalked(p: Progress, n: Id, scopes: seq<Scope>): (q: Progress)
    ensures |q.model| == |p.model|
    decreases if n < |p.model| then |p.model| - n else 0, 1
  {
    var members := Get(p.model, n).members;
    MembersWalked(Declared(p, [], members, scopes, false), n, members, [Inner(p.model, [], members)] + scopes)
  }

  /** The reference lists that are resolved first, in the enclosing scopes. */
  function EarlyRoles(k: ElementKind): seq<Role> {
    match k
    case Definition => [SuperRefs, RedefinedRefs]
    case Usage => [TypeRefs, SuperRefs, RedefinedRefs, EndRefs, UsedRefs]
    case Attribute => [TypeRefs, SuperRefs, RedefinedRefs, UsedRefs]
    case Alias => [TargetRefs]
    case Statement => [UsedRefs]
    case _ => []
  }

  /** `resolveNode` as a function of the model and the error count. */
  function Walked(p: Progress, n: Id, scopes: seq<Scope>): (q: Progress)
    ensures |q.model| == |p.model|
    decreases if n < |p.model| then |p.model| - n else 0, 2
  {
    var q := RolesStepped(p, n, EarlyRoles(Get(p.model, n).kind), scopes);
    match Get(p.model, n).kind
    case Program => MembersWalked(p, n, Get(p.model, n).members, scopes)
    case Package => ScopeWalked(p, n, scopes)
    case Definition =>
      RolesStepped(ScopeWalked(q, n, scopes), n, [UsedRefs], [Inner(p.model, [], Get(p.model, n).members)] + scopes)
    case Usage => ScopeWalked(q, n, scopes)
    case Statement => MembersWalked(q, n, Get(q.model, n).members, scopes)
    case _ => q
  }

  /** `resolveProgram`: the library and the members of the root, then the members' bodies. */
  function ProgramWalked(m: Model, program: Id, library: Id): Progress {
    var members := Get(m, program).members;
    MembersWalked(Declared(Progress(m, 0), [library], members, [], true), program, members, [Inner(m, [library], members)])
  }

  lemma MembersNext(p: Progress, n: Id, members: seq<Id>, i: nat, scopes: seq<Scope>)
    requires i < |members|
    ensures var q := MembersWalked(p, n, members[..i], scopes);
      MembersWalked(p, n, members[..i + 1], scopes)
        == if n < members[i] < |q.model| then Walked(q, members[i], scopes) else q
  {
    hide Walked;
    assert members[..i + 1][..i] == members[..i];
  }

  lemma RolesNext(p: Progress, id: Id, roles: seq<Role>, i: nat, scopes: seq<Scope>)
    requires i < |roles|
    ensures var q := RolesStepped(p, id, roles[..i], scopes);
      RolesStepped(p, id, roles[..i + 1], scopes) == ListStepped(q, id, roles[i], scopes, |RefsOf(Get(q.model, id), roles[i])|)
  {
    hide ListStepped, RefsOf;
    assert roles[..i + 1][..i] == roles[..i];
  }

  lemma RolesNone(p: Progress, id: Id, scopes: seq<Scope>)
    ensures RolesStepped(p, id, [], scopes) == p
  {
  }

  lemma DeclareNone(p: Progress, start: seq<Id>, outer: seq<Scope>, root: bool)
    ensures Declared(p, start, [], outer, root) == p && Inner(p.model, start, []) == Scope(start, [])
  {
  }

  lemma DeclareNext(p: Progress, start: seq<Id>, members: seq<Id>, i: nat, outer: seq<Scope>, root: bool)
    requires i < |members|
    ensures var q, x, scope := Declared(p, start, members[..i], outer, root), members[i], Inner(p.model, start, members[..i]);
      && Declared(p, start, members[..i + 1], outer, root) ==
        (if Get(p.model, x).kind == Import then
           if x >= |q.model| || Get(q.model, x).target == [] then q
           else Stepped(q, Slot(x, TargetRefs, 0), if root then [scope] else outer, false)
         else if Get(p.model, x).name != "" && FirstNamed(p.model, scope.symbols, Get(p.model, x).name).Some? then
           q.(errors := q.errors + 1)
         else q)
      && Inner(p.model, start, members[..i + 1]) ==
        (if Get(p.model, x).kind == Import then
           if Get(p.model, x).wildcard then scope.(wildcards := scope.wildcards + [x]) else scope
         else scope.(symbols := Declare(p.model, scope.symbols, x)))
  {
    hide Resolve, Bind, FirstNamed;
    assert members[..i + 1][..i] == members[..i];
  }

  // ---- no step changes more than bindings -------------------------------------------------------

  /** `q` comes after `p`: bindings were added and errors were counted. */
  ghost predicate Follows(p: Progress, q: Progress) {
    Extends(p.model, q.model) && p.errors <= q.errors
  }

  lemma FollowsTrans(p: Progress, q: Progress, r: Progress)
    requires Follows(p, q) && Follows(q, r)
    ensures Follows(p, r)
  {
    hide Extends;
    ExtendsTrans(p.model, q.model, r.model);
  }

  lemma FollowsSelf(p: Progress)
    ensures Follows(p, p)
  {
    hide Extends;
    ExtendsRefl(p.model);
  }

  lemma StepFollows(p: Progress, s: Slot, scopes: seq<Scope>, report: bool)
    ensures Follows(p, Stepped(p, s, scopes, report))
  {
    hide Extends, Resolve, RefsOf, Bind;
    ExtendsRefl(p.model);
    if IsSlot(p.model, s) && RefAt(p.model, s).parts != [] && RefAt(p.model, s).target.None? {
      var o := Resolve(p.model, scopes, RefAt(p.model, s));
      if o.Found? { BindExtends(p.model, s, o.id, o.parity); }
    }
  }

  lemma {:induction false} ListFollows(p: Progress, id: Id, role: Role, scopes: seq<Scope>, n: nat)
    ensures Follows(p, ListStepped(p, id, role, scopes, n))
  {
    hide Follows, Stepped, RefsOf;
    FollowsSelf(p);
    if n > 0 {
      var q, s := ListStepped(p, id, role, scopes, n - 1), Slot(id, role, n - 1);
      ListFollows(p, id, role, scopes, n - 1);
      StepFollows(q, s, scopes, true);
      FollowsTrans(p, q, Stepped(q, s, scopes, true));
    }
  }

  lemma {:induction false} RolesFollow(p: Progress, id: Id, roles: seq<Role>, scopes: seq<Scope>)
    ensures Follows(p, RolesStepped(p, id, roles, scopes))
    decreases |roles|
  {
    hide Follows, ListStepped, RefsOf;
    FollowsSelf(p);
    if roles != [] {
      var last, q := roles[|roles| - 1], RolesStepped(p, id, roles[..|roles| - 1], scopes);
      var n := |RefsOf(Get(q.model, id), last)|;
      RolesFollow(p, id, roles[..|roles| - 1], scopes);
      ListFollows(q, id, last, scopes, n);
      FollowsTrans(p, q, ListStepped(q, id, last, scopes, n));
    }
  }

  lemma {:induction false} DeclaredFollows(p: Progress, start: seq<Id>, members: seq<Id>, outer: seq<Scope>, root: bool)
    ensures Follows(p, Declared(p, start, members, outer, root))
    decreases |members|
  {
    hide Extends, Stepped, FirstNamed;
    FollowsSelf(p);
    if members != [] {
      var front, x := members[..|members| - 1], members[|members| - 1];
      var q, scopes := Declared(p, start, front, outer, root), if root then [Inner(p.model, start, front)] else outer;
      DeclaredFollows(p, start, front, outer, root);
      StepFollows(q, Slot(x, TargetRefs, 0), scopes, false);
      FollowsTrans(p, q, Stepped(q, Slot(x, TargetRefs, 0), scopes, false));
    }
  }

  lemma {:induction false} MembersFollow(p: Progress, n: Id, members: seq<Id>, scopes: seq<Scope>)
    ensures Follows(p, MembersWalked(p, n, members, scopes))
    decreases if n < |p.model| then |p.model| - n else 0, 0, |members|
  {
    hide Follows, Walked;
    FollowsSelf(p);
    if members != [] {
      var q, x := MembersWalked(p, n, members[..|members| - 1], scopes), members[|members| - 1];
      MembersFollow(p, n, members[..|members| - 1], scopes);
      if n < x < |q.model| {
        WalkFollows(q, x, scopes);
        FollowsTrans(p, q, Walked(q, x, scopes));
      }
    }
  }

  lemma {:induction false} ScopeFollows(p: Progress, n: Id, scopes: seq<Scope>)
    ensures Follows(p, ScopeWalked(p, n, scopes))
    decreases if n < |p.model| then |p.model| - n else 0, 1
  {
    hide Follows, MembersWalked, Declared, Inner;
    var members := Get(p.model, n).members;
    var q, inner := Declared(p, [], members, scopes, false), [Inner(p.model, [], members)] + scopes;
    DeclaredFollows(p, [], members, scopes, false);
    MembersFollow(q, n, members, inner);
    FollowsTrans(p, q, MembersWalked(q, n, members, inner));
  }

  /** A whole run only adds bindings, so a later run never changes one. */
  lemma {:induction false} WalkFollows(p: Progress, n: Id, scopes: seq<Scope>)
    ensures Follows(p, Walked(p, n, scopes))
    decreases if n < |p.model| then |p.model| - n else 0, 2
  {
    hide Follows, MembersWalked, ScopeWalked, RolesStepped, Inner;
    var roles, members := EarlyRoles(Get(p.model, n).kind), Get(p.model, n).members;
    var q := RolesStepped(p, n, roles, scopes);
    FollowsSelf(p);
    RolesFollow(p, n, roles, scopes);
    match Get(p.model, n).kind
    case Program => MembersFollow(p, n, members, scopes);
    case Package => ScopeFollows(p, n, scopes);
    case Definition =>
      var r, inner := ScopeWalked(q, n, scopes), [Inner(p.model, [], members)] + scopes;
      ScopeFollows(q, n, scopes);
      FollowsTrans(p, q, r);
      RolesFollow(r, n, [UsedRefs], inner);
      FollowsTrans(p, r, RolesStepped(r, n, [UsedRefs], inner));
    case Usage =>
      ScopeFollows(q, n, scopes);
      FollowsTrans(p, q, ScopeWalked(q, n, scopes));
    case Statement =>
      MembersFollow(q, n, Get(q.model, n).members, scopes);
      FollowsTrans(p, q, MembersWalked(q, n, Get(q.model, n).members, scopes));
    case _ =>
  }

  // ---- the code ------------------------------------------------------------------------------

  /** Members come after their container and exist. */
  predicate Contained(m: Model) {
    forall c | 0 <= c < |m| :: forall x | x in m[c].members :: c < x < |m|
  }

  lemma StaysContained(a: Model, b: Model)
    requires Contained(a) && Extends(a, b)
    ensures Contained(b)
  {
    hide Extends;
    ExtendsLength(a, b);
    forall c, x | 0 <= c < |b| && x in b[c].members ensures c < x < |b| {
      ExtendsShape(a, b, c);
      assert x in a[c].members;
    }
  }

  class Resolver {
    var m: Model
    var errorCount: nat

    constructor (model: Model)
      ensures m == model && errorCount == 0
    {
      m, errorCount := model, 0;
    }

    ghost function Now(): Progress
      reads this
    {
      Progress(m, errorCount)
    }

    /** `resolveQualifiedNameImpl`. */
    method ResolveQualifiedName(s: Slot, scopes: seq<Scope>, report: bool)
      requires IsSlot(m, s)
      modifies this
      ensures Now() == Stepped(old(Now()), s, scopes, report)
      ensures Follows(old(Now()), Now())
    {
      hide Resolve, RefsOf, Bind, Extends;
      StepFollows(Now(), s, scopes, report);
      var r := RefAt(m, s);
      if r.parts == [] || r.target.Some? {
        return;
      }
      var o := ResolveName(m, scopes, r);
      match o
      case Found(id, parity) => m := Bind(m, s, id, parity);
      case Tolerated =>
      case Undefined => if report { errorCount := errorCount + 1; }
    }

    /** `resolveNodeList`, and `resolveMultiSegmentRedefs` for redefinitions. */
    method ResolveList(id: Id, role: Role, scopes: seq<Scope>)
      requires id < |m|
      modifies this
      ensures Now() == ListStepped(old(Now()), id, role, scopes, |RefsOf(Get(old(m), id), role)|)
      ensures Follows(old(Now()), Now())
    {
      hide Follows, Stepped, RefsOf;
      ghost var p, n := Now(), |RefsOf(m[id], role)|;
      FollowsSelf(p);
      var i := 0;
      while i < |RefsOf(m[id], role)|
        invariant i <= n && |m| == |p.model| && |RefsOf(m[id], role)| == n
        invariant Follows(p, Now()) && Now() == ListStepped(p, id, role, scopes, i)
        decreases n - i
      {
        var s := Slot(id, role, i);
        if role != RedefinedRefs || |RefAt(m, s).parts| > 1 {
          ghost var before := Now();
          ResolveQualifiedName(s, scopes, true);
          FollowsTrans(p, before, Now());
          SameLists(p, Now(), id, role);
        }
        i := i + 1;
      }
    }

    /** The reference lists of one element, in the order given. */
    method ResolveLists(id: Id, roles: seq<Role>, scopes: seq<Scope>)
      requires id < |m|
      modifies this
      ensures Now() == RolesStepped(old(Now()), id, roles, scopes)
      ensures Follows(old(Now()), Now())
    {
      hide Follows, ListStepped, RefsOf;
      ghost var p := Now();
      FollowsSelf(p);
      var i := 0;
      while i < |roles|
        invariant i <= |roles| && |m| == |p.model|
        invariant Follows(p, Now()) && Now() == RolesStepped(p, id, roles[..i], scopes)
      {
        ghost var before := Now();
        RolesNext(p, id, roles, i, scopes);
        ResolveList(id, roles[i], scopes);
        FollowsTrans(p, before, Now());
        i := i + 1;
      }
      assert roles[..i] == roles;
    }

    /** `declareMembers`: names and wildcard imports of a container; import targets are bound
        against the enclosing scopes, at the root against what is declared so far. */
    method DeclareMembers(n: Id, start: seq<Id>, outer: seq<Scope>, root: bool) returns (inner: Scope)
      requires Contained(m) && n < |m|
      modifies this
      ensures inner == Inner(old(m), start, Get(old(m), n).members)
      ensures Now() == Declared(old(Now()), start, Get(old(m), n).members, outer, root)
      ensures Follows(old(Now()), Now())
    {
      hide Follows, Stepped, FirstNamed, RefsOf, Declared, Inner;
      ghost var p := Now();
      var members := Get(m, n).members;
      inner := Scope(start, []);
      FollowsSelf(p);
      DeclareNone(p, start, outer, root);
      var i := 0;
      while i < |members|
        invariant i <= |members| && |m| == |p.model|
        invariant inner == Inner(p.model, start, members[..i])
        invariant Follows(p, Now()) && Now() == Declared(p, start, members[..i], outer, root)
      {
        var x := members[i];
        assert x in p.model[n].members;
        DeclareNext(p, start, members, i, outer, root);
        SameShape(p, Now(), x);
        if Get(m, x).kind == Import {
          if Get(m, x).target != [] {
            ghost var before := Now();
            TargetIsSlot(m, x);
            ResolveQualifiedName(Slot(x, TargetRefs, 0), if root then [inner] else outer, false);
            FollowsTrans(p, before, Now());
            SameShape(p, Now(), x);
          }
          if Get(m, x).wildcard { inner := inner.(wildcards := inner.wildcards + [x]); }
        } else {
          SameNamed(p, Now(), inner.symbols, Get(m, x).name);
          if Get(m, x).name != "" {
            var previous := FindNamed(m, inner.symbols, Get(m, x).name);
            if previous.Some? {
              CountError(p);
            } else {
              inner := inner.(symbols := inner.symbols + [x]);
            }
          }
        }
        i := i + 1;
      }
      assert members[..i] == members;
    }

    method CountError(ghost p: Progress)
      requires Follows(p, Now())
      modifies this`errorCount
      ensures errorCount == old(errorCount) + 1 && Follows(p, Now())
    {
      errorCount := errorCount + 1;
    }

    /** The members of `n`, in order. */
    method WalkMembers(n: Id, scopes: seq<Scope>)
      requires Contained(m) && n < |m|
      modifies this
      ensures Now() == MembersWalked(old(Now()), n, Get(old(m), n).members, scopes)
      ensures Follows(old(Now()), Now()) && Contained(m)
      decreases |m| - n, 0
    {
      hide Follows, Walked, Contained;
      ghost var p := Now();
      var members := Get(m, n).members;
      FollowsSelf(p);
      var i := 0;
      while i < |members|
        invariant i <= |members| && |m| == |p.model| && Contained(m)
        invariant Follows(p, Now()) && Now() == MembersWalked(p, n, members[..i], scopes)
      {
        ghost var before := Now();
        MembersNext(p, n, members, i, scopes);
        MemberContained(p.model, n, members[i]);
        Walk(members[i], scopes);
        FollowsTrans(p, before, Now());
        i := i + 1;
      }
      assert members[..i] == members;
    }

    /** `resolveScopeBody`: declares the members of `n` in a new scope, then resolves them. */
    method ResolveScopeBody(n: Id, scopes: seq<Scope>) returns (inner: seq<Scope>)
      requires Contained(m) && n < |m|
      modifies this
      ensures inner == [Inner(old(m), [], Get(old(m), n).members)] + scopes
      ensures Now() == ScopeWalked(old(Now()), n, scopes)
      ensures Follows(old(Now()), Now()) && Contained(m)
      decreases |m| - n, 1
    {
      hide Follows, MembersWalked, Declared, Inner, Contained;
      ghost var p := Now();
      var scope := DeclareMembers(n, [], scopes, false);
      inner := [scope] + scopes;
      ghost var q := Now();
      SameShape(p, q, n);
      KeepsContained(p, q);
      WalkMembers(n, inner);
      FollowsTrans(p, q, Now());
    }

    /** `resolveNode`. */
    method Walk(n: Id, scopes: seq<Scope>)
      requires Contained(m) && n < |m|
      modifies this
      ensures Now() == Walked(old(Now()), n, scopes)
      ensures Follows(old(Now()), Now()) && Contained(m)
      decreases |m| - n, 2
    {
      hide Follows, MembersWalked, ScopeWalked, RolesStepped, Inner, Contained;
      ghost var p := Now();
      FollowsSelf(p);
      match Get(m, n).kind
      case Program => WalkMembers(n, scopes);
      case Package => var inner := ResolveScopeBody(n, scopes);
      case Definition =>
        ResolveLists(n, [SuperRefs, RedefinedRefs], scopes);
        ghost var q := Now();
        KeepsContained(p, q);
        SameScope(p, q, n);
        var inner := ResolveScopeBody(n, scopes);
        ghost var r := Now();
        FollowsTrans(p, q, r);
        ResolveLists(n, [UsedRefs], inner);
        FollowsTrans(p, r, Now());
        KeepsContained(p, Now());
      case Usage =>
        ResolveLists(n, [TypeRefs, SuperRefs, RedefinedRefs, EndRefs, UsedRefs], scopes);
        ghost var q := Now();
        KeepsContained(p, q);
        var inner := ResolveScopeBody(n, scopes);
        FollowsTrans(p, q, Now());
      case Attribute =>
        ResolveLists(n, [TypeRefs, SuperRefs, RedefinedRefs, UsedRefs], scopes);
        KeepsContained(p, Now());
      case Alias =>
        ResolveLists(n, [TargetRefs], scopes);
        KeepsContained(p, Now());
      case Import => RolesNone(p, n, scopes);
      case Statement =>
        ResolveLists(n, [UsedRefs], scopes);
        ghost var q := Now();
        KeepsContained(p, q);
        WalkMembers(n, scopes);
        FollowsTrans(p, q, Now());
    }

    /** `resolveProgram`: the built-in package is declared before the members of the root. */
    method ResolveProgram(program: Id, library: Id) returns (ok: bool)
      requires Contained(m) && program < |m|
      modifies this
      ensures Now() == ProgramWalked(old(m), program, library)
      ensures Extends(old(m), m) && ok == (errorCount == 0)
    {
      hide Extends, MembersWalked, Declared, Inner, Contained;
      errorCount := 0;
      ghost var p := Now();
      var root := DeclareMembers(program, [library], [], true);
      ghost var q := Now();
      SameShape(p, q, program);
      KeepsContained(p, q);
      WalkMembers(program, [root]);
      FollowsTrans(p, q, Now());
      ok := errorCount == 0;
    }
  }

  lemma SameLists(p: Progress, q: Progress, id: Id, role: Role)
    requires Follows(p, q) && id < |p.model|
    ensures id < |q.model| && |RefsOf(q.model[id], role)| == |RefsOf(p.model[id], role)|
  {
    assert ElementExtends(p.model[id], q.model[id]);
  }

  lemma SameShape(p: Progress, q: Progress, id: Id)
    requires Follows(p, q)
    ensures Get(q.model, id).name == Get(p.model, id).name && Get(q.model, id).kind == Get(p.model, id).kind
    ensures Get(q.model, id).members == Get(p.model, id).members && Get(q.model, id).wildcard == Get(p.model, id).wildcard
  {
    hide Extends;
    ExtendsShape(p.model, q.model, id);
  }

  lemma SameNamed(p: Progress, q: Progress, ids: seq<Id>, name: string)
    requires Follows(p, q)
    ensures FirstNamed(q.model, ids, name) == FirstNamed(p.model, ids, name)
  {
    hide Extends;
    FirstNamedStable(p.model, q.model, ids, name);
  }

  lemma SameScope(p: Progress, q: Progress, n: Id)
    requires Follows(p, q)
    ensures Inner(q.model, [], Get(q.model, n).members) == Inner(p.model, [], Get(p.model, n).members)
  {
    hide Extends;
    ExtendsShape(p.model, q.model, n);
    InnerStable(p.model, q.model, [], Get(p.model, n).members);
  }

  lemma KeepsContained(p: Progress, q: Progress)
    requires Contained(p.model) && Follows(p, q)
    ensures Contained(q.model)
  {
    hide Extends;
    StaysContained(p.model, q.model);
  }

  lemma MemberContained(m: Model, c: Id, x: Id)
    requires Contained(m) && c < |m| && x in m[c].members
    ensures c < x < |m|
  {
  }

  lemma TargetIsSlot(m: Model, x: Id)
    requires x < |m| && Get(m, x).target != []
    ensures IsSlot(m, Slot(x, TargetRefs, 0))
  {
  }
}
