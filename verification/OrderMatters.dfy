/** Two programs on which the order of declarations does matter to the resolver. */
module OrderMatters {
  import opened Tokens
  import opened Basics
  import opened Elements
  import opened Lookup
  import opened Naming
  import opened Resolver
  import opened Runs
  import opened Reordering
  import opened Idle

  // ---- walking small programs ----------------------------------------------------------------------

  lemma {:induction false} QuietRoles(p: Progress, id: Id, roles: seq<Role>, scopes: seq<Scope>)
    requires forall r | r in roles :: RefsOf(Get(p.model, id), r) == []
    ensures RolesStepped(p, id, roles, scopes) == p
    decreases |roles|
  {
    hide RefsOf;
    if roles != [] {
      var front := roles[..|roles| - 1];
      forall r | r in front ensures RefsOf(Get(p.model, id), r) == [] { assert r in roles; }
      QuietRoles(p, id, front, scopes);
      assert roles[|roles| - 1] in roles;
    }
  }

  /** Only the first of the lists has a reference. */
  lemma {:induction false} FirstRole(p: Progress, id: Id, first: Role, rest: seq<Role>, scopes: seq<Scope>)
    requires |RefsOf(Get(p.model, id), first)| == 1 && first != RedefinedRefs && id < |p.model|
    requires forall r | r in rest :: RefsOf(Get(p.model, id), r) == []
    ensures RolesStepped(p, id, [first] + rest, scopes) == Stepped(p, Slot(id, first, 0), scopes, true)
    decreases |rest|
  {
    hide RefsOf, Stepped;
    var roles, q := [first] + rest, Stepped(p, Slot(id, first, 0), scopes, true);
    if rest == [] {
      assert roles == [first] && roles[..0] == [];
      RolesNone(p, id, scopes);
      OneOnList(p, id, first, scopes);
    } else {
      var front, last := rest[..|rest| - 1], rest[|rest| - 1];
      assert roles[..|roles| - 1] == [first] + front && roles[|roles| - 1] == last;
      FirstRole(p, id, first, front, scopes);
      StepFollows(p, Slot(id, first, 0), scopes, true);
      assert last in rest;
      SameLists(p, q, id, last);
    }
  }

  lemma OneOnList(p: Progress, id: Id, role: Role, scopes: seq<Scope>)
    requires role != RedefinedRefs
    ensures ListStepped(p, id, role, scopes, 1) == Stepped(p, Slot(id, role, 0), scopes, true)
  {
    hide Stepped;
    assert ListStepped(p, id, role, scopes, 0) == p;
  }

  /** An element without references and members. */
  lemma LeafWalked(p: Progress, n: Id, scopes: seq<Scope>)
    requires forall r :: RefsOf(Get(p.model, n), r) == []
    requires Get(p.model, n).members == []
    ensures Walked(p, n, scopes) == p
  {
    hide RolesStepped, RefsOf, Inner;
    QuietRoles(p, n, EarlyRoles(Get(p.model, n).kind), scopes);
    QuietRoles(p, n, [UsedRefs], [Inner(p.model, [], [])] + scopes);
    DeclareNone(p, [], scopes, false);
    assert ScopeWalked(p, n, scopes) == p;
  }

  /** Three members, one after the other. */
  lemma ThreeWalked(p: Progress, n: Id, x: Id, y: Id, z: Id, scopes: seq<Scope>)
    requires n < x < |p.model| && n < y < |p.model| && n < z < |p.model|
    ensures MembersWalked(p, n, [x, y, z], scopes) == Walked(Walked(Walked(p, x, scopes), y, scopes), z, scopes)
  {
    hide Walked;
    var members := [x, y, z];
    assert members[..0] == [] && members[..1] == [x] && members[..2] == [x, y] && members[..3] == members;
    MembersNext(p, n, members, 0, scopes);
    MembersNext(p, n, members, 1, scopes);
    MembersNext(p, n, members, 2, scopes);
  }

  /** The walk of a statement or alias with a single reference. */
  lemma SingleWalked(p: Progress, n: Id, scopes: seq<Scope>)
    requires n < |p.model| && Get(p.model, n).members == []
    requires (Get(p.model, n).kind == Statement && |Get(p.model, n).uses| == 1)
          || (Get(p.model, n).kind == Alias && |Get(p.model, n).target| == 1)
    ensures Walked(p, n, scopes)
      == Stepped(p, Slot(n, if Get(p.model, n).kind == Alias then TargetRefs else UsedRefs, 0), scopes, true)
  {
    hide Stepped, RolesStepped;
    var role := if Get(p.model, n).kind == Alias then TargetRefs else UsedRefs;
    FirstRole(p, n, role, [], scopes);
    assert [role] + [] == [role];
    StepFollows(p, Slot(n, role, 0), scopes, true);
    SameShape(p, Stepped(p, Slot(n, role, 0), scopes, true), n);
  }

  /** The head of a path in a scope without imports and duplicates. */
  lemma HeadHere(m: Model, m0: Model, start: seq<Id>, members: seq<Id>, outer: seq<Scope>, name: string, x: Id)
    requires forall id :: Get(m, id).name == Get(m0, id).name
    requires forall y | y in members :: Get(m0, y).kind != Import
    requires DistinctNames(m0, start + members) && x in start + members && name != "" && Get(m0, x).name == name
    ensures Head(m, [Inner(m0, start, members)] + outer, name) == Some(x)
  {
    QuietNames(Progress(m0, 0), start, members, true, []);
    FirstNamedIs(m0, start + members, name, x);
    FirstNamedRenamed(m0, m, Symbols(m0, start, members), name);
  }

  lemma Swap(a: seq<Id>, b: seq<Id>)
    ensures multiset(a + b) == multiset(b + a)
  {
  }

  lemma SwapLast(a: seq<Id>, b: seq<Id>, c: seq<Id>)
    ensures multiset(a + (b + c)) == multiset(a + (c + b))
  {
    Swap(b, c);
  }

  lemma Rotated(x: Id, y: Id, z: Id)
    ensures multiset([x, y, z]) == multiset([z, x, y])
  {
    var front, last := [x, y], [z];
    Swap(front, last);
    assert front + last == [x, y, z];
    assert last + front == [z, x, y];
  }

  lemma Swapped(x: Id, y: Id, z: Id)
    ensures multiset([x, y, z]) == multiset([x, z, y])
  {
    var a, b, c := [x], [y], [z];
    SwapLast(a, b, c);
    assert a + (b + c) == [x, y, z];
    assert a + (c + b) == [x, z, y];
  }

  // ---- a path through a feature whose type is bound later -----------------------------------------------

  /** `part def T { attribute q; }`, `part p : T;` and a use of `p::q`, in the order `order`, the
      two references bound to `type_` and `use_`. */
  function Typed(order: seq<Id>, type_: Option<Id>, use_: Option<Id>): Model {
    [Bare(Program, EOF, "").(members := order),
     Bare(Definition, KW_PART, "T").(members := [2]),
     Bare(Attribute, KW_ATTRIBUTE, "q"),
     Bare(Usage, KW_PART, "p").(types := [Ref(["T"], false, type_, false)]),
     Bare(Statement, EOF, "").(uses := [Ref(["p", "q"], false, use_, false)]),
     Bare(Package, EOF, "L")]
  }

  function TypedScopes(order: seq<Id>): seq<Scope> { [Inner(Typed(order, None, None), [5], order)] }

  lemma TypedShape(order: seq<Id>, type_: Option<Id>, use_: Option<Id>)
    ensures var m := Typed(order, type_, use_);
      && (forall id :: Get(m, id).name == Get(Typed(order, None, None), id).name)
      && Get(m, 1).name == "T" && Get(m, 3).name == "p" && Get(m, 4).name == "" && Get(m, 5).name == "L"
      && Get(m, 1).kind == Definition && Get(m, 3).kind == Usage && Get(m, 4).kind == Statement
      && |m| == 6 && Get(m, 0).members == order
  {
  }

  lemma TypedDistinct(order: seq<Id>)
    requires order in {[1, 3, 4], [1, 4, 3]}
    ensures DistinctNames(Typed(order, None, None), [5] + order)
  {
    hide Typed;
    TypedShape(order, None, None);
    assert "T"[0] != "p"[0] && "L"[0] != "T"[0] && "L"[0] != "p"[0];
  }

  lemma TypedNames(order: seq<Id>, type_: Option<Id>, use_: Option<Id>)
    requires order in {[1, 3, 4], [1, 4, 3]}
    ensures var m := Typed(order, type_, use_);
      Head(m, TypedScopes(order), "T") == Some(1) && Head(m, TypedScopes(order), "p") == Some(3)
  {
    hide Head, Typed, DistinctNames, Inner;
    var m, m0 := Typed(order, type_, use_), Typed(order, None, None);
    TypedShape(order, None, None);
    TypedShape(order, type_, use_);
    TypedDistinct(order);
    assert ([5] + order)[1] == 1 && ([5] + order)[if order[1] == 3 then 2 else 3] == 3;
    HeadHere(m, m0, [5], order, [], "T", 1);
    HeadHere(m, m0, [5], order, [], "p", 3);
    assert TypedScopes(order) + [] == TypedScopes(order);
  }

  /** The lookup of `q` in `p` finds the attribute of its type once that is bound. */
  lemma TypedMember(order: seq<Id>, type_: Option<Id>)
    requires type_ in {None, Some(1)}
    ensures Member(Typed(order, type_, None), 3, "q") == if type_.Some? then Some(2) else None
  {
    hide Visit, VisitAll, FirstHit, HitAbove;
    var m := Typed(order, type_, None);
    var types := Get(m, 3).types;
    VisitUnfolds(m, 3, "q", MAX_DEPTH);
    ParentsUnfold(m, 3, "q", MAX_DEPTH - 1);
    HitAboveUnfolds(m, types, "q", MAX_DEPTH - 1);
    assert types[1..] == [];
    NothingAbove(m, "q");
    VisitUnfolds(m, 1, "q", MAX_DEPTH - 1);
    assert Get(m, 2).name == "q" && Get(m, 1).members == [2];
  }

  lemma NothingAbove(m: Model, name: string)
    ensures HitAbove(m, [], name, MAX_DEPTH - 1) == None
  {
  }

  lemma TypedResolve(order: seq<Id>, type_: Option<Id>)
    requires order in {[1, 3, 4], [1, 4, 3]} && type_ in {None, Some(1)}
    ensures var m, sc := Typed(order, type_, None), TypedScopes(order);
      && Resolve(m, sc, Ref(["T"], false, None, false)) == Found(1, false)
      && Resolve(m, sc, Ref(["p", "q"], false, None, false)) == if type_.Some? then Found(2, false) else Undefined
  {
    hide Head, Member, TypedScopes;
    var m := Typed(order, type_, None);
    TypedNames(order, type_, None);
    TypedMember(order, type_);
    assert ["T"][1..] == [] && ["p", "q"][1..] == ["q"] && ["q"][1..] == [];
    assert Get(m, 1).kind == Definition && Get(m, 2).kind == Attribute && !ConjugatedType(m, 3);
  }

  lemma TypedBind(order: seq<Id>, type_: Option<Id>)
    ensures IsSlot(Typed(order, None, None), Slot(3, TypeRefs, 0))
    ensures Bind(Typed(order, None, None), Slot(3, TypeRefs, 0), 1, false) == Typed(order, Some(1), None)
    ensures IsSlot(Typed(order, type_, None), Slot(4, UsedRefs, 0))
    ensures Bind(Typed(order, type_, None), Slot(4, UsedRefs, 0), 2, false) == Typed(order, type_, Some(2))
  {
    var m := Typed(order, None, None);
    assert m[3].types[0 := m[3].types[0].(target := Some(1), parity := false)] == [Ref(["T"], false, Some(1), false)];
    assert m[3 := m[3].(types := [Ref(["T"], false, Some(1), false)])] == Typed(order, Some(1), None);
    var k := Typed(order, type_, None);
    assert k[4].uses[0 := k[4].uses[0].(target := Some(2), parity := false)] == [Ref(["p", "q"], false, Some(2), false)];
    assert k[4 := k[4].(uses := [Ref(["p", "q"], false, Some(2), false)])] == Typed(order, type_, Some(2));
  }

  /** Resolving the type of `p` binds it; resolving `p::q` succeeds afterwards only. */
  lemma TypedSteps(order: seq<Id>, type_: Option<Id>, errors: nat)
    requires order in {[1, 3, 4], [1, 4, 3]} && type_ in {None, Some(1)}
    ensures var sc, p := TypedScopes(order), Progress(Typed(order, type_, None), errors);
      && (type_.None? ==> Stepped(p, Slot(3, TypeRefs, 0), sc, true) == p.(model := Typed(order, Some(1), None)))
      && Stepped(p, Slot(4, UsedRefs, 0), sc, true) ==
           if type_.Some? then p.(model := Typed(order, type_, Some(2))) else p.(errors := errors + 1)
  {
    hide Resolve, TypedScopes, Bind;
    TypedResolve(order, type_);
    TypedBind(order, type_);
    var m := Typed(order, type_, None);
    assert RefAt(m, Slot(3, TypeRefs, 0)) == Ref(["T"], false, type_, false);
    assert RefAt(m, Slot(4, UsedRefs, 0)) == Ref(["p", "q"], false, None, false);
  }

  /** The walks of the three members. */
  lemma TypedWalks(order: seq<Id>, type_: Option<Id>, errors: nat)
    requires type_ in {None, Some(1)}
    ensures var sc, p := TypedScopes(order), Progress(Typed(order, type_, None), errors);
      && Walked(p, 1, sc) == p
      && Walked(p, 3, sc) == Stepped(p, Slot(3, TypeRefs, 0), sc, true)
      && Walked(p, 4, sc) == Stepped(p, Slot(4, UsedRefs, 0), sc, true)
  {
    hide Stepped, TypedScopes, Walked;
    var sc, p := TypedScopes(order), Progress(Typed(order, type_, None), errors);
    TypedDefinition(p, sc);
    TypedUsage(p, sc);
    SingleWalked(p, 4, sc);
  }

  lemma TypedDefinition(p: Progress, sc: seq<Scope>)
    requires |p.model| == 6 && Get(p.model, 1) == Bare(Definition, KW_PART, "T").(members := [2])
    requires Get(p.model, 2) == Bare(Attribute, KW_ATTRIBUTE, "q")
    ensures Walked(p, 1, sc) == p
  {
    hide Walked, RolesStepped, MembersWalked, Declared, Inner;
    WalkedStages(p, 1, sc);
    QuietRoles(p, 1, [SuperRefs, RedefinedRefs], sc);
    assert [] + [2] == [2];
    QuietNames(p, [], [2], false, sc);
    var inner := InnerScopes(p.model, 1, sc);
    OneWalked(p, 1, 2, inner);
    LeafWalked(p, 2, inner);
    QuietRoles(p, 1, [UsedRefs], inner);
  }

  lemma OneWalked(p: Progress, n: Id, x: Id, scopes: seq<Scope>)
    requires n < x < |p.model|
    ensures MembersWalked(p, n, [x], scopes) == Walked(p, x, scopes)
  {
    hide Walked;
    assert [x][..0] == [];
  }

  lemma TypedUsage(p: Progress, sc: seq<Scope>)
    requires |p.model| == 6 && Get(p.model, 3) == Bare(Usage, KW_PART, "p").(types := Get(p.model, 3).types)
    requires |Get(p.model, 3).types| == 1
    ensures Walked(p, 3, sc) == Stepped(p, Slot(3, TypeRefs, 0), sc, true)
  {
    hide Walked, RolesStepped, MembersWalked, Declared, Inner, Stepped;
    var rest := [SuperRefs, RedefinedRefs, EndRefs, UsedRefs];
    var q := Stepped(p, Slot(3, TypeRefs, 0), sc, true);
    WalkedStages(p, 3, sc);
    FirstRole(p, 3, TypeRefs, rest, sc);
    assert [TypeRefs] + rest == EarlyRoles(Usage);
    DeclareNone(q, [], sc, false);
    NoneWalked(q, 3, InnerScopes(p.model, 3, sc));
  }

  lemma NoneWalked(p: Progress, n: Id, scopes: seq<Scope>)
    ensures MembersWalked(p, n, [], scopes) == p
  {
  }

  /** The run reduced to the walks of its members. */
  lemma TypedProgram(order: seq<Id>)
    requires order in {[1, 3, 4], [1, 4, 3]}
    ensures var m, sc := Typed(order, None, None), TypedScopes(order);
      ProgramWalked(m, 0, 5) == Walked(Walked(Walked(Progress(m, 0), order[0], sc), order[1], sc), order[2], sc)
  {
    hide Walked, MembersWalked, Inner, Declared, Typed, DistinctNames;
    var m, sc := Typed(order, None, None), TypedScopes(order);
    TypedDistinct(order);
    TypedShape(order, None, None);
    QuietNames(Progress(m, 0), [5], order, true, []);
    assert order == [order[0], order[1], order[2]];
    ThreeWalked(Progress(m, 0), 0, order[0], order[1], order[2], sc);
  }

  /** The whole run, in the one order and in the other. */
  lemma TypedFirst(order: seq<Id>)
    requires order == [1, 3, 4]
    ensures ProgramWalked(Typed(order, None, None), 0, 5) == Progress(Typed(order, Some(1), Some(2)), 0)
  {
    hide Walked, Stepped, Typed, TypedScopes, ProgramWalked;
    TypedProgram(order);
    TypedWalks(order, None, 0);
    TypedSteps(order, None, 0);
    TypedWalks(order, Some(1), 0);
    TypedSteps(order, Some(1), 0);
  }

  lemma TypedLast(order: seq<Id>)
    requires order == [1, 4, 3]
    ensures ProgramWalked(Typed(order, None, None), 0, 5) == Progress(Typed(order, Some(1), None), 1)
  {
    hide Walked, Stepped, Typed, TypedScopes, ProgramWalked;
    TypedProgram(order);
    TypedWalks(order, None, 0);
    TypedSteps(order, None, 0);
    TypedWalks(order, None, 1);
    TypedSteps(order, None, 1);
  }

  /** Exchanging a feature and a use of its member: in the one order the path is bound without
      an error, in the other it is reported and stays unbound, though `q` is there either way. */
  lemma PathsDependOnOrder()
    ensures var a, b := Typed([1, 3, 4], None, None), Typed([1, 4, 3], None, None);
      && Reordered(a, b)
      && ProgramWalked(a, 0, 5) == Progress(Typed([1, 3, 4], Some(1), Some(2)), 0)
      && ProgramWalked(b, 0, 5) == Progress(Typed([1, 4, 3], Some(1), None), 1)
  {
    hide ProgramWalked, Mixed;
    TypedFirst([1, 3, 4]);
    TypedLast([1, 4, 3]);
    var a, b := Typed([1, 3, 4], None, None), Typed([1, 4, 3], None, None);
    TypedMixed(a);
    forall id: Id | id < |a| ensures b[id] == a[id].(members := b[id].members) && Mixed(a, a[id].members, b[id].members) {
      MixedSelf(a, a[id].members);
    }
  }

  lemma TypedMixed(a: Model)
    requires a == Typed([1, 3, 4], None, None)
    ensures Mixed(a, [1, 3, 4], [1, 4, 3])
  {
    hide Typed, DistinctNames, Wildcards;
    var x, y := [1, 3, 4], [1, 4, 3];
    TypedDistinct(x);
    TypedShape(x, None, None);
    TailDistinct(a, 5, x);
    Swapped(1, 3, 4);
    NoWildcards(a, x);
    NoWildcards(a, y);
  }

  lemma TailDistinct(m: Model, x: Id, ids: seq<Id>)
    requires DistinctNames(m, [x] + ids)
    ensures DistinctNames(m, ids)
  {
    var all := [x] + ids;
    forall i, j | 0 <= i < j < |ids| && Get(m, ids[i]).name != "" ensures Get(m, ids[i]).name != Get(m, ids[j]).name {
      assert all[i + 1] == ids[i] && all[j + 1] == ids[j];
    }
  }

  lemma {:induction false} NoWildcards(m: Model, ids: seq<Id>)
    requires forall x | x in ids :: Get(m, x).kind != Import
    ensures Wildcards(m, ids) == []
    decreases |ids|
  {
    if ids != [] {
      assert ids[|ids| - 1] in ids;
      NoWildcards(m, ids[..|ids| - 1]);
    }
  }

  // ---- a name of one segment below an import of an alias ---------------------------------------------------

  /** `package P` with `alias X for R;`, `package R { attribute k; }` and `package Q`, which
      imports `X::*` and uses `k`; in the order `order`. */
  function Aliased(order: seq<Id>, alias_: Option<Id>, import_: Option<Id>, use_: Option<Id>): Model {
    [Bare(Program, EOF, "").(members := [1]),
     Bare(Package, EOF, "P").(members := order),
     Bare(Alias, EOF, "X").(target := [Ref(["R"], false, alias_, false)]),
     Bare(Package, EOF, "R").(members := [4]),
     Bare(Attribute, KW_ATTRIBUTE, "k"),
     Bare(Package, EOF, "Q").(members := [6, 7]),
     Bare(Import, EOF, "").(wildcard := true, target := [Ref(["X"], false, import_, false)]),
     Bare(Statement, EOF, "").(uses := [Ref(["k"], false, use_, false)]),
     Bare(Package, EOF, "L")]
  }

  function AliasedScopes(order: seq<Id>): seq<Scope> {
    var m := Aliased(order, None, None, None);
    [Inner(m, [], order), Inner(m, [8], [1])]
  }

  predicate AliasedOrder(order: seq<Id>) { order == [2, 3, 5] || order == [5, 2, 3] }

  lemma AliasedShape(order: seq<Id>, alias_: Option<Id>, import_: Option<Id>, use_: Option<Id>)
    ensures var m := Aliased(order, alias_, import_, use_);
      && |m| == 9 && (forall id :: Get(m, id).name == Get(Aliased(order, None, None, None), id).name)
      && Get(m, 1).name == "P" && Get(m, 2).name == "X" && Get(m, 3).name == "R" && Get(m, 4).name == "k"
      && Get(m, 5).name == "Q" && Get(m, 6).name == "" && Get(m, 7).name == "" && Get(m, 8).name == "L"
      && Get(m, 1).kind == Package && Get(m, 2).kind == Alias && Get(m, 3).kind == Package && Get(m, 4).kind == Attribute
      && Get(m, 5).kind == Package && Get(m, 6).kind == Import && Get(m, 7).kind == Statement
      && Get(m, 1).members == order && Get(m, 3).members == [4] && Get(m, 5).members == [6, 7] && Get(m, 0).members == [1]
      && Get(m, 6).wildcard
      && TargetOf(Get(m, 2)) == alias_ && TargetOf(Get(m, 6)) == import_
  {
  }

  /** A scope without imports that does not declare the name is passed over. */
  lemma ScopePassed(m: Model, m0: Model, start: seq<Id>, members: seq<Id>, outer: seq<Scope>, name: string)
    requires forall id :: Get(m, id).name == Get(m0, id).name
    requires forall y | y in members :: Get(m0, y).kind != Import
    requires DistinctNames(m0, start + members) && forall y | y in start + members :: Get(m0, y).name != name
    ensures var sc := [Inner(m0, start, members)] + outer;
      && LookupChain(m, sc, name) == LookupChain(m, outer, name)
      && SearchWildcards(m, sc, name) == SearchWildcards(m, outer, name)
      && (AnyUnresolved(m, outer) == false ==> AnyUnresolved(m, sc) == false)
  {
    QuietNames(Progress(m0, 0), start, members, true, []);
    FirstNamedRenamed(m0, m, Symbols(m0, start, members), name);
    if FirstNamed(m0, start + members, name).Some? { FirstNamedIn(m0, start + members, name); }
    var sc := [Inner(m0, start, members)] + outer;
    assert sc[1..] == outer;
    forall k | 0 < k < |sc| ensures sc[k] == outer[k - 1] {}
  }

  lemma AliasedDistinct(order: seq<Id>)
    requires AliasedOrder(order)
    ensures var m := Aliased(order, None, None, None);
      DistinctNames(m, [] + order) && DistinctNames(m, [8] + [1])
    ensures 2 in [] + order && 3 in [] + order && forall y | y in order :: Get(Aliased(order, None, None, None), y).kind != Import
  {
    hide Aliased;
    AliasedShape(order, None, None, None);
    assert "X"[0] != "R"[0] && "X"[0] != "Q"[0] && "R"[0] != "Q"[0] && "L"[0] != "P"[0];
    assert [] + order == order;
  }

  /** Heads in the scope of `P`. */
  lemma AliasedHeads(order: seq<Id>, alias_: Option<Id>, import_: Option<Id>)
    requires AliasedOrder(order)
    ensures var m := Aliased(order, alias_, import_, None);
      Head(m, AliasedScopes(order), "R") == Some(3) && Head(m, AliasedScopes(order), "X") == Some(2)
  {
    hide Head, Aliased, DistinctNames, Inner, AliasedOrder;
    var m, m0 := Aliased(order, alias_, import_, None), Aliased(order, None, None, None);
    AliasedShape(order, None, None, None);
    AliasedShape(order, alias_, import_, None);
    AliasedDistinct(order);
    HeadHere(m, m0, [], order, [Inner(m0, [8], [1])], "R", 3);
    HeadHere(m, m0, [], order, [Inner(m0, [8], [1])], "X", 2);
    assert [Inner(m0, [], order)] + [Inner(m0, [8], [1])] == AliasedScopes(order);
  }

  function DeepScopes(order: seq<Id>): seq<Scope> {
    [Inner(Aliased(order, None, None, None), [], [6, 7])] + AliasedScopes(order)
  }

  /** The name `k` inside `Q` is found through the import when that is bound to the package,
      and unknown when it is bound to the alias. */
  lemma AliasedName(order: seq<Id>, alias_: Option<Id>, import_: Id)
    requires AliasedOrder(order) && import_ in {2, 3}
    ensures var m := Aliased(order, alias_, Some(import_), None);
      && Head(m, DeepScopes(order), "k") == (if import_ == 3 then Some(4) else None)
      && !AnyUnresolved(m, DeepScopes(order))
  {
    hide Aliased, DistinctNames, AnyUnresolved, LookupChain, SearchWildcards, Inner, AliasedOrder;
    var m, m0 := Aliased(order, alias_, Some(import_), None), Aliased(order, None, None, None);
    AliasedShape(order, None, None, None);
    AliasedShape(order, alias_, Some(import_), None);
    AliasedDistinct(order);
    NotCalledK(order);
    var s1 := [Inner(m0, [8], [1])] + [];
    NoScope(m, "k");
    ScopePassed(m, m0, [8], [1], [], "k");
    assert [Inner(m0, [], order)] + s1 == AliasedScopes(order);
    ScopePassed(m, m0, [], order, s1, "k");
    DeepScope(m, m0, AliasedScopes(order), import_);
  }

  lemma NotCalledK(order: seq<Id>)
    requires AliasedOrder(order)
    ensures var m := Aliased(order, None, None, None);
      (forall y | y in [] + order :: Get(m, y).name != "k") && forall y | y in [8] + [1] :: Get(m, y).name != "k"
  {
    hide Aliased;
    AliasedShape(order, None, None, None);
    assert "k"[0] != "X"[0] && "k"[0] != "R"[0] && "k"[0] != "Q"[0] && "k"[0] != "L"[0] && "k"[0] != "P"[0];
    assert [] + order == order;
  }

  lemma NoScope(m: Model, name: string)
    ensures LookupChain(m, [], name) == None && SearchWildcards(m, [], name) == None && !AnyUnresolved(m, [])
  {
  }

  lemma DeepInner(m: Model)
    requires Get(m, 6).kind == Import && Get(m, 6).wildcard && Get(m, 7).kind == Statement && Get(m, 7).name == ""
    ensures Inner(m, [], [6, 7]) == Scope([], [6])
  {
    assert [6, 7][..1] == [6] && [6][..0] == [];
    assert [6][0] == 6 && Wildcards(m, []) == [] && Symbols(m, [], []) == [];
    assert [] + [6] == [6];
    assert Symbols(m, [], [6]) == [] && Wildcards(m, [6]) == [6];
  }

  lemma DeepScope(m: Model, m0: Model, outer: seq<Scope>, import_: Id)
    requires forall id :: Get(m, id).name == Get(m0, id).name
    requires Get(m0, 6).kind == Import && Get(m0, 6).wildcard && Get(m0, 7).kind == Statement && Get(m0, 7).name == ""
    requires TargetOf(Get(m, 6)) == Some(import_)
    requires import_ == 3 ==> Get(m, 3).kind == Package && Get(m, 3).members == [4] && Get(m, 4).name == "k"
    requires import_ != 3 ==> Get(m, import_).kind != Package
    requires LookupChain(m, outer, "k") == None && SearchWildcards(m, outer, "k") == None && !AnyUnresolved(m, outer)
    ensures var sc := [Inner(m0, [], [6, 7])] + outer;
      && LookupChain(m, sc, "k") == None
      && SearchWildcards(m, sc, "k") == (if import_ == 3 then Some(4) else None)
      && !AnyUnresolved(m, sc)
  {
    hide Inner;
    var sc := [Inner(m0, [], [6, 7])] + outer;
    DeepInner(m0);
    assert [4][0] == 4 && (import_ == 3 ==> FirstNamed(m, [4], "k") == Some(4));
    assert ImportedPackage(m, 6) == if import_ == 3 then Some(3) else None;
    assert SearchImports(m, [], "k") == None;
    assert SearchImports(m, [6], "k") == if import_ == 3 then Some(4) else None;
    assert sc[1..] == outer && [6][1..] == [];
    forall k | 0 < k < |sc| ensures sc[k] == outer[k - 1] {}
  }

  lemma AliasedResolve(order: seq<Id>, alias_: Option<Id>, import_: Option<Id>)
    requires AliasedOrder(order) && alias_ in {None, Some(3)} && import_ in {None, Some(2), Some(3)}
    ensures var m, sc := Aliased(order, alias_, import_, None), AliasedScopes(order);
      && Resolve(m, sc, Ref(["R"], false, None, false)) == Found(3, false)
      && Resolve(m, sc, Ref(["X"], false, None, false)) == Found(if alias_.Some? then 3 else 2, false)
      && (import_.Some? ==>
            Resolve(m, DeepScopes(order), Ref(["k"], false, None, false)) == if import_ == Some(3) then Found(4, false) else Undefined)
  {
    hide Head, AliasedScopes, DeepScopes, Aliased, AliasedOrder, AnyUnresolved;
    var m := Aliased(order, alias_, import_, None);
    AliasedShape(order, alias_, import_, None);
    AliasedHeads(order, alias_, import_);
    if import_.Some? { AliasedName(order, alias_, import_.value); }
    assert ["R"][1..] == [] && ["X"][1..] == [] && ["k"][1..] == [];
  }

  lemma AliasedBind(order: seq<Id>, alias_: Option<Id>, import_: Option<Id>, x: Id)
    ensures IsSlot(Aliased(order, None, import_, None), Slot(2, TargetRefs, 0))
    ensures Bind(Aliased(order, None, import_, None), Slot(2, TargetRefs, 0), x, false) == Aliased(order, Some(x), import_, None)
    ensures IsSlot(Aliased(order, alias_, None, None), Slot(6, TargetRefs, 0))
    ensures Bind(Aliased(order, alias_, None, None), Slot(6, TargetRefs, 0), x, false) == Aliased(order, alias_, Some(x), None)
    ensures IsSlot(Aliased(order, alias_, import_, None), Slot(7, UsedRefs, 0))
    ensures Bind(Aliased(order, alias_, import_, None), Slot(7, UsedRefs, 0), x, false) == Aliased(order, alias_, import_, Some(x))
  {
    assert [Ref(["R"], false, None, false)][0 := Ref(["R"], false, Some(x), false)] == [Ref(["R"], false, Some(x), false)];
    assert [Ref(["X"], false, None, false)][0 := Ref(["X"], false, Some(x), false)] == [Ref(["X"], false, Some(x), false)];
    assert [Ref(["k"], false, None, false)][0 := Ref(["k"], false, Some(x), false)] == [Ref(["k"], false, Some(x), false)];
  }

  lemma AliasedRefs(order: seq<Id>, alias_: Option<Id>, import_: Option<Id>)
    ensures var m := Aliased(order, alias_, import_, None);
      && IsSlot(m, Slot(2, TargetRefs, 0)) && RefAt(m, Slot(2, TargetRefs, 0)) == Ref(["R"], false, alias_, false)
      && IsSlot(m, Slot(6, TargetRefs, 0)) && RefAt(m, Slot(6, TargetRefs, 0)) == Ref(["X"], false, import_, false)
      && IsSlot(m, Slot(7, UsedRefs, 0)) && RefAt(m, Slot(7, UsedRefs, 0)) == Ref(["k"], false, None, false)
  {
  }

  /** The three steps of a run: the alias, the import, the name. */
  lemma AliasedSteps(order: seq<Id>, alias_: Option<Id>, import_: Option<Id>, errors: nat)
    requires AliasedOrder(order) && alias_ in {None, Some(3)} && import_ in {None, Some(2), Some(3)}
    ensures var sc, p := AliasedScopes(order), Progress(Aliased(order, alias_, import_, None), errors);
      && (alias_.None? ==> Stepped(p, Slot(2, TargetRefs, 0), sc, true) == p.(model := Aliased(order, Some(3), import_, None)))
      && (import_.None? ==>
            Stepped(p, Slot(6, TargetRefs, 0), sc, false)
              == p.(model := Aliased(order, alias_, Some(if alias_.Some? then 3 else 2), None)))
      && (import_.Some? ==>
            Stepped(p, Slot(7, UsedRefs, 0), DeepScopes(order), true)
              == if import_ == Some(3) then p.(model := Aliased(order, alias_, import_, Some(4))) else p.(errors := errors + 1))
  {
    hide Resolve, AliasedScopes, DeepScopes, Bind, Aliased, AliasedOrder;
    AliasedResolve(order, alias_, import_);
    AliasedRefs(order, alias_, import_);
    AliasedBind(order, alias_, import_, 3);
    AliasedBind(order, alias_, import_, 2);
    AliasedBind(order, alias_, import_, 4);
  }

  /** The walks of the three members of `P`. */
  lemma AliasedWalks(order: seq<Id>, alias_: Option<Id>, import_: Option<Id>, use_: Option<Id>, errors: nat)
    ensures var sc, p := AliasedScopes(order), Progress(Aliased(order, alias_, import_, use_), errors);
      && Walked(p, 2, sc) == Stepped(p, Slot(2, TargetRefs, 0), sc, true)
      && Walked(p, 3, sc) == p
      && Walked(p, 5, sc) == Stepped(Stepped(p, Slot(6, TargetRefs, 0), sc, false), Slot(7, UsedRefs, 0), DeepScopes(order), true)
  {
    hide Stepped, AliasedScopes, Walked;
    var sc, p := AliasedScopes(order), Progress(Aliased(order, alias_, import_, use_), errors);
    SingleWalked(p, 2, sc);
    AliasedPackage(p, sc);
    AliasedInner(p, Aliased(order, None, None, None), sc);
  }

  lemma AliasedPackage(p: Progress, sc: seq<Scope>)
    requires |p.model| == 9 && Get(p.model, 3) == Bare(Package, EOF, "R").(members := [4])
    requires Get(p.model, 4) == Bare(Attribute, KW_ATTRIBUTE, "k")
    ensures Walked(p, 3, sc) == p
  {
    hide Walked, MembersWalked, Declared, Inner;
    WalkedStages(p, 3, sc);
    assert [] + [4] == [4];
    QuietNames(p, [], [4], false, sc);
    OneWalked(p, 3, 4, InnerScopes(p.model, 3, sc));
    LeafWalked(p, 4, InnerScopes(p.model, 3, sc));
  }

  lemma AliasedInner(p: Progress, m0: Model, sc: seq<Scope>)
    requires |p.model| == 9 && Get(p.model, 5) == Bare(Package, EOF, "Q").(members := [6, 7])
    requires Get(p.model, 6) == Bare(Import, EOF, "").(wildcard := true, target := Get(p.model, 6).target)
    requires Get(p.model, 7) == Bare(Statement, EOF, "").(uses := Get(p.model, 7).uses) && |Get(p.model, 7).uses| == 1
    requires Get(m0, 6).kind == Import && Get(m0, 6).wildcard && Get(m0, 7).kind == Statement && Get(m0, 7).name == ""
    ensures Walked(p, 5, sc) == Stepped(Stepped(p, Slot(6, TargetRefs, 0), sc, false), Slot(7, UsedRefs, 0),
      [Inner(m0, [], [6, 7])] + sc, true)
  {
    hide Walked, MembersWalked, Inner, Stepped, Declared;
    var q, inner := Stepped(p, Slot(6, TargetRefs, 0), sc, false), InnerScopes(p.model, 5, sc);
    WalkedStages(p, 5, sc);
    RolesEmpty(p, 5, sc);
    DeepInner(p.model);
    DeepInner(m0);
    DeepNames(p, sc);
    StepFrame(p, Slot(6, TargetRefs, 0), sc, false);
    DeepWalks(p, q, sc, inner);
  }

  lemma DeepNames(p: Progress, sc: seq<Scope>)
    requires Get(p.model, 6).kind == Import && Get(p.model, 7).kind == Statement && Get(p.model, 7).name == ""
    ensures Declared(p, [], [6, 7], sc, false) == Stepped(p, Slot(6, TargetRefs, 0), sc, false)
  {
    hide Stepped, Inner;
    assert [6, 7][..1] == [6] && [6][..0] == [];
    assert Declared(p, [], [], sc, false) == p;
    assert Declared(p, [], [6], sc, false) == Stepped(p, Slot(6, TargetRefs, 0), sc, false);
  }

  lemma DeepWalks(p: Progress, q: Progress, sc: seq<Scope>, inner: seq<Scope>)
    requires q == Stepped(p, Slot(6, TargetRefs, 0), sc, false) && |p.model| == 9
    requires Get(p.model, 6).kind == Import && Get(q.model, 7).kind == Statement && Get(q.model, 7).members == []
    requires |Get(q.model, 7).uses| == 1
    ensures MembersWalked(q, 5, [6, 7], inner) == Stepped(q, Slot(7, UsedRefs, 0), inner, true)
  {
    hide Walked, MembersWalked, Stepped;
    StepFollows(p, Slot(6, TargetRefs, 0), sc, false);
    SameShape(p, q, 6);
    MembersNext(q, 5, [6, 7], 0, inner);
    MembersNext(q, 5, [6, 7], 1, inner);
    assert [6, 7][..2] == [6, 7] && [6, 7][..0] == [];
    NoneWalked(q, 5, inner);
    ImportWalked(q, 6, inner);
    SingleWalked(q, 7, inner);
  }

  lemma ImportWalked(p: Progress, n: Id, scopes: seq<Scope>)
    requires Get(p.model, n).kind == Import
    ensures Walked(p, n, scopes) == p
  {
  }

  /** The run reduced to its three steps. */
  lemma AliasedProgram(order: seq<Id>)
    requires AliasedOrder(order)
    ensures var m, sc := Aliased(order, None, None, None), AliasedScopes(order);
      ProgramWalked(m, 0, 8) == Walked(Walked(Walked(Progress(m, 0), order[0], sc), order[1], sc), order[2], sc)
  {
    hide Walked, MembersWalked, Inner, Declared, Aliased, DistinctNames, AliasedOrder;
    var m := Aliased(order, None, None, None);
    var p, root := Progress(m, 0), [Inner(m, [8], [1])];
    AliasedShape(order, None, None, None);
    AliasedDistinct(order);
    QuietNames(p, [8], [1], true, []);
    OneWalked(p, 0, 1, root);
    AliasedOuter(order);
  }

  lemma AliasedOuter(order: seq<Id>)
    requires AliasedOrder(order)
    ensures var m, sc := Aliased(order, None, None, None), AliasedScopes(order);
      Walked(Progress(m, 0), 1, [Inner(m, [8], [1])])
        == Walked(Walked(Walked(Progress(m, 0), order[0], sc), order[1], sc), order[2], sc)
  {
    hide Walked, MembersWalked, Inner, Declared, Aliased, DistinctNames, RolesStepped;
    var m, sc := Aliased(order, None, None, None), AliasedScopes(order);
    var p, root := Progress(m, 0), [Inner(m, [8], [1])];
    AliasedShape(order, None, None, None);
    AliasedDistinct(order);
    QuietNames(p, [], order, false, root);
    WalkedStages(p, 1, root);
    RolesEmpty(p, 1, root);
    assert [Inner(m, [], order)] + root == sc;
    assert order == [order[0], order[1], order[2]];
    ThreeWalked(p, 1, order[0], order[1], order[2], sc);
  }

  lemma AliasedRuns()
    ensures ProgramWalked(Aliased([2, 3, 5], None, None, None), 0, 8)
      == Progress(Aliased([2, 3, 5], Some(3), Some(3), Some(4)), 0)
    ensures ProgramWalked(Aliased([5, 2, 3], None, None, None), 0, 8)
      == Progress(Aliased([5, 2, 3], Some(3), Some(2), None), 1)
  {
    AliasedFirst([2, 3, 5]);
    AliasedLast([5, 2, 3]);
  }

  lemma AliasedFirst(order: seq<Id>)
    requires order == [2, 3, 5]
    ensures ProgramWalked(Aliased(order, None, None, None), 0, 8) == Progress(Aliased(order, Some(3), Some(3), Some(4)), 0)
  {
    hide Walked, Stepped, Aliased, AliasedScopes, DeepScopes, ProgramWalked;
    AliasedProgram(order);
    AliasedWalks(order, None, None, None, 0);
    AliasedSteps(order, None, None, 0);
    AliasedWalks(order, Some(3), None, None, 0);
    AliasedSteps(order, Some(3), None, 0);
    AliasedSteps(order, Some(3), Some(3), 0);
  }

  lemma AliasedLast(order: seq<Id>)
    requires order == [5, 2, 3]
    ensures ProgramWalked(Aliased(order, None, None, None), 0, 8) == Progress(Aliased(order, Some(3), Some(2), None), 1)
  {
    hide Walked, Stepped, Aliased, AliasedScopes, DeepScopes, ProgramWalked;
    AliasedProgram(order);
    AliasedWalks(order, None, None, None, 0);
    AliasedSteps(order, None, None, 0);
    AliasedSteps(order, None, Some(2), 0);
    AliasedWalks(order, None, Some(2), None, 1);
    AliasedSteps(order, None, Some(2), 1);
    AliasedWalks(order, Some(3), Some(2), None, 1);
  }

  /** Even a name of one segment depends on the order when an import above it is not firm: an
      import of an alias that is not bound yet stays bound to the alias itself, which is no
      package, and the name is reported though the package is there either way. */
  lemma NamesDependOnOrder()
    ensures var a, b := Aliased([2, 3, 5], None, None, None), Aliased([5, 2, 3], None, None, None);
      && Reordered(a, b)
      && ProgramWalked(a, 0, 8) == Progress(Aliased([2, 3, 5], Some(3), Some(3), Some(4)), 0)
      && ProgramWalked(b, 0, 8) == Progress(Aliased([5, 2, 3], Some(3), Some(2), None), 1)
  {
    hide ProgramWalked, Mixed;
    AliasedRuns();
    var a, b := Aliased([2, 3, 5], None, None, None), Aliased([5, 2, 3], None, None, None);
    AliasedMixed(a);
    forall id: Id | id < |a| ensures b[id] == a[id].(members := b[id].members) && Mixed(a, a[id].members, b[id].members) {
      MixedSelf(a, a[id].members);
    }
  }

  lemma AliasedMixed(a: Model)
    requires a == Aliased([2, 3, 5], None, None, None)
    ensures Mixed(a, [2, 3, 5], [5, 2, 3])
  {
    hide Aliased, DistinctNames, Wildcards;
    var x, y := [2, 3, 5], [5, 2, 3];
    assert AliasedOrder(x);
    AliasedDistinct(x);
    AliasedShape(x, None, None, None);
    assert [] + x == x;
    Rotated(2, 3, 5);
    NoWildcards(a, x);
    NoWildcards(a, y);
  }
}
