/** A program in which everything is bound or excused is left as it is. */
module Idle {
  import opened Basics
  import opened Elements
  import opened Lookup
  import opened Naming
  import opened Resolver
  import opened Reordering

  // ---- declaring names -----------------------------------------------------------------------

  /** Members without imports and with names of their own are declared without ado. */
  lemma {:induction false} QuietNames(p: Progress, start: seq<Id>, members: seq<Id>, root: bool, outer: seq<Scope>)
    requires forall x | x in members :: Get(p.model, x).kind != Import
    requires DistinctNames(p.model, start + members)
    ensures Declared(p, start, members, outer, root) == p
    ensures Wildcards(p.model, members) == []
    ensures forall name :: FirstNamed(p.model, Symbols(p.model, start, members), name) == FirstNamed(p.model, start + members, name)
    decreases |members|
  {
    if members == [] {
      assert start + members == start;
    } else {
      var front, x := members[..|members| - 1], members[|members| - 1];
      assert start + members == (start + front) + [x];
      assert x in members;
      FrontDistinct(p.model, start + front, x);
      forall y | y in front ensures y in members {}
      QuietNames(p, start, front, root, outer);
      var all := start + front;
      if FirstNamed(p.model, all, Get(p.model, x).name).Some? {
        FirstNamedIn(p.model, all, Get(p.model, x).name);
      }
      forall name ensures FirstNamed(p.model, Symbols(p.model, start, members), name) == FirstNamed(p.model, start + members, name) {
        FirstNamedSnoc(p.model, Symbols(p.model, start, front), x, name);
        FirstNamedSnoc(p.model, all, x, name);
      }
    }
  }

  lemma FrontDistinct(m: Model, ids: seq<Id>, x: Id)
    requires DistinctNames(m, ids + [x])
    ensures DistinctNames(m, ids) && (Get(m, x).name != "" ==> forall y | y in ids :: Get(m, y).name != Get(m, x).name)
  {
    var all := ids + [x];
    forall i, j | 0 <= i < j < |ids| && Get(m, ids[i]).name != "" ensures Get(m, ids[i]).name != Get(m, ids[j]).name {
      assert all[i] == ids[i] && all[j] == ids[j];
    }
    if Get(m, x).name != "" {
      forall y | y in ids ensures Get(m, y).name != Get(m, x).name {
        var i :| 0 <= i < |ids| && ids[i] == y;
        assert all[i] == y && all[|ids|] == x;
      }
    }
  }

  lemma {:induction false} FirstNamedSnoc(m: Model, ids: seq<Id>, x: Id, name: string)
    ensures FirstNamed(m, ids + [x], name) ==
      if FirstNamed(m, ids, name).Some? then FirstNamed(m, ids, name)
      else if name != "" && Get(m, x).name == name then Some(x) else None
  {
    if ids != [] {
      assert (ids + [x])[1..] == ids[1..] + [x];
      FirstNamedSnoc(m, ids[1..], x, name);
    } else {
      assert [] + [x] == [x] && [x][1..] == [];
    }
  }

  // ---- a program without anything to do --------------------------------------------------------

  /** No element has this name. */
  ghost predicate Foreign(m: Model, name: string) { forall id: Id :: Get(m, id).name != name }

  /** The reference is bound, or a path whose head is foreign, or one that the resolver leaves to
      the redefinition checker. */
  ghost predicate Done(m: Model, s: Slot)
    requires IsSlot(m, s)
  {
    var r := RefAt(m, s);
    r.parts == [] || r.target.Some? || (|r.parts| > 1 && Foreign(m, r.parts[0])) || (s.role == RedefinedRefs && |r.parts| == 1)
  }

  ghost predicate AllDone(m: Model) {
    && (forall s: Slot | IsSlot(m, s) :: Done(m, s))
    && (forall id: Id :: Get(m, id).kind != Import && DistinctNames(m, Get(m, id).members))
  }

  lemma {:induction false} ForeignToList(m: Model, ids: seq<Id>, name: string)
    requires Foreign(m, name)
    ensures FirstNamed(m, ids, name) == None
  {
    hide Foreign;
    if ids != [] {
      assert Get(m, ids[0]).name != name by { NotNamed(m, ids[0], name); }
      ForeignToList(m, ids[1..], name);
    }
  }

  lemma NotNamed(m: Model, id: Id, name: string)
    requires Foreign(m, name)
    ensures Get(m, id).name != name
  {
  }

  lemma {:induction false} ForeignToImports(m: Model, imports: seq<Id>, name: string)
    requires Foreign(m, name)
    ensures SearchImports(m, imports, name) == None
  {
    hide Foreign;
    if imports != [] {
      var p := ImportedPackage(m, imports[0]);
      if p.Some? { ForeignToList(m, Get(m, p.value).members, name); }
      ForeignToImports(m, imports[1..], name);
    }
  }

  lemma {:induction false} ForeignHead(m: Model, scopes: seq<Scope>, name: string)
    requires Foreign(m, name)
    ensures LookupChain(m, scopes, name) == None && SearchWildcards(m, scopes, name) == None
  {
    hide Foreign, SearchImports;
    if scopes != [] {
      ForeignToList(m, scopes[0].symbols, name);
      ForeignToImports(m, scopes[0].wildcards, name);
      ForeignHead(m, scopes[1..], name);
    }
  }

  lemma DoneStep(p: Progress, s: Slot, scopes: seq<Scope>)
    requires IsSlot(p.model, s) && Done(p.model, s)
    requires s.role == RedefinedRefs ==> |RefAt(p.model, s).parts| != 1
    ensures Stepped(p, s, scopes, true) == p
  {
    hide Foreign, LookupChain, SearchWildcards;
    var r := RefAt(p.model, s);
    if r.parts != [] && r.target.None? { ForeignHead(p.model, scopes, r.parts[0]); }
  }

  lemma {:induction false} DoneList(p: Progress, id: Id, role: Role, scopes: seq<Scope>, n: nat)
    requires AllDone(p.model) && n <= |RefsOf(Get(p.model, id), role)|
    ensures ListStepped(p, id, role, scopes, n) == p
  {
    hide RefsOf, Done, Stepped;
    if n > 0 {
      DoneList(p, id, role, scopes, n - 1);
      var s := Slot(id, role, n - 1);
      NoRefsOutside(p.model, id, role);
      if role != RedefinedRefs || |RefAt(p.model, s).parts| > 1 {
        assert Done(p.model, s);
        DoneStep(p, s, scopes);
      }
    }
  }

  lemma NoRefsOutside(m: Model, id: Id, role: Role)
    ensures RefsOf(Get(m, id), role) != [] ==> id < |m| && Get(m, id) == m[id]
  {
  }

  lemma {:induction false} DoneRoles(p: Progress, id: Id, roles: seq<Role>, scopes: seq<Scope>)
    requires AllDone(p.model)
    ensures RolesStepped(p, id, roles, scopes) == p
    decreases |roles|
  {
    hide AllDone, ListStepped, RefsOf;
    if roles != [] {
      DoneRoles(p, id, roles[..|roles| - 1], scopes);
      var last := roles[|roles| - 1];
      DoneList(p, id, last, scopes, |RefsOf(Get(p.model, id), last)|);
    }
  }

  lemma DoneNames(p: Progress, n: Id, scopes: seq<Scope>)
    requires AllDone(p.model)
    ensures Declared(p, [], Get(p.model, n).members, scopes, false) == p
  {
    hide Declared, DistinctNames;
    var members := Get(p.model, n).members;
    assert [] + members == members;
    QuietNames(p, [], members, false, scopes);
  }

  lemma {:induction false} DoneMembers(p: Progress, n: Id, members: seq<Id>, scopes: seq<Scope>)
    requires AllDone(p.model)
    ensures MembersWalked(p, n, members, scopes) == p
    decreases if n < |p.model| then |p.model| - n else 0, 0, |members|
  {
    hide AllDone, Walked;
    if members != [] {
      var x := members[|members| - 1];
      DoneMembers(p, n, members[..|members| - 1], scopes);
      if n < x < |p.model| { DoneWalk(p, x, scopes); }
    }
  }

  lemma {:induction false} DoneWalk(p: Progress, n: Id, scopes: seq<Scope>)
    requires AllDone(p.model)
    ensures Walked(p, n, scopes) == p
    decreases if n < |p.model| then |p.model| - n else 0, 1
  {
    hide AllDone, RolesStepped, MembersWalked, Declared, Inner;
    var members := Get(p.model, n).members;
    var inner := [Inner(p.model, [], members)] + scopes;
    DoneRoles(p, n, EarlyRoles(Get(p.model, n).kind), scopes);
    DoneRoles(p, n, [UsedRefs], inner);
    DoneNames(p, n, scopes);
    DoneMembers(p, n, members, inner);
    DoneMembers(p, n, members, scopes);
  }

  /** Running the resolver on such a program reports nothing and binds nothing more. */
  lemma ProgramIsDone(m: Model, program: Id, library: Id)
    requires AllDone(m) && DistinctNames(m, [library] + Get(m, program).members)
    ensures ProgramWalked(m, program, library) == Progress(m, 0)
  {
    hide DistinctNames, MembersWalked, Declared, Inner;
    var members := Get(m, program).members;
    QuietNames(Progress(m, 0), [library], members, true, []);
    DoneMembers(Progress(m, 0), program, members, [Inner(m, [library], members)]);
  }
}
