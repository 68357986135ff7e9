/** The connection checker: flow directions under conjugation. */
module Connections {
  import opened Tokens
  import opened Basics
  import opened Elements

  datatype Role = Connect | FlowFrom | FlowTo

  function Flip(d: Direction): Direction {
    match d
    case In => Out
    case Out => In
    case _ => d
  }

  predicate IsPort(m: Model, id: Id) {
    Get(m, id).kind == Usage && Get(m, id).defKind == KW_PORT
  }

  predicate IsPortLike(m: Model, id: Id) {
    var t := DeclaredType(m, id);
    IsPort(m, id) || (t.Some? && Get(m, t.value).kind == Definition && Get(m, t.value).defKind == KW_PORT)
  }

  /** Errors reported for one end. */
  function EndErrors(m: Model, end: Ref, role: Role): nat {
    if end.target.None? then 0
    else
      var id := end.target.value;
      if !IsPortLike(m, id) then 1
      else if role == Connect || !IsPort(m, id) then 0
      else
        var d := if end.parity then Flip(Get(m, id).direction) else Get(m, id).direction;
        if role == FlowFrom && d != Out && d != InOut then 1
        else if role == FlowTo && d != In && d != InOut then 1
        else 0
  }

  predicate IsFlow(e: Element) { e.defKind == KW_FLOW || e.defKind == KW_MESSAGE }

  /** The usages whose ends are not ports in the first place.  A `bind` or `allocate`
      statement, flagged as such on a connection usage, has that keyword as its kind. */
  predicate SkipsPorts(e: Element) { e.defKind == KW_BIND || e.defKind == KW_ALLOCATE || e.defKind == KW_SATISFY }

  function RoleOf(e: Element, i: nat): Role {
    if IsFlow(e) && i == 0 then FlowFrom else if IsFlow(e) && i == 1 then FlowTo else Connect
  }

  function EndsErrors(m: Model, e: Element, n: nat): nat
    requires n <= |e.ends|
  {
    if n == 0 then 0 else EndsErrors(m, e, n - 1) + EndErrors(m, e.ends[n - 1], RoleOf(e, n - 1))
  }

  /** Errors reported for the ends of one usage. */
  function UsageErrors(m: Model, e: Element): nat {
    if e.kind == Usage && !SkipsPorts(e) then EndsErrors(m, e, |e.ends|) else 0
  }

  /** Errors reported by the walk from `n`. */
  function TreeErrors(m: Model, n: Id): nat
    requires Nested(m)
    decreases if n < |m| then |m| - n else 0, 1
  {
    var e := Get(m, n);
    if e.kind in {Program, Package, Definition, Usage} then UsageErrors(m, e) + MembersErrors(m, n, e.members) else 0
  }

  function MembersErrors(m: Model, n: Id, ids: seq<Id>): nat
    requires Nested(m) && forall x | x in ids :: x in Get(m, n).members
    decreases if n < |m| then |m| - n else 0, 0, |ids|
  {
    if ids == [] then 0
    else
      var last := ids[|ids| - 1];
      NestedMember(m, n, last);
      MembersErrors(m, n, ids[..|ids| - 1]) + TreeErrors(m, last)
  }

  class ConnectionChecker {
    const m: Model
    var errorCount: nat

    constructor (model: Model)
      ensures m == model && errorCount == 0
    {
      m, errorCount := model, 0;
    }

    method CheckEnd(end: Ref, role: Role)
      modifies this
      ensures errorCount == old(errorCount) + EndErrors(m, end, role)
    {
      if end.target.None? {
        return;
      }
      var id := end.target.value;
      if !IsPortLike(m, id) {
        errorCount := errorCount + 1;
        return;
      }
      if role == Connect || !IsPort(m, id) {
        return;
      }
      var d := Get(m, id).direction;
      if end.parity { d := Flip(d); }
      if role == FlowFrom && d != Out && d != InOut { errorCount := errorCount + 1; }
      if role == FlowTo && d != In && d != InOut { errorCount := errorCount + 1; }
    }

    method Walk(n: Id)
      requires Nested(m)
      modifies this
      ensures errorCount == old(errorCount) + TreeErrors(m, n)
      decreases if n < |m| then |m| - n else 0
    {
      hide EndErrors, Nested;
      var e := Get(m, n);
      if e.kind !in {Program, Package, Definition, Usage} {
        return;
      }
      if e.kind == Usage && !SkipsPorts(e) {
        var i := 0;
        while i < |e.ends|
          invariant i <= |e.ends| && errorCount == old(errorCount) + EndsErrors(m, e, i)
        {
          CheckEnd(e.ends[i], RoleOf(e, i));
          i := i + 1;
        }
      }
      var j := 0;
      while j < |e.members|
        invariant j <= |e.members|
        invariant errorCount == old(errorCount) + UsageErrors(m, e) + MembersErrors(m, n, e.members[..j])
      {
        NestedMember(m, n, e.members[j]);
        assert e.members[..j + 1][..j] == e.members[..j];
        Walk(e.members[j]);
        j := j + 1;
      }
      assert e.members[..j] == e.members;
    }

    /** `checkConnections`. */
    method CheckConnections(program: Id) returns (ok: bool)
      requires Nested(m)
      modifies this
      ensures ok <==> TreeErrors(m, program) == 0
    {
      errorCount := 0;
      Walk(program);
      ok := errorCount == 0;
    }
  }

  // ---- conjugation duality -----------------------------------------------------------

  function Conjugate(end: Ref): Ref { end.(parity := !end.parity) }

  /** The same flow read from the other side: its two ends are exchanged and conjugated. */
  function Dual(e: Element): Element {
    if e.kind == Usage && IsFlow(e) && |e.ends| == 2 then e.(ends := [Conjugate(e.ends[1]), Conjugate(e.ends[0])])
    else e
  }

  /** Every flow of the model is dualised. */
  function DualModel(m: Model): (d: Model)
    ensures |d| == |m| && forall id | 0 <= id < |m| :: d[id] == Dual(m[id])
  {
    if m == [] then [] else DualModel(m[..|m| - 1]) + [Dual(m[|m| - 1])]
  }

  lemma DualGet(m: Model, id: Id)
    ensures Get(DualModel(m), id) == Dual(Get(m, id))
  {
  }

  /** A source end becomes a target end of the same verdict, and conversely. */
  lemma EndDuality(m: Model, end: Ref)
    ensures EndErrors(DualModel(m), Conjugate(end), FlowTo) == EndErrors(m, end, FlowFrom)
    ensures EndErrors(DualModel(m), Conjugate(end), FlowFrom) == EndErrors(m, end, FlowTo)
  {
    if end.target.Some? { SamePort(m, end.target.value); }
  }

  lemma SamePort(m: Model, id: Id)
    ensures IsPort(DualModel(m), id) == IsPort(m, id) && IsPortLike(DualModel(m), id) == IsPortLike(m, id)
    ensures Get(DualModel(m), id).direction == Get(m, id).direction
  {
    DualGet(m, id);
    var t := DeclaredType(m, id);
    if t.Some? { DualGet(m, t.value); }
  }

  lemma {:induction false} EndsUnchanged(m: Model, e: Element, n: nat)
    requires n <= |e.ends|
    ensures EndsErrors(DualModel(m), e, n) == EndsErrors(m, e, n)
  {
    hide IsPort, IsPortLike;
    if n > 0 {
      EndsUnchanged(m, e, n - 1);
      var end := e.ends[n - 1];
      if end.target.Some? { SamePort(m, end.target.value); }
    }
  }

  lemma UsageDuality(m: Model, e: Element)
    ensures UsageErrors(DualModel(m), Dual(e)) == UsageErrors(m, e)
  {
    hide EndErrors;
    if e.kind == Usage && IsFlow(e) && |e.ends| == 2 {
      var d := Dual(e);
      EndDuality(m, e.ends[0]);
      EndDuality(m, e.ends[1]);
      assert EndsErrors(m, e, 2) == EndsErrors(m, e, 1) + EndErrors(m, e.ends[1], FlowTo);
      assert EndsErrors(m, e, 1) == EndsErrors(m, e, 0) + EndErrors(m, e.ends[0], FlowFrom);
      assert EndsErrors(DualModel(m), d, 2) == EndsErrors(DualModel(m), d, 1) + EndErrors(DualModel(m), d.ends[1], FlowTo);
      assert EndsErrors(DualModel(m), d, 1) == EndsErrors(DualModel(m), d, 0) + EndErrors(DualModel(m), d.ends[0], FlowFrom);
    } else {
      EndsUnchanged(m, e, |e.ends|);
    }
  }

  lemma DualNested(m: Model)
    requires Nested(m)
    ensures Nested(DualModel(m))
  {
    var d := DualModel(m);
    forall c, x | 0 <= c < |d| && x in d[c].members ensures c < x {
      assert x in m[c].members;
    }
  }

  /** Exchanging the ends of every flow and flipping their parities leaves the verdict on
      the whole program unchanged. */
  lemma {:induction false} ConjugationDuality(m: Model, n: Id)
    requires Nested(m)
    ensures Nested(DualModel(m)) && TreeErrors(DualModel(m), n) == TreeErrors(m, n)
    decreases if n < |m| then |m| - n else 0, 1
  {
    hide UsageErrors, Nested, Dual;
    DualNested(m);
    DualGet(m, n);
    DualKeeps(Get(m, n));
    UsageDuality(m, Get(m, n));
    if Get(m, n).kind in {Program, Package, Definition, Usage} { MembersDuality(m, n, Get(m, n).members); }
  }

  lemma DualKeeps(e: Element)
    ensures Dual(e).kind == e.kind && Dual(e).members == e.members
  {
  }

  lemma {:induction false} MembersDuality(m: Model, n: Id, ids: seq<Id>)
    requires Nested(m) && Nested(DualModel(m))
    requires forall x | x in ids :: x in Get(m, n).members && x in Get(DualModel(m), n).members
    ensures MembersErrors(DualModel(m), n, ids) == MembersErrors(m, n, ids)
    decreases if n < |m| then |m| - n else 0, 0, |ids|
  {
    hide Nested;
    if ids != [] {
      var last := ids[|ids| - 1];
      NestedMember(m, n, last);
      NestedMember(DualModel(m), n, last);
      MembersDuality(m, n, ids[..|ids| - 1]);
      ConjugationDuality(m, last);
    }
  }

  lemma DualTwice(e: Element)
    ensures Dual(Dual(e)) == e
  {
    if e.kind == Usage && IsFlow(e) && |e.ends| == 2 { assert Dual(Dual(e)).ends == e.ends; }
  }

  /** Conjugating twice changes nothing. */
  lemma DualIsInvolution(m: Model)
    ensures DualModel(DualModel(m)) == m
  {
    hide Dual;
    var d := DualModel(DualModel(m));
    forall id | 0 <= id < |m| ensures d[id] == m[id] {
      DualTwice(m[id]);
    }
  }
}
