/** Member lookup through types and specializations: a depth-first walk bounded by depth. */
module Lookup {
  import opened Basics
  import opened Elements
  import opened Walks

  const MAX_DEPTH: nat := 32

  predicate HasMembers(k: ElementKind) {
    k == Program || k == Package || k == Definition || k == Usage
  }

  /** The first of `ids` that is named `name`. */
  function FirstNamed(m: Model, ids: seq<Id>, name: string): Option<Id> {
    if ids == [] then None
    else if Get(m, ids[0]).name != "" && Get(m, ids[0]).name == name then Some(ids[0])
    else FirstNamed(m, ids[1..], name)
  }

  /** The element's own member of that name. */
  function DirectMember(m: Model, id: Id, name: string): Option<Id> {
    if HasMembers(Get(m, id).kind) then FirstNamed(m, Get(m, id).members, name) else None
  }

  /** What an alias stands for after at most `n` hops; an unbound alias stands for nothing. */
  function Deref(m: Model, id: Id, n: nat): Option<Id>
    decreases n
  {
    if Get(m, id).kind != Alias || n == 0 then Some(id)
    else if TargetOf(Get(m, id)).None? then None
    else Deref(m, TargetOf(Get(m, id)).value, n - 1)
  }

  /** The bound type and specialization references that members are inherited through. */
  function Parents(m: Model, id: Id): seq<Id> {
    match Get(m, id).kind
    case Definition => Bound(Get(m, id).specializes)
    case Usage => Bound(Get(m, id).types) + Bound(Get(m, id).specializes)
    case Attribute => Bound(Get(m, id).types)
    case _ => []
  }

  /** The containers of the depth-first walk from `id`, in order, down to depth `fuel`. */
  function Visit(m: Model, id: Id, fuel: nat): seq<Id>
    decreases fuel, 0
  {
    if fuel == 0 || Deref(m, id, MAX_DEPTH).None? then []
    else
      var c := Deref(m, id, MAX_DEPTH).value;
      [c] + VisitAll(m, Parents(m, c), fuel - 1)
  }

  function VisitAll(m: Model, ids: seq<Id>, fuel: nat): seq<Id>
    decreases fuel, 1, |ids|
  {
    if ids == [] then [] else Visit(m, ids[0], fuel) + VisitAll(m, ids[1..], fuel)
  }

  /** The member of the first container of `cs` that has one. */
  function FirstHit(m: Model, cs: seq<Id>, name: string): Option<Id> {
    if cs == [] then None
    else if DirectMember(m, cs[0], name).Some? then DirectMember(m, cs[0], name)
    else FirstHit(m, cs[1..], name)
  }

  lemma {:induction false} FirstHitConcat(m: Model, a: seq<Id>, b: seq<Id>, name: string)
    ensures FirstHit(m, a + b, name) == if FirstHit(m, a, name).Some? then FirstHit(m, a, name) else FirstHit(m, b, name)
  {
    if a == [] {
      assert a + b == b;
    } else {
      assert (a + b)[1..] == a[1..] + b;
      FirstHitConcat(m, a[1..], b, name);
    }
  }

  lemma {:induction false} VisitAllConcat(m: Model, a: seq<Id>, b: seq<Id>, fuel: nat)
    ensures VisitAll(m, a + b, fuel) == VisitAll(m, a, fuel) + VisitAll(m, b, fuel)
  {
    if a == [] {
      assert a + b == b;
    } else {
      assert (a + b)[1..] == a[1..] + b;
      VisitAllConcat(m, a[1..], b, fuel);
    }
  }

  // ---- the code -------------------------------------------------------------------

  method DerefAlias(m: Model, id: Id) returns (r: Option<Id>)
    ensures r == Deref(m, id, MAX_DEPTH)
  {
    var n, depth := id, 0;
    while Get(m, n).kind == Alias && depth < MAX_DEPTH
      invariant depth <= MAX_DEPTH && Deref(m, n, MAX_DEPTH - depth) == Deref(m, id, MAX_DEPTH)
    {
      if TargetOf(Get(m, n)).None? {
        return None;
      }
      n := TargetOf(Get(m, n)).value;
      depth := depth + 1;
    }
    return Some(n);
  }

  method OwnMember(m: Model, id: Id, name: string) returns (r: Option<Id>)
    ensures r == DirectMember(m, id, name)
  {
    if !HasMembers(Get(m, id).kind) {
      return None;
    }
    var members := Get(m, id).members;
    var i := 0;
    while i < |members|
      invariant i <= |members|
      invariant FirstNamed(m, members[i..], name) == FirstNamed(m, members, name)
    {
      if Get(m, members[i]).name != "" && Get(m, members[i]).name == name {
        return Some(members[i]);
      }
      i := i + 1;
    }
    return None;
  }

  /** The first hit among the containers above `refs`. */
  function HitAbove(m: Model, refs: seq<Ref>, name: string, fuel: nat): Option<Id> {
    FirstHit(m, VisitAll(m, Bound(refs), fuel), name)
  }

  lemma HitAboveUnfolds(m: Model, refs: seq<Ref>, name: string, fuel: nat)
    requires refs != []
    ensures HitAbove(m, refs, name, fuel) ==
      if refs[0].target.Some? && FirstHit(m, Visit(m, refs[0].target.value, fuel), name).Some?
      then FirstHit(m, Visit(m, refs[0].target.value, fuel), name)
      else HitAbove(m, refs[1..], name, fuel)
  {
    if refs[0].target.Some? {
      var id, rest := refs[0].target.value, Bound(refs[1..]);
      assert ([id] + rest)[1..] == rest;
      FirstHitConcat(m, Visit(m, id, fuel), VisitAll(m, rest, fuel), name);
    } else {
      assert Bound(refs) == Bound(refs[1..]);
    }
  }

  /** One step of the walk: own members first, then what is above. */
  lemma VisitUnfolds(m: Model, id: Id, name: string, fuel: nat)
    requires fuel > 0
    ensures FirstHit(m, Visit(m, id, fuel), name) ==
      match Deref(m, id, MAX_DEPTH)
      case None => None
      case Some(c) =>
        if DirectMember(m, c, name).Some? then DirectMember(m, c, name)
        else FirstHit(m, VisitAll(m, Parents(m, c), fuel - 1), name)
  {
    hide DirectMember, Deref, Parents;
    if Deref(m, id, MAX_DEPTH).Some? {
      var c := Deref(m, id, MAX_DEPTH).value;
      var above := VisitAll(m, Parents(m, c), fuel - 1);
      assert ([c] + above)[1..] == above;
    }
  }

  /** Types before specializations. */
  lemma ParentsUnfold(m: Model, c: Id, name: string, fuel: nat)
    ensures FirstHit(m, VisitAll(m, Parents(m, c), fuel), name) ==
      var e := Get(m, c);
      match e.kind
      case Definition => HitAbove(m, e.specializes, name, fuel)
      case Usage =>
        var r := HitAbove(m, e.types, name, fuel);
        if r.Some? then r else HitAbove(m, e.specializes, name, fuel)
      case Attribute => HitAbove(m, e.types, name, fuel)
      case _ => None
  {
    if Get(m, c).kind == Usage {
      var types, specs := Bound(Get(m, c).types), Bound(Get(m, c).specializes);
      VisitAllConcat(m, types, specs, fuel);
      FirstHitConcat(m, VisitAll(m, types, fuel), VisitAll(m, specs, fuel), name);
    }
  }

  method SearchInheritedMembers(m: Model, refs: seq<Ref>, name: string, depth: nat) returns (r: Option<Id>)
    requires depth < MAX_DEPTH
    ensures r == HitAbove(m, refs, name, MAX_DEPTH - depth - 1)
    decreases MAX_DEPTH - depth, 0
  {
    ghost var fuel := MAX_DEPTH - depth - 1;
    var i := 0;
    while i < |refs|
      invariant i <= |refs|
      invariant HitAbove(m, refs[i..], name, fuel) == HitAbove(m, refs, name, fuel)
    {
      HitAboveUnfolds(m, refs[i..], name, fuel);
      if refs[i].target.Some? {
        r := LookupMemberDepth(m, refs[i].target.value, name, depth + 1);
        if r.Some? {
          return;
        }
      }
      assert refs[i..][1..] == refs[i + 1..];
      i := i + 1;
    }
    r := None;
  }

  method LookupMemberDepth(m: Model, id: Id, name: string, depth: nat) returns (r: Option<Id>)
    requires depth <= MAX_DEPTH
    ensures r == FirstHit(m, Visit(m, id, MAX_DEPTH - depth), name)
    decreases MAX_DEPTH - depth, 1
  {
    hide DirectMember, Deref, Visit, VisitAll, HitAbove, Parents;
    if depth >= MAX_DEPTH {
      EmptyVisit(m, id, name);
      return None;
    }
    VisitUnfolds(m, id, name, MAX_DEPTH - depth);
    var container := DerefAlias(m, id);
    if container.None? {
      return None;
    }
    var c := container.value;
    ParentsUnfold(m, c, name, MAX_DEPTH - depth - 1);
    r := OwnMember(m, c, name);
    if r.Some? {
      return;
    }
    match Get(m, c).kind
    case Definition => r := SearchInheritedMembers(m, Get(m, c).specializes, name, depth);
    case Usage =>
      r := SearchInheritedMembers(m, Get(m, c).types, name, depth);
      if r.None? { r := SearchInheritedMembers(m, Get(m, c).specializes, name, depth); }
    case Attribute => r := SearchInheritedMembers(m, Get(m, c).types, name, depth);
    case _ => r := None;
  }

  lemma EmptyVisit(m: Model, id: Id, name: string)
    ensures FirstHit(m, Visit(m, id, 0), name) == None
  {
  }

  /** What `lookupMember` finds. */
  function Member(m: Model, id: Id, name: string): Option<Id> {
    FirstHit(m, Visit(m, id, MAX_DEPTH), name)
  }

  method LookupMember(m: Model, id: Id, name: string) returns (r: Option<Id>)
    ensures r == Member(m, id, name)
  {
    r := LookupMemberDepth(m, id, name, 0);
  }

  // ---- what the walk reaches --------------------------------------------------------

  /** `Parents` with aliases replaced by what they stand for. */
  function Ancestors(m: Model, id: Id): seq<Id> {
    DerefAll(m, Parents(m, id))
  }

  function DerefAll(m: Model, ids: seq<Id>): seq<Id> {
    if ids == [] then []
    else (match Deref(m, ids[0], MAX_DEPTH) case Some(c) => [c] case None => []) + DerefAll(m, ids[1..])
  }

  function Links(m: Model): Id -> seq<Id> {
    (id: Id) => Ancestors(m, id)
  }

  lemma {:induction false} DerefAllMembers(m: Model, ids: seq<Id>, e: Id)
    ensures e in DerefAll(m, ids) <==> exists i | 0 <= i < |ids| :: Deref(m, ids[i], MAX_DEPTH) == Some(e)
  {
    hide Deref;
    if ids != [] {
      DerefAllMembers(m, ids[1..], e);
      if i :| 0 <= i < |ids| && Deref(m, ids[i], MAX_DEPTH) == Some(e) {
        if i > 0 { assert Deref(m, ids[1..][i - 1], MAX_DEPTH) == Some(e); }
      }
    }
  }

  lemma {:induction false} VisitAllMembers(m: Model, ids: seq<Id>, c: Id, fuel: nat)
    ensures c in VisitAll(m, ids, fuel) <==> exists i | 0 <= i < |ids| :: c in Visit(m, ids[i], fuel)
    decreases |ids|
  {
    hide Visit;
    if ids != [] {
      VisitAllMembers(m, ids[1..], c, fuel);
      if i :| 0 <= i < |ids| && c in Visit(m, ids[i], fuel) {
        if i > 0 { assert c in Visit(m, ids[1..][i - 1], fuel); }
      }
    }
  }

  /** The walk visits exactly the containers that are less than `fuel` links above. */
  lemma {:induction false} VisitsWithin(m: Model, id: Id, c: Id, fuel: nat)
    ensures c in Visit(m, id, fuel) <==>
      fuel > 0 && Deref(m, id, MAX_DEPTH).Some? && ReachesWithin(Links(m), Deref(m, id, MAX_DEPTH).value, c, fuel - 1)
    decreases fuel
  {
    hide Deref, ReachesWithin, Parents, VisitAll, DerefAll;
    if fuel > 0 && Deref(m, id, MAX_DEPTH).Some? {
      var d := Deref(m, id, MAX_DEPTH).value;
      var ids := Parents(m, d);
      VisitAllMembers(m, ids, c, fuel - 1);
      if c == d {
        ReachSelf(Links(m), d, fuel - 1);
      } else if ReachesWithin(Links(m), d, c, fuel - 1) {
        var e := ReachStep(Links(m), d, c, fuel - 1);
        DerefAllMembers(m, ids, e);
        var i :| 0 <= i < |ids| && Deref(m, ids[i], MAX_DEPTH) == Some(e);
        VisitsWithin(m, ids[i], c, fuel - 1);
      } else if c in Visit(m, id, fuel) {
        var i :| 0 <= i < |ids| && c in Visit(m, ids[i], fuel - 1);
        VisitsWithin(m, ids[i], c, fuel - 1);
        var e := Deref(m, ids[i], MAX_DEPTH).value;
        DerefAllMembers(m, ids, e);
        StepThenReach(Links(m), d, e, c, fuel - 2);
      }
    }
  }

  lemma {:induction false} HitExists(m: Model, cs: seq<Id>, name: string)
    ensures FirstHit(m, cs, name).Some? <==> exists c | c in cs :: DirectMember(m, c, name).Some?
  {
    if cs != [] { HitExists(m, cs[1..], name); }
  }

  /** `lookupMember` finds something exactly when a container with such a member is at most
      31 links above the (dereferenced) start. */
  lemma MemberIffReachable(m: Model, id: Id, name: string)
    ensures Member(m, id, name).Some? <==>
      exists c :: DirectMember(m, c, name).Some? && Deref(m, id, MAX_DEPTH).Some? &&
                  ReachesWithin(Links(m), Deref(m, id, MAX_DEPTH).value, c, MAX_DEPTH - 1)
  {
    var cs := Visit(m, id, MAX_DEPTH);
    HitExists(m, cs, name);
    if Member(m, id, name).Some? {
      var c :| c in cs && DirectMember(m, c, name).Some?;
      VisitsWithin(m, id, c, MAX_DEPTH);
    }
    if c :| DirectMember(m, c, name).Some? && Deref(m, id, MAX_DEPTH).Some? &&
            ReachesWithin(Links(m), Deref(m, id, MAX_DEPTH).value, c, MAX_DEPTH - 1) {
      VisitsWithin(m, id, c, MAX_DEPTH);
    }
  }

  // ---- acyclic models -----------------------------------------------------------------

  /** Deeper than the height of the start, the bound makes no difference to the walk. */
  lemma {:induction false} VisitStable(m: Model, rank: Id -> nat, id: Id, fuel: nat, more: nat)
    requires Descends(Links(m), rank) && fuel <= more
    requires Deref(m, id, MAX_DEPTH).Some? ==> rank(Deref(m, id, MAX_DEPTH).value) < fuel
    ensures Visit(m, id, fuel) == Visit(m, id, more)
    decreases fuel, 0
  {
    hide Deref, Parents, DerefAll, Descends;
    if Deref(m, id, MAX_DEPTH).Some? {
      var d := Deref(m, id, MAX_DEPTH).value;
      forall e | e in DerefAll(m, Parents(m, d)) ensures rank(e) < fuel - 1 {
        AncestorsDescend(m, rank, d, e);
      }
      VisitAllStable(m, rank, Parents(m, d), fuel - 1, more - 1);
    }
  }

  lemma AncestorsDescend(m: Model, rank: Id -> nat, d: Id, e: Id)
    requires Descends(Links(m), rank) && e in DerefAll(m, Parents(m, d))
    ensures rank(e) < rank(d)
  {
    assert e in Links(m)(d);
  }

  lemma {:induction false} VisitAllStable(m: Model, rank: Id -> nat, ids: seq<Id>, fuel: nat, more: nat)
    requires Descends(Links(m), rank) && fuel <= more
    requires forall e | e in DerefAll(m, ids) :: rank(e) < fuel
    ensures VisitAll(m, ids, fuel) == VisitAll(m, ids, more)
    decreases fuel, 1, |ids|
  {
    hide Deref, Descends;
    if ids != [] {
      var d := Deref(m, ids[0], MAX_DEPTH);
      if d.Some? { assert d.value in DerefAll(m, ids); }
      VisitStable(m, rank, ids[0], fuel, more);
      VisitAllStable(m, rank, ids[1..], fuel, more);
    }
  }

  /** The unbounded preorder of the containers above `id` in an acyclic model: the container, then
      everything above each of its parents in turn. */
  ghost function Preorder(m: Model, rank: Id -> nat, id: Id): seq<Id>
    requires Descends(Links(m), rank)
    decreases match Deref(m, id, MAX_DEPTH) case None => 0 case Some(d) => rank(d) + 1, 0
  {
    match Deref(m, id, MAX_DEPTH)
    case None => []
    case Some(d) =>
      assert forall e | e in DerefAll(m, Parents(m, d)) :: e in Links(m)(d);
      [d] + PreorderAll(m, rank, Parents(m, d), rank(d))
  }

  /** The same for several starts, all of them below `height`. */
  ghost function PreorderAll(m: Model, rank: Id -> nat, ids: seq<Id>, height: nat): seq<Id>
    requires Descends(Links(m), rank) && forall e | e in DerefAll(m, ids) :: rank(e) < height
    decreases height, 1, |ids|
  {
    if ids == [] then []
    else
      assert Deref(m, ids[0], MAX_DEPTH).Some? ==> Deref(m, ids[0], MAX_DEPTH).value in DerefAll(m, ids);
      Preorder(m, rank, ids[0]) + PreorderAll(m, rank, ids[1..], height)
  }

  /** The bounded walk goes through it when the bound exceeds the height of the start. */
  lemma {:induction false} VisitIsPreorder(m: Model, rank: Id -> nat, id: Id, fuel: nat)
    requires Descends(Links(m), rank)
    requires Deref(m, id, MAX_DEPTH).Some? ==> rank(Deref(m, id, MAX_DEPTH).value) < fuel
    ensures Visit(m, id, fuel) == Preorder(m, rank, id)
    decreases fuel, 0
  {
    hide Deref, Parents, DerefAll, Descends;
    if Deref(m, id, MAX_DEPTH).Some? {
      var d := Deref(m, id, MAX_DEPTH).value;
      forall e | e in DerefAll(m, Parents(m, d)) ensures rank(e) < rank(d) {
        AncestorsDescend(m, rank, d, e);
      }
      VisitAllIsPreorder(m, rank, Parents(m, d), fuel - 1, rank(d));
    }
  }

  lemma {:induction false} VisitAllIsPreorder(m: Model, rank: Id -> nat, ids: seq<Id>, fuel: nat, height: nat)
    requires Descends(Links(m), rank) && height <= fuel
    requires forall e | e in DerefAll(m, ids) :: rank(e) < height
    ensures VisitAll(m, ids, fuel) == PreorderAll(m, rank, ids, height)
    decreases fuel, 1, |ids|
  {
    hide Deref, Descends;
    if ids != [] {
      var d := Deref(m, ids[0], MAX_DEPTH);
      if d.Some? { assert d.value in DerefAll(m, ids); }
      VisitIsPreorder(m, rank, ids[0], fuel);
      VisitAllIsPreorder(m, rank, ids[1..], fuel, height);
    }
  }

  /** On an acyclic model of height at most 31, `lookupMember` returns the first hit of the
      unbounded preorder walk. */
  lemma MemberIsFirstInPreorder(m: Model, rank: Id -> nat, id: Id, name: string)
    requires Descends(Links(m), rank)
    requires Deref(m, id, MAX_DEPTH).Some? ==> rank(Deref(m, id, MAX_DEPTH).value) < MAX_DEPTH
    ensures Member(m, id, name) == FirstHit(m, Preorder(m, rank, id), name)
  {
    VisitIsPreorder(m, rank, id, MAX_DEPTH);
  }
}
