/** The redefinition checker. */
module Redefinition {
  import opened Basics
  import opened Elements
  import opened Walks
  import Subtyping
  import opened Lookup

  // ---- searching the supertypes of an owner -------------------------------------

  /** The bound references through which a definition or usage inherits. */
  function Supers(m: Model, id: Id): seq<Id> {
    match Get(m, id).kind
    case Definition => Bound(Get(m, id).specializes)
    case Usage => Bound(Get(m, id).types) + Bound(Get(m, id).specializes)
    case _ => []
  }

  /** The feature that `name` denotes in the strict supertypes of `owner`. */
  function InSupertypes(m: Model, owner: Id, name: string): Option<Id> {
    FirstHit(m, VisitAll(m, Supers(m, owner), MAX_DEPTH), name)
  }

  method SearchEach(m: Model, refs: seq<Ref>, name: string) returns (r: Option<Id>)
    ensures r == HitAbove(m, refs, name, MAX_DEPTH)
  {
    hide Visit, VisitAll, HitAbove;
    var i := 0;
    while i < |refs|
      invariant i <= |refs|
      invariant HitAbove(m, refs[i..], name, MAX_DEPTH) == HitAbove(m, refs, name, MAX_DEPTH)
    {
      HitAboveUnfolds(m, refs[i..], name, MAX_DEPTH);
      if refs[i].target.Some? {
        r := LookupMember(m, refs[i].target.value, name);
        if r.Some? {
          return;
        }
      }
      assert refs[i..][1..] == refs[i + 1..];
      i := i + 1;
    }
    assert refs[i..] == [];
    NoHitAboveNothing(m, name);
    r := None;
  }

  lemma NoHitAboveNothing(m: Model, name: string)
    ensures HitAbove(m, [], name, MAX_DEPTH) == None
  {
  }

  method FindInSupertypes(m: Model, owner: Id, name: string) returns (r: Option<Id>)
    ensures r == InSupertypes(m, owner, name)
  {
    hide Visit, VisitAll;
    ParentsUnfold(m, owner, name, MAX_DEPTH);
    match Get(m, owner).kind
    case Definition => r := SearchEach(m, Get(m, owner).specializes, name);
    case Usage =>
      r := SearchEach(m, Get(m, owner).types, name);
      if r.None? { r := SearchEach(m, Get(m, owner).specializes, name); }
    case _ =>
      NoHitAboveNothing(m, name);
      r := None;
  }

  /** For an owner without such a direct member, in an acyclic model of height at most 31,
      the strict search agrees with `lookupMember`. */
  lemma AgreesWithLookup(m: Model, rank: Id -> nat, owner: Id, name: string)
    requires Get(m, owner).kind == Definition || Get(m, owner).kind == Usage
    requires DirectMember(m, owner, name) == None
    requires Descends(Links(m), rank) && rank(owner) < MAX_DEPTH
    ensures InSupertypes(m, owner, name) == Member(m, owner, name)
  {
    hide Visit, VisitAll, DirectMember, Parents, Descends;
    VisitUnfolds(m, owner, name, MAX_DEPTH + 1);
    assert Parents(m, owner) == Supers(m, owner) by { SupersAreParents(m, owner); }
    VisitStable(m, rank, owner, MAX_DEPTH, MAX_DEPTH + 1);
  }

  lemma SupersAreParents(m: Model, owner: Id)
    requires Get(m, owner).kind == Definition || Get(m, owner).kind == Usage
    ensures Parents(m, owner) == Supers(m, owner)
  {
  }

  // ---- the two searches on any graph ----------------------------------------------

  /** A container that the strict search visits, and whether on its last level. */
  datatype Stop = Stop(container: Id, last: bool)

  function Stops(m: Model, id: Id, fuel: nat): seq<Stop>
    decreases fuel, 0
  {
    if fuel == 0 || Deref(m, id, MAX_DEPTH).None? then []
    else
      var c := Deref(m, id, MAX_DEPTH).value;
      [Stop(c, fuel == 1)] + StopsAll(m, Parents(m, c), fuel - 1)
  }

  function StopsAll(m: Model, ids: seq<Id>, fuel: nat): seq<Stop>
    decreases fuel, 1, |ids|
  {
    if ids == [] then [] else Stops(m, ids[0], fuel) + StopsAll(m, ids[1..], fuel)
  }

  function Containers(stops: seq<Stop>): seq<Id> {
    if stops == [] then [] else [stops[0].container] + Containers(stops[1..])
  }

  function Nearer(stops: seq<Stop>): seq<Id> {
    if stops == [] then []
    else (if stops[0].last then [] else [stops[0].container]) + Nearer(stops[1..])
  }

  lemma {:induction false} ContainersConcat(a: seq<Stop>, b: seq<Stop>)
    ensures Containers(a + b) == Containers(a) + Containers(b)
  {
    if a == [] {
      assert a + b == b;
    } else {
      assert (a + b)[1..] == a[1..] + b;
      ContainersConcat(a[1..], b);
      var left, right := Containers(a[1..]), Containers(b);
      assert [a[0].container] + (left + right) == ([a[0].container] + left) + right;
    }
  }

  lemma {:induction false} NearerConcat(a: seq<Stop>, b: seq<Stop>)
    ensures Nearer(a + b) == Nearer(a) + Nearer(b)
  {
    if a == [] {
      assert a + b == b;
    } else {
      assert (a + b)[1..] == a[1..] + b;
      NearerConcat(a[1..], b);
      var here, left, right := if a[0].last then [] else [a[0].container], Nearer(a[1..]), Nearer(b);
      assert here + (left + right) == (here + left) + right;
    }
  }

  lemma OneStop(c: Id, last: bool)
    ensures Containers([Stop(c, last)]) == [c] && Nearer([Stop(c, last)]) == if last then [] else [c]
  {
    var stops := [Stop(c, last)];
    assert stops[1..] == [];
  }

  /** The walk that is one level shorter visits the same containers but for the last level. */
  lemma {:induction false} StopsAreVisits(m: Model, id: Id, fuel: nat)
    requires fuel > 0
    ensures Containers(Stops(m, id, fuel)) == Visit(m, id, fuel)
    ensures Nearer(Stops(m, id, fuel)) == Visit(m, id, fuel - 1)
    decreases fuel, 0
  {
    hide Deref, Parents, Containers, Nearer, StopsAll, VisitAll;
    if Deref(m, id, MAX_DEPTH).Some? {
      var c := Deref(m, id, MAX_DEPTH).value;
      var here, above := [Stop(c, fuel == 1)], StopsAll(m, Parents(m, c), fuel - 1);
      ContainersConcat(here, above);
      NearerConcat(here, above);
      OneStop(c, fuel == 1);
      if fuel > 1 {
        StopsAllAreVisits(m, Parents(m, c), fuel - 1);
      } else {
        NoStops(m, Parents(m, c));
      }
    } else {
      NoStops(m, []);
    }
  }

  lemma {:induction false} StopsAllAreVisits(m: Model, ids: seq<Id>, fuel: nat)
    requires fuel > 0
    ensures Containers(StopsAll(m, ids, fuel)) == VisitAll(m, ids, fuel)
    ensures Nearer(StopsAll(m, ids, fuel)) == VisitAll(m, ids, fuel - 1)
    decreases fuel, 1, |ids|
  {
    hide Stops, Visit, Containers, Nearer;
    if ids == [] {
      NoStops(m, ids);
    } else {
      StopsAreVisits(m, ids[0], fuel);
      StopsAllAreVisits(m, ids[1..], fuel);
      ContainersConcat(Stops(m, ids[0], fuel), StopsAll(m, ids[1..], fuel));
      NearerConcat(Stops(m, ids[0], fuel), StopsAll(m, ids[1..], fuel));
    }
  }

  lemma {:induction false} NoStops(m: Model, ids: seq<Id>)
    ensures StopsAll(m, ids, 0) == [] && VisitAll(m, ids, 0) == []
    ensures Containers([]) == [] && Nearer([]) == []
  {
    if ids != [] { NoStops(m, ids[1..]); }
  }

  /** The first container with such a member lies on the last level, and the first nearer one
      has another member of that name or there is none. */
  predicate OutOfReach(m: Model, stops: seq<Stop>, name: string) {
    if stops == [] then false
    else if DirectMember(m, stops[0].container, name).None? then OutOfReach(m, stops[1..], name)
    else stops[0].last && FirstHit(m, Nearer(stops[1..]), name) != DirectMember(m, stops[0].container, name)
  }

  lemma {:induction false} HitsDiffer(m: Model, stops: seq<Stop>, name: string)
    ensures FirstHit(m, Containers(stops), name) != FirstHit(m, Nearer(stops), name) <==> OutOfReach(m, stops, name)
  {
    hide DirectMember;
    if stops != [] {
      HitsDiffer(m, stops[1..], name);
      FirstHitConcat(m, if stops[0].last then [] else [stops[0].container], Nearer(stops[1..]), name);
      assert ([stops[0].container] + Containers(stops[1..]))[1..] == Containers(stops[1..]);
    }
  }

  /** The strict search goes one link further than `lookupMember`.  On any graph, deep or
      cyclic, the two agree on an owner without such a direct member exactly when what the
      strict search finds is not out of the other's reach. */
  lemma AgreesExactly(m: Model, owner: Id, name: string)
    requires Get(m, owner).kind == Definition || Get(m, owner).kind == Usage
    requires DirectMember(m, owner, name) == None
    ensures InSupertypes(m, owner, name) == Member(m, owner, name)
      <==> !OutOfReach(m, StopsAll(m, Supers(m, owner), MAX_DEPTH), name)
  {
    hide Visit, VisitAll, DirectMember, Parents, Supers, StopsAll, Nearer, Containers, OutOfReach;
    VisitUnfolds(m, owner, name, MAX_DEPTH);
    SupersAreParents(m, owner);
    StopsAllAreVisits(m, Supers(m, owner), MAX_DEPTH);
    HitsDiffer(m, StopsAll(m, Supers(m, owner), MAX_DEPTH), name);
  }

  /** Whatever is found is a direct member of a strict ancestor of the owner. */
  lemma FoundInAncestor(m: Model, owner: Id, name: string, f: Id) returns (e: Id, c: Id)
    requires Get(m, owner).kind == Definition || Get(m, owner).kind == Usage
    requires InSupertypes(m, owner, name) == Some(f)
    ensures e in Ancestors(m, owner) && ReachesWithin(Links(m), e, c, MAX_DEPTH - 1)
    ensures DirectMember(m, c, name) == Some(f)
  {
    hide Visit, VisitAll, DirectMember, Parents, Deref, DerefAll, FirstHit, ReachesWithin;
    SupersAreParents(m, owner);
    var ids := Parents(m, owner);
    c := HitFrom(m, VisitAll(m, ids, MAX_DEPTH), name, f);
    VisitAllMembers(m, ids, c, MAX_DEPTH);
    var i :| 0 <= i < |ids| && c in Visit(m, ids[i], MAX_DEPTH);
    VisitsWithin(m, ids[i], c, MAX_DEPTH);
    e := Deref(m, ids[i], MAX_DEPTH).value;
    DerefAllMembers(m, ids, e);
  }

  lemma {:induction false} HitFrom(m: Model, cs: seq<Id>, name: string, f: Id) returns (c: Id)
    requires FirstHit(m, cs, name) == Some(f)
    ensures c in cs && DirectMember(m, c, name) == Some(f)
  {
    if DirectMember(m, cs[0], name).Some? {
      c := cs[0];
    } else {
      c := HitFrom(m, cs[1..], name, f);
    }
  }

  lemma {:induction false} FirstNamedIsMember(m: Model, ids: seq<Id>, name: string)
    ensures var r := FirstNamed(m, ids, name);
      r.Some? ==> r.value in ids && Get(m, r.value).name == name
  {
    if ids != [] { FirstNamedIsMember(m, ids[1..], name); }
  }

  // ---- the qualifier of a two-segment target ----------------------------------------

  function SuperOf(m: Model): Id -> seq<Id> {
    (id: Id) => Supers(m, id)
  }

  /** Ancestor `x` is called `qualifier` and reaches `target` under `name`. */
  predicate Qualifies(m: Model, x: Id, qualifier: string, name: string, target: Id) {
    && Get(m, x).kind in {Package, Definition, Usage, Attribute}
    && Get(m, x).name != "" && Get(m, x).name == qualifier
    && Member(m, x, name) == Some(target)
  }

  /** A qualifying ancestor at most `n` links above one of `ids`. */
  ghost predicate QualifiedAbove(m: Model, ids: seq<Id>, qualifier: string, name: string, target: Id, n: nat) {
    exists a, x :: a in ids && ReachesWithin(SuperOf(m), a, x, n) && Qualifies(m, x, qualifier, name, target)
  }

  lemma QualifiedHere(m: Model, a: Id, ids: seq<Id>, qualifier: string, name: string, target: Id, n: nat)
    requires a in ids && Qualifies(m, a, qualifier, name, target)
    ensures QualifiedAbove(m, ids, qualifier, name, target, n)
  {
    ReachSelf(SuperOf(m), a, n);
  }

  lemma QualifiedHigher(m: Model, a: Id, ids: seq<Id>, qualifier: string, name: string, target: Id, n: nat)
    requires a in ids && QualifiedAbove(m, Supers(m, a), qualifier, name, target, n)
    ensures QualifiedAbove(m, ids, qualifier, name, target, n + 1)
  {
    hide Qualifies, ReachesWithin;
    var b, x :| b in Supers(m, a) && ReachesWithin(SuperOf(m), b, x, n) && Qualifies(m, x, qualifier, name, target);
    StepThenReach(SuperOf(m), a, b, x, n);
  }

  /** A qualifying ancestor is the element itself or above one of its supertypes. */
  lemma QualifiedSplit(m: Model, a: Id, qualifier: string, name: string, target: Id, n: nat)
    requires QualifiedAbove(m, [a], qualifier, name, target, n) && !Qualifies(m, a, qualifier, name, target)
    ensures n > 0 && QualifiedAbove(m, Supers(m, a), qualifier, name, target, n - 1)
  {
    hide Qualifies, ReachesWithin;
    var x :| ReachesWithin(SuperOf(m), a, x, n) && Qualifies(m, x, qualifier, name, target);
    var c := ReachStep(SuperOf(m), a, x, n);
  }

  lemma QualifiedConcat(m: Model, a: seq<Id>, b: seq<Id>, qualifier: string, name: string, target: Id, n: nat)
    ensures QualifiedAbove(m, a + b, qualifier, name, target, n) <==>
      QualifiedAbove(m, a, qualifier, name, target, n) || QualifiedAbove(m, b, qualifier, name, target, n)
  {
    hide Qualifies, ReachesWithin;
  }

  method WalkAndMatchQualifier(m: Model, refs: seq<Ref>, qualifier: string, name: string, target: Id, depth: nat)
    returns (r: bool)
    requires depth <= MAX_DEPTH
    ensures r <==> depth < MAX_DEPTH && QualifiedAbove(m, Bound(refs), qualifier, name, target, MAX_DEPTH - 1 - depth)
    decreases MAX_DEPTH - depth
  {
    hide Qualifies, ReachesWithin, QualifiedAbove;
    if depth >= MAX_DEPTH {
      return false;
    }
    ghost var n := MAX_DEPTH - 1 - depth;
    var i := 0;
    while i < |refs|
      invariant i <= |refs|
      invariant QualifiedAbove(m, Bound(refs[i..]), qualifier, name, target, n) <==>
                QualifiedAbove(m, Bound(refs), qualifier, name, target, n)
    {
      assert refs[i..][1..] == refs[i + 1..];
      if refs[i].target.Some? {
        var a := refs[i].target.value;
        QualifiedConcat(m, [a], Bound(refs[i + 1..]), qualifier, name, target, n);
        assert Bound(refs[i..]) == [a] + Bound(refs[i + 1..]);
        var here := CheckQualifies(m, a, qualifier, name, target);
        if here {
          QualifiedHere(m, a, [a], qualifier, name, target, n);
          return true;
        }
        var higher := WalkSupers(m, a, qualifier, name, target, depth);
        if higher {
          QualifiedHigher(m, a, [a], qualifier, name, target, n - 1);
          return true;
        }
        if QualifiedAbove(m, [a], qualifier, name, target, n) {
          QualifiedSplit(m, a, qualifier, name, target, n);
          assert false;
        }
      } else {
        assert Bound(refs[i..]) == Bound(refs[i + 1..]);
      }
      i := i + 1;
    }
    assert refs[i..] == [];
    NoneQualifies(m, qualifier, name, target, n);
    return false;
  }

  lemma NoneQualifies(m: Model, qualifier: string, name: string, target: Id, n: nat)
    ensures !QualifiedAbove(m, [], qualifier, name, target, n)
  {
  }

  method CheckQualifies(m: Model, x: Id, qualifier: string, name: string, target: Id) returns (r: bool)
    ensures r == Qualifies(m, x, qualifier, name, target)
  {
    if Get(m, x).kind in {Package, Definition, Usage, Attribute} && Get(m, x).name != "" && Get(m, x).name == qualifier {
      var found := LookupMember(m, x, name);
      return found == Some(target);
    }
    return false;
  }

  /** The recursion into the supertypes of an ancestor. */
  method WalkSupers(m: Model, a: Id, qualifier: string, name: string, target: Id, depth: nat) returns (r: bool)
    requires depth < MAX_DEPTH
    ensures r <==> depth + 1 < MAX_DEPTH && QualifiedAbove(m, Supers(m, a), qualifier, name, target, MAX_DEPTH - 2 - depth)
    decreases MAX_DEPTH - depth, 0
  {
    hide QualifiedAbove;
    match Get(m, a).kind
    case Definition =>
      r := WalkAndMatchQualifier(m, Get(m, a).specializes, qualifier, name, target, depth + 1);
    case Usage =>
      r := WalkAndMatchQualifier(m, Get(m, a).types, qualifier, name, target, depth + 1);
      if !r { r := WalkAndMatchQualifier(m, Get(m, a).specializes, qualifier, name, target, depth + 1); }
      if depth + 1 < MAX_DEPTH {
        QualifiedConcat(m, Bound(Get(m, a).types), Bound(Get(m, a).specializes), qualifier, name, target,
                        MAX_DEPTH - 2 - depth);
      }
    case _ =>
      if depth + 1 < MAX_DEPTH { NoneQualifies(m, qualifier, name, target, MAX_DEPTH - 2 - depth); }
      r := false;
  }

  /** `qualifierMatches`. */
  method QualifierMatches(m: Model, owner: Id, qualifier: string, name: string, target: Id) returns (r: bool)
    ensures r <==> QualifiedAbove(m, Supers(m, owner), qualifier, name, target, MAX_DEPTH - 1)
  {
    hide QualifiedAbove;
    match Get(m, owner).kind
    case Definition => r := WalkAndMatchQualifier(m, Get(m, owner).specializes, qualifier, name, target, 0);
    case Usage =>
      r := WalkAndMatchQualifier(m, Get(m, owner).types, qualifier, name, target, 0);
      if !r { r := WalkAndMatchQualifier(m, Get(m, owner).specializes, qualifier, name, target, 0); }
      QualifiedConcat(m, Bound(Get(m, owner).types), Bound(Get(m, owner).specializes), qualifier, name, target,
                      MAX_DEPTH - 1);
    case _ =>
      NoneQualifies(m, qualifier, name, target, MAX_DEPTH - 1);
      r := false;
  }

  // ---- one redefinition -----------------------------------------------------------

  /** One entry of an attribute's `redefines` list, and the owner it is checked against. */
  datatype Entry = Entry(attribute: Id, index: nat, owner: Id)

  /** The outcome of checking an entry: what it is bound to, and the errors reported. */
  datatype Verdict = Verdict(stamp: Option<Id>, errors: nat)

  function Last(parts: seq<string>): string
    requires parts != []
  {
    parts[|parts| - 1]
  }

  ghost predicate Narrows(m: Model, a: Id, f: Id) {
    DeclaredType(m, a).Some? && DeclaredType(m, f).Some? ==>
      Subtyping.Specializes(m, DeclaredType(m, a).value, DeclaredType(m, f).value)
  }

  predicate KeepsConstant(m: Model, a: Id, f: Id) {
    Get(m, a).kind == Attribute && Get(m, f).kind == Attribute && Get(m, f).isConstant ==> Get(m, a).isConstant
  }

  /** `checkOneRedef`. */
  ghost function Judge(m: Model, a: Id, owner: Id, parts: seq<string>): Verdict {
    if parts == [] then Verdict(None, 0)
    else match InSupertypes(m, owner, Last(parts))
      case None => Verdict(None, 1)
      case Some(f) =>
        if |parts| == 2 && !QualifiedAbove(m, Supers(m, owner), parts[0], Last(parts), f, MAX_DEPTH - 1) then
          Verdict(None, 1)
        else if Get(m, f).kind != Attribute && Get(m, f).kind != Usage then Verdict(Some(f), 1)
        else if Get(m, a).kind == Attribute && Get(m, f).kind != Attribute then Verdict(Some(f), 1)
        else Verdict(Some(f), (if |parts| <= 2 && !Narrows(m, a, f) then 1 else 0) + if KeepsConstant(m, a, f) then 0 else 1)
  }

  ghost function JudgeEntry(m: Model, e: Entry): Verdict {
    var redefines := Get(m, e.attribute).redefines;
    if e.index < |redefines| then Judge(m, e.attribute, e.owner, redefines[e.index].parts) else Verdict(None, 0)
  }

  // ---- the whole program ------------------------------------------------------------

  function EntriesOf(a: Id, owner: Id, n: nat): seq<Entry> {
    if n == 0 then [] else EntriesOf(a, owner, n - 1) + [Entry(a, n - 1, owner)]
  }

  /** The entries that the walk from `n` checks, in order. */
  function Entries(m: Model, n: Id, enclosing: Option<Id>): seq<Entry>
    requires Nested(m)
    decreases if n < |m| then |m| - n else 0, 1
  {
    match Get(m, n).kind
    case Program => EntriesAll(m, n, Get(m, n).members, None)
    case Package => EntriesAll(m, n, Get(m, n).members, None)
    case Definition => EntriesAll(m, n, Get(m, n).members, Some(n))
    case Usage => EntriesAll(m, n, Get(m, n).members, Some(n))
    case Attribute => if enclosing.Some? then EntriesOf(n, enclosing.value, |Get(m, n).redefines|) else []
    case _ => []
  }

  function EntriesAll(m: Model, n: Id, ids: seq<Id>, enclosing: Option<Id>): seq<Entry>
    requires Nested(m) && forall x | x in ids :: x in Get(m, n).members
    decreases if n < |m| then |m| - n else 0, 0, |ids|
  {
    if ids == [] then []
    else
      var last := ids[|ids| - 1];
      NestedMember(m, n, last);
      EntriesAll(m, n, ids[..|ids| - 1], enclosing) + Entries(m, last, enclosing)
  }

  type Stamps = map<(Id, nat), Id>

  ghost function Errors(m: Model, es: seq<Entry>): nat {
    if es == [] then 0 else Errors(m, es[..|es| - 1]) + JudgeEntry(m, es[|es| - 1]).errors
  }

  ghost function StampOne(m: Model, e: Entry, s: Stamps): Stamps {
    match JudgeEntry(m, e).stamp
    case None => s
    case Some(f) => s[(e.attribute, e.index) := f]
  }

  ghost function StampAll(m: Model, es: seq<Entry>, s: Stamps): Stamps {
    if es == [] then s else StampOne(m, es[|es| - 1], StampAll(m, es[..|es| - 1], s))
  }

  lemma {:induction false} ErrorsConcat(m: Model, a: seq<Entry>, b: seq<Entry>, s: Stamps)
    ensures Errors(m, a + b) == Errors(m, a) + Errors(m, b)
    ensures StampAll(m, a + b, s) == StampAll(m, b, StampAll(m, a, s))
    decreases |b|
  {
    hide JudgeEntry;
    if b == [] {
      assert a + b == a;
    } else {
      var c := b[..|b| - 1];
      assert (a + b)[..|a + b| - 1] == a + c;
      ErrorsConcat(m, a, c, s);
    }
  }

  class RedefChecker {
    const m: Model
    var stamped: Stamps
    var errorCount: nat

    constructor (model: Model)
      ensures m == model && stamped == map[] && errorCount == 0
    {
      m, stamped, errorCount := model, map[], 0;
    }

    /** The checks after the supertype search and the stamp. */
    method CheckTarget(attribute: Id, f: Id, n: nat)
      modifies this`errorCount
      ensures errorCount == old(errorCount) +
        if Get(m, f).kind != Attribute && Get(m, f).kind != Usage then 1
        else if Get(m, attribute).kind == Attribute && Get(m, f).kind != Attribute then 1
        else (if n <= 2 && !Narrows(m, attribute, f) then 1 else 0) + if KeepsConstant(m, attribute, f) then 0 else 1
    {
      hide Subtyping.Specializes;
      if Get(m, f).kind != Attribute && Get(m, f).kind != Usage {
        errorCount := errorCount + 1;
        return;
      }
      if Get(m, attribute).kind == Attribute && Get(m, f).kind != Attribute {
        errorCount := errorCount + 1;
        return;
      }
      var redefType, targetType := DeclaredType(m, attribute), DeclaredType(m, f);
      if n <= 2 && redefType.Some? && targetType.Some? {
        var narrows := Subtyping.SpecializesType(m, redefType, targetType);
        if !narrows { errorCount := errorCount + 1; }
      }
      if Get(m, attribute).kind == Attribute && Get(m, f).kind == Attribute {
        if Get(m, f).isConstant && !Get(m, attribute).isConstant { errorCount := errorCount + 1; }
      }
    }

    method CheckOneRedef(attribute: Id, index: nat, owner: Id)
      requires index < |Get(m, attribute).redefines|
      modifies this
      ensures errorCount == old(errorCount) + JudgeEntry(m, Entry(attribute, index, owner)).errors
      ensures stamped == StampOne(m, Entry(attribute, index, owner), old(stamped))
    {
      hide InSupertypes, QualifiedAbove, Narrows, KeepsConstant;
      var parts := Get(m, attribute).redefines[index].parts;
      var n := |parts|;
      if n == 0 {
        return;
      }
      var found := FindInSupertypes(m, owner, parts[n - 1]);
      if found.None? {
        errorCount := errorCount + 1;
        return;
      }
      if n == 2 {
        var matches := QualifierMatches(m, owner, parts[0], parts[1], found.value);
        if !matches {
          errorCount := errorCount + 1;
          return;
        }
      }
      stamped := stamped[(attribute, index) := found.value];
      CheckTarget(attribute, found.value, n);
    }

    method CheckAttributeRedefs(attribute: Id, owner: Id)
      modifies this
      ensures var es := EntriesOf(attribute, owner, |Get(m, attribute).redefines|);
        errorCount == old(errorCount) + Errors(m, es) && stamped == StampAll(m, es, old(stamped))
    {
      hide JudgeEntry;
      var i := 0;
      while i < |Get(m, attribute).redefines|
        invariant i <= |Get(m, attribute).redefines|
        invariant errorCount == old(errorCount) + Errors(m, EntriesOf(attribute, owner, i))
        invariant stamped == StampAll(m, EntriesOf(attribute, owner, i), old(stamped))
      {
        ghost var before := EntriesOf(attribute, owner, i);
        assert (before + [Entry(attribute, i, owner)])[..|before|] == before;
        CheckOneRedef(attribute, i, owner);
        i := i + 1;
      }
    }

    method Walk(n: Id, enclosing: Option<Id>)
      requires Nested(m)
      modifies this
      ensures errorCount == old(errorCount) + Errors(m, Entries(m, n, enclosing))
      ensures stamped == StampAll(m, Entries(m, n, enclosing), old(stamped))
      decreases if n < |m| then |m| - n else 0, 1
    {
      hide JudgeEntry;
      match Get(m, n).kind
      case Program => WalkMembers(n, None);
      case Package => WalkMembers(n, None);
      case Definition => WalkMembers(n, Some(n));
      case Usage => WalkMembers(n, Some(n));
      case Attribute => if enclosing.Some? { CheckAttributeRedefs(n, enclosing.value); }
      case _ =>
    }

    method WalkMembers(n: Id, enclosing: Option<Id>)
      requires Nested(m)
      modifies this
      ensures var es := EntriesAll(m, n, Get(m, n).members, enclosing);
        errorCount == old(errorCount) + Errors(m, es) && stamped == StampAll(m, es, old(stamped))
      decreases if n < |m| then |m| - n else 0, 0
    {
      hide JudgeEntry, Nested, Errors, StampAll, Entries;
      var members := Get(m, n).members;
      var i := 0;
      NoErrors(m, stamped);
      while i < |members|
        invariant i <= |members|
        invariant errorCount == old(errorCount) + Errors(m, EntriesAll(m, n, members[..i], enclosing))
        invariant stamped == StampAll(m, EntriesAll(m, n, members[..i], enclosing), old(stamped))
      {
        NestedMember(m, n, members[i]);
        assert members[..i + 1][..i] == members[..i];
        ErrorsConcat(m, EntriesAll(m, n, members[..i], enclosing), Entries(m, members[i], enclosing), old(stamped));
        Walk(members[i], enclosing);
        i := i + 1;
      }
      assert members[..i] == members;
    }

    /** `checkRedefinitions`. */
    method CheckRedefinitions(program: Id) returns (ok: bool)
      requires Nested(m)
      modifies this
      ensures ok == Accepted(m, program)
      ensures stamped == StampAll(m, Entries(m, program, None), old(stamped))
    {
      errorCount := 0;
      Walk(program, None);
      ok := errorCount == 0;
    }
  }

  lemma NoErrors(m: Model, s: Stamps)
    ensures Errors(m, []) == 0 && StampAll(m, [], s) == s
  {
  }

  ghost predicate Accepted(m: Model, program: Id)
    requires Nested(m)
  {
    Errors(m, Entries(m, program, None)) == 0
  }
}
