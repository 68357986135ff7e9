/** Paths that do not depend on what a run is still to bind. */
module FirmPaths {
  import opened Elements
  import opened Lookup
  import opened Naming
  import opened Resolver

  /** The references that members are inherited through. */
  function LinkRefs(e: Element): seq<Ref> {
    match e.kind
    case Definition => e.specializes
    case Usage => e.types + e.specializes
    case Attribute => e.types
    case _ => []
  }

  /** Everything the lookup of a member passes, to depth `fuel`, is bound. */
  predicate AllBound(m: Model, id: Id, fuel: nat)
    decreases fuel
  {
    fuel == 0 || (
      Deref(m, id, MAX_DEPTH).Some? &&
      var c := Deref(m, id, MAX_DEPTH).value;
      && (forall i | 0 <= i < |LinkRefs(Get(m, c))| :: LinkRefs(Get(m, c))[i].target.Some?)
      && forall x | x in Parents(m, c) :: AllBound(m, x, fuel - 1))
  }

  /** The member is there itself, or whatever it could be inherited through is bound. */
  predicate FirmStep(m: Model, id: Id, name: string) {
    && Deref(m, id, MAX_DEPTH).Some?
    && (DirectMember(m, Deref(m, id, MAX_DEPTH).value, name).Some? || AllBound(m, id, MAX_DEPTH))
  }

  /** No step of the path depends on a reference that is still to be bound. */
  predicate Firm(m: Model, id: Id, segs: seq<string>)
    decreases |segs|
  {
    if segs == [] then Deref(m, id, MAX_DEPTH).Some?
    else
      && FirmStep(m, id, segs[0])
      && match Member(m, id, segs[0])
         case None => true
         case Some(next) => Firm(m, next, segs[1..])
  }

  lemma {:induction false} DerefStable(a: Model, b: Model, id: Id, n: nat)
    requires Extends(a, b) && Deref(a, id, n).Some?
    ensures Deref(b, id, n) == Deref(a, id, n)
    decreases n
  {
    hide Extends;
    ExtendsShape(a, b, id);
    ExtendsRefs(a, b, id, TargetRefs);
    if Get(a, id).kind == Alias && n > 0 {
      DerefStable(a, b, TargetOf(Get(a, id)).value, n - 1);
    }
  }

  lemma ExtendsRefs(a: Model, b: Model, id: Id, role: Role)
    requires Extends(a, b)
    ensures RefsExtend(RefsOf(Get(a, id), role), RefsOf(Get(b, id), role))
  {
    if id < |a| { assert ElementExtends(a[id], b[id]); }
  }

  lemma BoundRefsKept(a: seq<Ref>, b: seq<Ref>)
    requires RefsExtend(a, b) && forall i | 0 <= i < |a| :: a[i].target.Some?
    ensures b == a
  {
  }

  lemma ParentsStable(a: Model, b: Model, c: Id)
    requires Extends(a, b) && forall i | 0 <= i < |LinkRefs(Get(a, c))| :: LinkRefs(Get(a, c))[i].target.Some?
    ensures Parents(b, c) == Parents(a, c)
  {
    hide Extends, RefsExtend, Bound;
    ExtendsShape(a, b, c);
    ExtendsRefs(a, b, c, TypeRefs);
    ExtendsRefs(a, b, c, SuperRefs);
    var e := Get(a, c);
    if e.kind == Usage {
      forall i | 0 <= i < |e.types| ensures e.types[i].target.Some? { assert LinkRefs(e)[i] == e.types[i]; }
      forall i | 0 <= i < |e.specializes| ensures e.specializes[i].target.Some? {
        assert LinkRefs(e)[|e.types| + i] == e.specializes[i];
      }
      BoundRefsKept(e.types, Get(b, c).types);
      BoundRefsKept(e.specializes, Get(b, c).specializes);
    }
    if e.kind == Attribute {
      assert LinkRefs(e) == e.types;
      BoundRefsKept(e.types, Get(b, c).types);
    }
    if e.kind == Definition {
      assert LinkRefs(e) == e.specializes;
      BoundRefsKept(e.specializes, Get(b, c).specializes);
    }
  }

  lemma {:induction false} VisitStable(a: Model, b: Model, id: Id, fuel: nat)
    requires Extends(a, b) && AllBound(a, id, fuel)
    ensures Visit(b, id, fuel) == Visit(a, id, fuel)
    decreases fuel, 0
  {
    hide Extends, VisitAll, Deref, Links, Parents;
    if fuel > 0 {
      var c := Deref(a, id, MAX_DEPTH).value;
      DerefStable(a, b, id, MAX_DEPTH);
      ParentsStable(a, b, c);
      VisitAllStable(a, b, Parents(a, c), fuel - 1);
    }
  }

  lemma {:induction false} VisitAllStable(a: Model, b: Model, ids: seq<Id>, fuel: nat)
    requires Extends(a, b) && forall x | x in ids :: AllBound(a, x, fuel)
    ensures VisitAll(b, ids, fuel) == VisitAll(a, ids, fuel)
    decreases fuel, 1, |ids|
  {
    hide Extends, AllBound, Visit;
    if ids != [] {
      VisitStable(a, b, ids[0], fuel);
      VisitAllStable(a, b, ids[1..], fuel);
    }
  }

  lemma {:induction false} HitStable(a: Model, b: Model, cs: seq<Id>, name: string)
    requires Extends(a, b)
    ensures FirstHit(b, cs, name) == FirstHit(a, cs, name)
  {
    hide Extends, FirstNamed;
    if cs != [] {
      ExtendsShape(a, b, cs[0]);
      FirstNamedStable(a, b, Get(a, cs[0]).members, name);
      HitStable(a, b, cs[1..], name);
    }
  }

  lemma MemberStable(a: Model, b: Model, id: Id, name: string)
    requires Extends(a, b) && FirmStep(a, id, name)
    ensures Member(b, id, name) == Member(a, id, name)
  {
    hide Extends, AllBound, Deref, VisitAll, DirectMember;
    var c := Deref(a, id, MAX_DEPTH).value;
    DerefStable(a, b, id, MAX_DEPTH);
    HitStable(a, b, [c], name);
    if AllBound(a, id, MAX_DEPTH) {
      VisitStable(a, b, id, MAX_DEPTH);
      HitStable(a, b, Visit(a, id, MAX_DEPTH), name);
    } else {
      FirstOfVisit(a, id, name);
      FirstOfVisit(b, id, name);
      assert [c][1..] == [];
    }
  }

  lemma FirstOfVisit(m: Model, id: Id, name: string)
    requires Deref(m, id, MAX_DEPTH).Some? && DirectMember(m, Deref(m, id, MAX_DEPTH).value, name).Some?
    ensures Member(m, id, name) == DirectMember(m, Deref(m, id, MAX_DEPTH).value, name)
  {
    hide Deref, DirectMember;
  }

  /** What stands for the end of the path is the same. */
  predicate SameEnd(a: Model, b: Model, place: Place) {
    place.At? ==> SeeThrough(b, place.id) == SeeThrough(a, place.id)
  }

  /** A firm path leads to the same end however many references are bound meanwhile. */
  lemma {:induction false} FirmIsStable(a: Model, b: Model, id: Id, parity: bool, segs: seq<string>)
    requires Extends(a, b) && Firm(a, id, segs)
    ensures Follow(b, id, parity, segs) == Follow(a, id, parity, segs)
    ensures SameEnd(a, b, Follow(a, id, parity, segs))
    decreases |segs|
  {
    hide Extends, Member, FirmStep, Deref;
    if segs == [] {
      DerefStable(a, b, id, MAX_DEPTH);
    } else {
      MemberStable(a, b, id, segs[0]);
      ExtendsShape(a, b, id);
      ExtendsRefs(a, b, id, TypeRefs);
      match Member(a, id, segs[0])
      case None =>
      case Some(next) => FirmIsStable(a, b, next, parity != ConjugatedType(a, id), segs[1..]);
    }
  }

  // ---- what is firm -----------------------------------------------------------------------------------

  /** A package is left by its own members only, so a path through packages to something that
      is not an alias is firm. */
  lemma {:induction false} PackagesAreFirm(m: Model, id: Id, segs: seq<string>)
    requires forall h | h in Hops(m, id, segs) :: Get(m, h).kind == Package
    requires Follow(m, id, false, segs).At? && Get(m, Follow(m, id, false, segs).id).kind != Alias
    ensures Firm(m, id, segs)
    decreases |segs|
  {
    if segs != [] {
      PackageHops(m, id, segs);
      FirmPackage(m, id, segs[0]);
      var next := Member(m, id, segs[0]).value;
      FollowParity(m, next, ConjugatedType(m, id), false, segs[1..]);
      PackagesAreFirm(m, next, segs[1..]);
    }
  }

  lemma FirmPackage(m: Model, id: Id, name: string)
    requires Get(m, id).kind == Package
    ensures FirmStep(m, id, name)
  {
  }

  lemma PackageHops(m: Model, id: Id, segs: seq<string>)
    requires segs != [] && Follow(m, id, false, segs).At?
    ensures Member(m, id, segs[0]).Some? && id in Hops(m, id, segs)
    ensures forall h | h in Hops(m, Member(m, id, segs[0]).value, segs[1..]) :: h in Hops(m, id, segs)
  {
    hide Member;
    var next := Member(m, id, segs[0]).value;
    ParityOfTrail(m, id, false, segs);
    var rest := Trail(m, next, segs[1..]);
    assert Trail(m, id, segs) == [id] + rest;
    assert ([id] + rest)[..|rest|] == [id] + rest[..|rest| - 1];
  }

  lemma {:induction false} FollowParity(m: Model, id: Id, x: bool, y: bool, segs: seq<string>)
    ensures Follow(m, id, x, segs).At? == Follow(m, id, y, segs).At?
    ensures Follow(m, id, x, segs).At? ==> Follow(m, id, x, segs).id == Follow(m, id, y, segs).id
    decreases |segs|
  {
    hide Member;
    if segs != [] && Member(m, id, segs[0]).Some? {
      FollowParity(m, Member(m, id, segs[0]).value, x != ConjugatedType(m, id), y != ConjugatedType(m, id), segs[1..]);
    }
  }
}
