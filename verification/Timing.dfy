/** Paths whose hops are bound earlier in the same run. */
module Timing {
  import opened Basics
  import opened Elements
  import opened Lookup
  import opened Naming
  import opened Resolver
  import opened Runs
  import opened Handling
  import opened Settlement
  import opened Reordering
  import opened FirmPaths
  import opened OrderFreedom
  import opened Denotation
  import opened TwoRuns

  // ---- the state in which a run comes to an element -----------------------------------------------

  /** The walk of `n` from `p` comes to `e` in the state `t` and the scopes `st`. */
  ghost predicate Enters(p: Progress, n: Id, scopes: seq<Scope>, e: Id, t: Progress, st: seq<Scope>)
    decreases if n < |p.model| then |p.model| - n else 0
  {
    var members := Get(p.model, n).members;
    || (e == n && t == p && st == scopes)
    || (HasParts(Get(p.model, n).kind) &&
        exists i | 0 <= i < |members| && n < members[i] < |p.model| && Get(p.model, members[i]).kind != Import ::
          Enters(BeforePart(p, n, i, scopes), members[i], InnerScopes(p.model, n, scopes), e, t, st))
  }

  /** A reference is bound at its time: it is firm when the run comes to its element, and after the
      whole run it is what it denotes then. */
  lemma {:induction false} EntryFate(p: Progress, extent: Id -> Id, n: Id, scopes: seq<Scope>, e: Id, t: Progress, st: seq<Scope>,
                                     s: Slot, sc: seq<Scope>)
    requires Tree(p.model, extent) && Apart(p.model, extent, scopes, n) && Enters(p, n, scopes, e, t, st)
    requires Hands(t.model, e, st, s, sc, true) && IsSlot(t.model, s) && FirmIn(t.model, sc, |st|, RefAt(t.model, s))
    ensures Hands(p.model, n, scopes, s, sc, true) && IsSlot(p.model, s) && RefAt(p.model, s) == RefAt(t.model, s)
    ensures var q := Walked(p, n, scopes);
      && Follows(p, t) && Follows(t, q)
      && IsSlot(q.model, s) && RefAt(q.model, s) == Denoted(t.model, sc, |st|, RefAt(t.model, s))
    decreases if n < |p.model| then |p.model| - n else 0
  {
    hide Tree, Walked, Follows, FirmIn, Denoted, Apart, InnerScopes, BeforePart, Within, Keeps;
    if e == n && t == p && st == scopes {
      FollowsSelf(p);
      WalkFollows(p, n, scopes);
      Fate(p, extent, n, scopes, s, sc, true);
    } else {
      var members, inner, q := Get(p.model, n).members, InnerScopes(p.model, n, scopes), Walked(p, n, scopes);
      var i :| 0 <= i < |members| && n < members[i] < |p.model| && Get(p.model, members[i]).kind != Import &&
        Enters(BeforePart(p, n, i, scopes), members[i], inner, e, t, st);
      var x, r := members[i], BeforePart(p, n, i, scopes);
      var z := Walked(r, x, inner);
      PartFollows(p, n, i, scopes);
      SameSlot(p, r, s);
      TreeKept(p, r, extent);
      InnerApart(p.model, extent, n, scopes, x);
      ApartKept(p, r, extent, inner, x);
      EntryFate(r, extent, x, inner, e, t, st, s, sc);
      HandsBack(p, r, x, inner, s, sc, true);
      HandsRange(p.model, extent, x, inner, s, sc, true);
      HandsScopes(p.model, extent, x, inner, s, sc, true);
      PartSpared(p, extent, n, i, scopes, s, sc);
      FollowsTrans(p, r, t);
      FollowsTrans(t, z, q);
      KeptSlot(p.model, r.model, s);
      KeptSlot(z.model, q.model, s);
    }
  }

  /** The scopes of a reference are those of its place. */
  lemma {:induction false} HandsUnique(m: Model, extent: Id -> Id, n: Id, scopes: seq<Scope>, s: Slot, sc: seq<Scope>, sd: seq<Scope>)
    requires Tree(m, extent) && Hands(m, n, scopes, s, sc, true) && Hands(m, n, scopes, s, sd, true)
    ensures sc == sd
    decreases if n < |m| then |m| - n else 0
  {
    hide Tree, Inner, InnerScopes;
    var inner := InnerScopes(m, n, scopes);
    HandsRange(m, extent, n, scopes, s, sc, true);
    if s.element == n {
      NotBelow(m, extent, n, scopes, s, sc);
      NotBelow(m, extent, n, scopes, s, sd);
    } else {
      var x :| x in Get(m, n).members && n < x < |m| && Hands(m, x, inner, s, sc, true);
      var y :| y in Get(m, n).members && n < y < |m| && Hands(m, y, inner, s, sd, true);
      HandsRange(m, extent, x, inner, s, sc, true);
      HandsRange(m, extent, y, inner, s, sd, true);
      if x != y { SiblingsApart(m, extent, n, x, y); }
      HandsUnique(m, extent, x, inner, s, sc, sd);
    }
  }

  lemma NotBelow(m: Model, extent: Id -> Id, n: Id, scopes: seq<Scope>, s: Slot, sc: seq<Scope>)
    requires Tree(m, extent) && Hands(m, n, scopes, s, sc, true) && s.element == n
    ensures HandsOwn(m, n, scopes, s, sc)
  {
    hide Tree, Inner, InnerScopes;
    if !HandsOwn(m, n, scopes, s, sc) {
      var x :| x in Get(m, n).members && n < x < |m| && Hands(m, x, InnerScopes(m, n, scopes), s, sc, true);
      HandsRange(m, extent, x, InnerScopes(m, n, scopes), s, sc, true);
    }
  }

  // ---- the elements whose references a path goes through ------------------------------------------

  ghost predicate AliasesIn(m: Model, id: Id, n: nat, passed: iset<Id>)
    decreases n
  {
    Get(m, id).kind == Alias && n > 0 ==>
      id in passed && (TargetOf(Get(m, id)).Some? ==> AliasesIn(m, TargetOf(Get(m, id)).value, n - 1, passed))
  }

  ghost predicate ParentsIn(m: Model, id: Id, fuel: nat, passed: iset<Id>)
    decreases fuel
  {
    fuel > 0 ==>
      && AliasesIn(m, id, MAX_DEPTH, passed)
      && (Deref(m, id, MAX_DEPTH).Some? ==>
            var c := Deref(m, id, MAX_DEPTH).value;
            c in passed && forall x | x in Parents(m, c) :: ParentsIn(m, x, fuel - 1, passed))
  }

  ghost predicate StepIn(m: Model, id: Id, name: string, passed: iset<Id>) {
    && AliasesIn(m, id, MAX_DEPTH, passed)
    && (Deref(m, id, MAX_DEPTH).Some? ==>
          DirectMember(m, Deref(m, id, MAX_DEPTH).value, name).Some? || ParentsIn(m, id, MAX_DEPTH, passed))
  }

  /** All references that the path goes through belong to elements of `passed`. */
  ghost predicate PathIn(m: Model, id: Id, segs: seq<string>, passed: iset<Id>)
    decreases |segs|
  {
    if segs == [] then AliasesIn(m, id, MAX_DEPTH, passed)
    else
      && StepIn(m, id, segs[0], passed)
      && (Member(m, id, segs[0]).Some? ==> PathIn(m, Member(m, id, segs[0]).value, segs[1..], passed))
  }

  // ---- they stay the same once they are bound ------------------------------------------------------

  lemma {:induction false} AliasesStay(a: Model, b: Model, id: Id, n: nat, passed: iset<Id>)
    requires Extends(a, b) && Deref(a, id, n).Some? && AliasesIn(a, id, n, passed)
    ensures AliasesIn(b, id, n, passed)
    decreases n
  {
    hide Extends;
    ExtendsShape(a, b, id);
    ExtendsRefs(a, b, id, TargetRefs);
    if Get(a, id).kind == Alias && n > 0 { AliasesStay(a, b, TargetOf(Get(a, id)).value, n - 1, passed); }
  }

  lemma {:induction false} ParentsStay(a: Model, b: Model, id: Id, fuel: nat, passed: iset<Id>)
    requires Extends(a, b) && AllBound(a, id, fuel) && ParentsIn(a, id, fuel, passed)
    ensures ParentsIn(b, id, fuel, passed)
    decreases fuel
  {
    hide Extends, Deref, LinkRefs, Parents, AliasesIn;
    if fuel > 0 {
      var c := Deref(a, id, MAX_DEPTH).value;
      AliasesStay(a, b, id, MAX_DEPTH, passed);
      DerefStable(a, b, id, MAX_DEPTH);
      ParentsStable(a, b, c);
      forall x | x in Parents(a, c) ensures ParentsIn(b, x, fuel - 1, passed) { ParentsStay(a, b, x, fuel - 1, passed); }
    }
  }

  lemma StepStays(a: Model, b: Model, id: Id, name: string, passed: iset<Id>)
    requires Extends(a, b) && FirmStep(a, id, name) && StepIn(a, id, name, passed)
    ensures StepIn(b, id, name, passed)
  {
    hide Extends, Deref, DirectMember, AliasesIn, ParentsIn, AllBound, FirstHit;
    var c := Deref(a, id, MAX_DEPTH).value;
    AliasesStay(a, b, id, MAX_DEPTH, passed);
    DerefStable(a, b, id, MAX_DEPTH);
    DirectStable(a, b, c, name);
    if DirectMember(a, c, name).None? { ParentsStay(a, b, id, MAX_DEPTH, passed); }
  }

  lemma DirectStable(a: Model, b: Model, c: Id, name: string)
    requires Extends(a, b)
    ensures DirectMember(b, c, name) == DirectMember(a, c, name)
  {
    hide Extends, FirstNamed;
    ExtendsShape(a, b, c);
    FirstNamedStable(a, b, Get(a, c).members, name);
  }

  lemma {:induction false} PathStays(a: Model, b: Model, id: Id, segs: seq<string>, passed: iset<Id>)
    requires Extends(a, b) && Firm(a, id, segs) && PathIn(a, id, segs, passed)
    ensures PathIn(b, id, segs, passed)
    decreases |segs|
  {
    hide Extends, Deref, Member, FirmStep, StepIn, AliasesIn;
    if segs == [] {
      AliasesStay(a, b, id, MAX_DEPTH, passed);
    } else {
      StepStays(a, b, id, segs[0], passed);
      MemberStable(a, b, id, segs[0]);
      if Member(a, id, segs[0]).Some? { PathStays(a, b, Member(a, id, segs[0]).value, segs[1..], passed); }
    }
  }

  // ---- models that agree on them agree on the path ---------------------------------------------

  ghost predicate AgreeOn(a: Model, b: Model, passed: iset<Id>) {
    forall id | id in passed ::
      Get(b, id).types == Get(a, id).types && Get(b, id).specializes == Get(a, id).specializes && Get(b, id).target == Get(a, id).target
  }

  /** Whether types are conjugated is written, not bound. */
  ghost predicate SameMarks(a: Model, b: Model) {
    forall id: Id :: ConjugatedType(b, id) == ConjugatedType(a, id)
  }

  lemma {:induction false} DerefAgrees(a: Model, b: Model, id: Id, n: nat, passed: iset<Id>)
    requires Shuffled(a, b) && AgreeOn(a, b, passed) && AliasesIn(a, id, n, passed)
    ensures Deref(b, id, n) == Deref(a, id, n)
    decreases n
  {
    hide Mixed;
    if Get(a, id).kind == Alias && n > 0 && TargetOf(Get(a, id)).Some? {
      DerefAgrees(a, b, TargetOf(Get(a, id)).value, n - 1, passed);
    }
  }

  lemma ParentsAgree(a: Model, b: Model, c: Id, passed: iset<Id>)
    requires Shuffled(a, b) && AgreeOn(a, b, passed) && c in passed
    ensures Parents(b, c) == Parents(a, c)
  {
    hide Mixed;
  }

  lemma {:induction false} VisitAgrees(a: Model, b: Model, id: Id, fuel: nat, passed: iset<Id>)
    requires Shuffled(a, b) && AgreeOn(a, b, passed) && ParentsIn(a, id, fuel, passed)
    ensures Visit(b, id, fuel) == Visit(a, id, fuel)
    decreases fuel, 0
  {
    hide Shuffled, AgreeOn, Deref, Parents, AliasesIn, VisitAll;
    if fuel > 0 {
      DerefAgrees(a, b, id, MAX_DEPTH, passed);
      if Deref(a, id, MAX_DEPTH).Some? {
        var c := Deref(a, id, MAX_DEPTH).value;
        ParentsAgree(a, b, c, passed);
        VisitAllAgrees(a, b, Parents(a, c), fuel - 1, passed);
      }
    }
  }

  lemma {:induction false} VisitAllAgrees(a: Model, b: Model, ids: seq<Id>, fuel: nat, passed: iset<Id>)
    requires Shuffled(a, b) && AgreeOn(a, b, passed) && forall x | x in ids :: ParentsIn(a, x, fuel, passed)
    ensures VisitAll(b, ids, fuel) == VisitAll(a, ids, fuel)
    decreases fuel, 1, |ids|
  {
    hide Shuffled, AgreeOn, ParentsIn, Visit;
    if ids != [] {
      VisitAgrees(a, b, ids[0], fuel, passed);
      VisitAllAgrees(a, b, ids[1..], fuel, passed);
    }
  }

  lemma MemberAgrees(a: Model, b: Model, id: Id, name: string, passed: iset<Id>)
    requires Shuffled(a, b) && AgreeOn(a, b, passed) && StepIn(a, id, name, passed)
    ensures Member(b, id, name) == Member(a, id, name)
  {
    hide Shuffled, AgreeOn, Deref, DirectMember, AliasesIn, ParentsIn, Visit, FirstHit;
    DerefAgrees(a, b, id, MAX_DEPTH, passed);
    var c := Deref(a, id, MAX_DEPTH);
    if c.None? {
      NothingThere(a, id, name);
      NothingThere(b, id, name);
    } else {
      DirectIgnoresOrder(a, b, c.value, name);
      if DirectMember(a, c.value, name).Some? {
        FirstOfVisit(a, id, name);
        FirstOfVisit(b, id, name);
      } else {
        VisitAgrees(a, b, id, MAX_DEPTH, passed);
        HitIgnoresOrder(a, b, Visit(a, id, MAX_DEPTH), name);
      }
    }
  }

  lemma NothingThere(m: Model, id: Id, name: string)
    requires Deref(m, id, MAX_DEPTH).None?
    ensures Member(m, id, name) == None
  {
    hide Deref;
  }

  lemma {:induction false} PathAgrees(a: Model, b: Model, id: Id, parity: bool, segs: seq<string>, passed: iset<Id>)
    requires Shuffled(a, b) && AgreeOn(a, b, passed) && SameMarks(a, b) && PathIn(a, id, segs, passed)
    ensures Follow(b, id, parity, segs) == Follow(a, id, parity, segs)
    ensures SameEnd(a, b, Follow(a, id, parity, segs))
    decreases |segs|
  {
    hide Shuffled, AgreeOn, Deref, Member, StepIn, AliasesIn, ConjugatedType;
    if segs == [] {
      DerefAgrees(a, b, id, MAX_DEPTH, passed);
    } else {
      MemberAgrees(a, b, id, segs[0], passed);
      assert ConjugatedType(b, id) == ConjugatedType(a, id);
      if Member(a, id, segs[0]).Some? {
        PathAgrees(a, b, Member(a, id, segs[0]).value, parity != ConjugatedType(a, id), segs[1..], passed);
      }
    }
  }

  // ---- two runs ---------------------------------------------------------------------------------------

  /** The reference is bound from the start, or handed over and firm: either way the same in every
      order. */
  ghost predicate Sure(p: Progress, n: Id, scopes: seq<Scope>, z: Slot)
    requires IsSlot(p.model, z)
  {
    RefAt(p.model, z).target.Some? ||
    exists sc :: Hands(p.model, n, scopes, z, sc, true) && FirmIn(p.model, sc, |scopes|, RefAt(p.model, z))
  }

  ghost predicate AllSure(p: Progress, n: Id, scopes: seq<Scope>, passed: iset<Id>) {
    forall z: Slot | z.element in passed && z.role in {TypeRefs, SuperRefs, TargetRefs} && IsSlot(p.model, z) ::
      Sure(p, n, scopes, z)
  }

  lemma SureIsFree(a: Progress, b: Progress, extent: Id -> Id, n: Id, scopes: seq<Scope>, z: Slot)
    requires Tree(a.model, extent) && Reordered(a.model, b.model) && Apart(a.model, extent, scopes, n)
    requires IsSlot(a.model, z) && Sure(a, n, scopes, z)
    ensures var qa, qb := Walked(a, n, scopes).model, Walked(b, n, scopes).model;
      IsSlot(qa, z) && IsSlot(qb, z) && RefAt(qb, z) == RefAt(qa, z)
  {
    hide Tree, Apart, Walked, Hands, FirmIn, Mixed;
    if RefAt(a.model, z).target.Some? {
      SameButOrder(a.model, b.model, z.element);
      WalkFollows(a, n, scopes);
      WalkFollows(b, n, scopes);
      BoundStays(a, Walked(a, n, scopes), z);
      BoundStays(b, Walked(b, n, scopes), z);
    } else {
      var sc :| Hands(a.model, n, scopes, z, sc, true) && FirmIn(a.model, sc, |scopes|, RefAt(a.model, z));
      OrderIsFree(a, b, extent, n, scopes, z, sc);
    }
  }

  lemma BoundStays(p: Progress, q: Progress, z: Slot)
    requires Follows(p, q) && IsSlot(p.model, z) && RefAt(p.model, z).target.Some?
    ensures IsSlot(q.model, z) && RefAt(q.model, z) == RefAt(p.model, z)
  {
    hide Extends;
    SameSlot(p, q, z);
    ExtendsRefs(p.model, q.model, z.element, z.role);
  }

  lemma SureAgree(a: Progress, b: Progress, extent: Id -> Id, n: Id, scopes: seq<Scope>, passed: iset<Id>)
    requires Tree(a.model, extent) && Reordered(a.model, b.model) && Apart(a.model, extent, scopes, n)
    requires AllSure(a, n, scopes, passed)
    ensures AgreeOn(Walked(a, n, scopes).model, Walked(b, n, scopes).model, passed)
  {
    hide Tree, Apart, Walked, Sure, Reordered;
    forall id | id in passed
      ensures var qa, qb := Get(Walked(a, n, scopes).model, id), Get(Walked(b, n, scopes).model, id);
        qb.types == qa.types && qb.specializes == qa.specializes && qb.target == qa.target
    {
      ListAgrees(a, b, extent, n, scopes, passed, id, TypeRefs);
      ListAgrees(a, b, extent, n, scopes, passed, id, SuperRefs);
      ListAgrees(a, b, extent, n, scopes, passed, id, TargetRefs);
    }
  }

  lemma ListAgrees(a: Progress, b: Progress, extent: Id -> Id, n: Id, scopes: seq<Scope>, passed: iset<Id>, id: Id, role: Role)
    requires Tree(a.model, extent) && Reordered(a.model, b.model) && Apart(a.model, extent, scopes, n)
    requires AllSure(a, n, scopes, passed) && id in passed && role in {TypeRefs, SuperRefs, TargetRefs}
    ensures RefsOf(Get(Walked(b, n, scopes).model, id), role) == RefsOf(Get(Walked(a, n, scopes).model, id), role)
  {
    hide Tree, Apart, Walked, Sure, Reordered, RefsOf, Follows;
    var qa, qb := Walked(a, n, scopes), Walked(b, n, scopes);
    WalkFollows(a, n, scopes);
    WalkFollows(b, n, scopes);
    SameButOrder(a.model, b.model, id);
    SameSlot(a, qa, Slot(id, role, 0));
    SameSlot(b, qb, Slot(id, role, 0));
    NothingOutside(qa.model, id, role);
    NothingOutside(qb.model, id, role);
    if id < |a.model| {
      SameLists(a, qa, id, role);
      SameLists(b, qb, id, role);
      SameRefs(a.model, b.model, id, role);
      var x, y := RefsOf(Get(qa.model, id), role), RefsOf(Get(qb.model, id), role);
      forall i | 0 <= i < |x| ensures x[i] == y[i] {
        SureIsFree(a, b, extent, n, scopes, Slot(id, role, i));
      }
    }
  }

  lemma NothingOutside(m: Model, id: Id, role: Role)
    ensures id >= |m| ==> RefsOf(Get(m, id), role) == []
  {
  }

  lemma SameRefs(a: Model, b: Model, id: Id, role: Role)
    requires Get(b, id) == Get(a, id).(members := Get(b, id).members)
    ensures RefsOf(Get(b, id), role) == RefsOf(Get(a, id), role)
  {
  }

  lemma MarksAgree(a: Progress, b: Progress, n: Id, scopes: seq<Scope>)
    requires Reordered(a.model, b.model)
    ensures SameMarks(Walked(a, n, scopes).model, Walked(b, n, scopes).model)
  {
    hide Reordered, Walked, Mixed;
    WalkFollows(a, n, scopes);
    WalkFollows(b, n, scopes);
    forall id: Id ensures ConjugatedType(Walked(b, n, scopes).model, id) == ConjugatedType(Walked(a, n, scopes).model, id) {
      SameButOrder(a.model, b.model, id);
      MarksStay(a, Walked(a, n, scopes), id);
      MarksStay(b, Walked(b, n, scopes), id);
    }
  }

  lemma MarksStay(p: Progress, q: Progress, id: Id)
    requires Follows(p, q)
    ensures ConjugatedType(q.model, id) == ConjugatedType(p.model, id)
  {
    hide Extends;
    SameShape(p, q, id);
    ExtendsRefs(p.model, q.model, id, TypeRefs);
  }

  /** A path from a declared head whose hops are bound when the run comes to it. */
  ghost predicate InTime(t: Progress, st: seq<Scope>, e: Id, s: Slot, sc: seq<Scope>, h: Id) {
    && Hands(t.model, e, st, s, sc, true) && IsSlot(t.model, s)
    && var r := RefAt(t.model, s);
    && r.parts != [] && r.target.None? && LookupChain(t.model, sc, r.parts[0]) == Some(h)
    && Firm(t.model, h, r.parts[1..])
  }

  lemma InTimeFate(p: Progress, extent: Id -> Id, n: Id, scopes: seq<Scope>, e: Id, t: Progress, st: seq<Scope>,
                   s: Slot, sc: seq<Scope>, h: Id)
    requires Tree(p.model, extent) && Apart(p.model, extent, scopes, n) && Enters(p, n, scopes, e, t, st)
    requires InTime(t, st, e, s, sc, h)
    ensures Hands(p.model, n, scopes, s, sc, true) && IsSlot(p.model, s) && RefAt(p.model, s) == RefAt(t.model, s)
    ensures LookupChain(p.model, sc, RefAt(p.model, s).parts[0]) == Some(h)
    ensures var q := Walked(p, n, scopes);
      && Follows(t, q) && IsSlot(q.model, s)
      && RefAt(q.model, s) == BoundFrom(q.model, Some(h), RefAt(p.model, s))
  {
    hide Tree, Apart, Walked, Enters, Hands, Follows, LookupChain, Firm, Follow, SeeThrough;
    var r, q := RefAt(t.model, s), Walked(p, n, scopes);
    EntryFate(p, extent, n, scopes, e, t, st, s, sc);
    ChainFollows(p, t, sc, r.parts[0]);
    FirmFollows(t, q, h, r.parts[1..]);
  }

  lemma FirmFollows(t: Progress, q: Progress, h: Id, segs: seq<string>)
    requires Follows(t, q) && Firm(t.model, h, segs)
    ensures Follow(q.model, h, false, segs) == Follow(t.model, h, false, segs)
    ensures SameEnd(t.model, q.model, Follow(t.model, h, false, segs))
  {
    hide Extends, Firm, Follow;
    FirmIsStable(t.model, q.model, h, false, segs);
  }

  lemma PathInFollows(t: Progress, q: Progress, h: Id, segs: seq<string>, passed: iset<Id>)
    requires Follows(t, q) && Firm(t.model, h, segs) && PathIn(t.model, h, segs, passed)
    ensures PathIn(q.model, h, segs, passed)
  {
    hide Extends, Firm, PathIn;
    PathStays(t.model, q.model, h, segs, passed);
  }

  lemma OutcomesShuffled(a: Progress, b: Progress, n: Id, scopes: seq<Scope>)
    requires Reordered(a.model, b.model)
    ensures Shuffled(Walked(a, n, scopes).model, Walked(b, n, scopes).model)
  {
    hide Walked, Extends, Mixed;
    WalkFollows(a, n, scopes);
    WalkFollows(b, n, scopes);
    ReorderedIsShuffled(a.model, b.model);
    ShuffledLater(a.model, b.model, Walked(a, n, scopes).model, Walked(b, n, scopes).model);
  }

  /** A path whose every hop is bound in both runs by the time they come to it is bound alike in
      both, provided the references it goes through are sure. */
  lemma PathsInTimeAreFree(a: Progress, b: Progress, extent: Id -> Id, n: Id, scopes: seq<Scope>, e: Id,
                           ta: Progress, ea: seq<Scope>, tb: Progress, eb: seq<Scope>,
                           s: Slot, sc: seq<Scope>, sd: seq<Scope>, h: Id, g: Id, passed: iset<Id>)
    requires Tree(a.model, extent) && Reordered(a.model, b.model) && Apart(a.model, extent, scopes, n)
    requires Enters(a, n, scopes, e, ta, ea) && InTime(ta, ea, e, s, sc, h)
    requires Enters(b, n, scopes, e, tb, eb) && InTime(tb, eb, e, s, sd, g)
    requires PathIn(ta.model, h, RefAt(ta.model, s).parts[1..], passed) && AllSure(a, n, scopes, passed)
    ensures var qa, qb := Walked(a, n, scopes).model, Walked(b, n, scopes).model;
      IsSlot(qa, s) && IsSlot(qb, s) && RefAt(qb, s) == RefAt(qa, s)
  {
    hide Tree, Apart, Walked, Enters, Hands, Follows, Reordered, LookupChain, Firm, PathIn, AllSure, AgreeOn, SameMarks, Matching,
         Follow, SeeThrough, Shuffled;
    var qa, qb := Walked(a, n, scopes), Walked(b, n, scopes);
    TreeReordered(a.model, b.model, extent);
    ApartReordered(a.model, b.model, extent, scopes, n);
    InTimeFate(a, extent, n, scopes, e, ta, ea, s, sc, h);
    InTimeFate(b, extent, n, scopes, e, tb, eb, s, sd, g);
    SameHead(a, b, extent, n, scopes, s, sc, sd);
    PathInFollows(ta, qa, h, RefAt(ta.model, s).parts[1..], passed);
    SureAgree(a, b, extent, n, scopes, passed);
    MarksAgree(a, b, n, scopes);
    OutcomesShuffled(a, b, n, scopes);
    PathAgrees(qa.model, qb.model, h, false, RefAt(a.model, s).parts[1..], passed);
  }

  /** The head is declared alike in both orders. */
  lemma SameHead(a: Progress, b: Progress, extent: Id -> Id, n: Id, scopes: seq<Scope>, s: Slot, sc: seq<Scope>, sd: seq<Scope>)
    requires Tree(b.model, extent) && Reordered(a.model, b.model)
    requires Hands(a.model, n, scopes, s, sc, true) && Hands(b.model, n, scopes, s, sd, true) && IsSlot(a.model, s)
    ensures IsSlot(b.model, s) && RefAt(b.model, s) == RefAt(a.model, s)
    ensures forall name :: LookupChain(b.model, sd, name) == LookupChain(a.model, sc, name)
  {
    hide Tree, Hands, LookupChain, Matching, Mixed, Shuffled;
    MatchingSelf(a.model, scopes);
    var se := HandsReordered(a.model, b.model, n, scopes, scopes, s, sc, true);
    HandsUnique(b.model, extent, n, scopes, s, sd, se);
    SameButOrder(a.model, b.model, s.element);
    ReorderedIsShuffled(a.model, b.model);
    forall name ensures LookupChain(b.model, sd, name) == LookupChain(a.model, sc, name) {
      ChainAlike(a.model, b.model, sc, sd, name);
    }
  }

  /** The same for two runs over a whole program. */
  lemma ProgramPathsAreFree(a: Model, b: Model, extent: Id -> Id, program: Id, library: Id, e: Id,
                            ta: Progress, ea: seq<Scope>, tb: Progress, eb: seq<Scope>,
                            s: Slot, sc: seq<Scope>, sd: seq<Scope>, h: Id, g: Id, passed: iset<Id>)
    requires Tree(a, extent) && Get(a, program).kind == Program
    requires Reordered(a, b) && Get(b, program).members == Get(a, program).members
    requires var p, scopes := RootDeclared(a, program, library), RootScopes(a, program, library);
      && Enters(p, program, scopes, e, ta, ea) && InTime(ta, ea, e, s, sc, h)
      && Enters(RootDeclared(b, program, library), program, scopes, e, tb, eb) && InTime(tb, eb, e, s, sd, g)
      && PathIn(ta.model, h, RefAt(ta.model, s).parts[1..], passed) && AllSure(p, program, scopes, passed)
    ensures var qa, qb := ProgramWalked(a, program, library).model, ProgramWalked(b, program, library).model;
      IsSlot(qa, s) && IsSlot(qb, s) && RefAt(qb, s) == RefAt(qa, s)
  {
    hide Tree, Reordered, Apart, Walked, ProgramWalked, Enters, InTime, PathIn, AllSure, RootDeclared, RootScopes, Follows;
    ProgramsBegin(a, b, extent, program, library);
    PathsInTimeAreFree(RootDeclared(a, program, library), RootDeclared(b, program, library), extent, program,
      RootScopes(a, program, library), e, ta, ea, tb, eb, s, sc, sd, h, g, passed);
  }
}
