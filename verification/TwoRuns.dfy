/** The resolver run over one program in two orders. */
module TwoRuns {
  import opened Basics
  import opened Elements
  import opened Lookup
  import opened Naming
  import opened Resolver
  import opened Runs
  import opened Handling
  import opened Settlement
  import opened Reordering
  import opened FirmPaths
  import opened OrderFreedom
  import opened Denotation

  lemma ReorderedLinks(a: Model, b: Model)
    requires Reordered(a, b)
    ensures Shuffled(a, b) && SameLinks(a, b)
  {
    hide Reordered, Shuffled, Mixed;
    ReorderedIsShuffled(a, b);
    forall id ensures Get(b, id) == Get(a, id).(members := Get(b, id).members) { SameButOrder(a, b, id); }
  }

  lemma PathAlike(a: Model, b: Model, h: Id, segs: seq<string>)
    requires Shuffled(a, b) && SameLinks(a, b)
    ensures Firm(a, h, segs) ==> Firm(b, h, segs)
    ensures Follow(b, h, false, segs) == Follow(a, h, false, segs)
    ensures SameEnd(a, b, Follow(a, h, false, segs))
  {
    hide Shuffled, SameLinks, Firm, Follow;
    if Firm(a, h, segs) { FirmIgnoresOrder(a, b, h, segs); }
    FollowIgnoresOrder(a, b, h, false, segs);
    var place := Follow(a, h, false, segs);
    if place.At? { DerefIgnoresOrder(a, b, place.id, MAX_DEPTH); }
  }

  /** The head of a path in two states that differ in order alone. */
  lemma HeadAlike(a: Model, b: Model, sc: seq<Scope>, sd: seq<Scope>, name: string)
    requires Shuffled(a, b) && Matching(a, sc, sd) && SameTargets(a, b, sc)
    ensures Head(b, sd, name) == Head(a, sc, name)
  {
    hide Shuffled, Matching, SameTargets, LookupChain, SearchWildcards;
    HeadIgnoresOrder(a, b, sc, sd, name);
  }

  // ---- what a reference denotes does not depend on the order ------------------------------------

  lemma {:induction false} ChainAlike(a: Model, b: Model, sc: seq<Scope>, sd: seq<Scope>, name: string)
    requires Shuffled(a, b) && Matching(a, sc, sd)
    ensures LookupChain(b, sd, name) == LookupChain(a, sc, name)
    decreases |sc|
  {
    hide Shuffled, FirstNamed, MatchingScope;
    if sc != [] {
      SymbolsIgnoreOrder(a, b, sc[0], sd[0], name);
      MatchingTail(a, sc, sd, 1);
      ChainAlike(a, b, sc[1..], sd[1..], name);
    }
  }

  lemma ExportsAlike(a: Model, b: Model, t: Option<Id>, name: string)
    requires Shuffled(a, b)
    ensures Exports(b, t, name) == Exports(a, t, name)
  {
    hide Mixed;
    if t.Some? { FirstNamedMixed(a, b, Get(a, t.value).members, Get(b, t.value).members, name); }
  }

  /** Two models and two scope chains that differ in order alone. */
  ghost predicate Alike(a: Model, b: Model, sc: seq<Scope>, sd: seq<Scope>) {
    Reordered(a, b) && Matching(a, sc, sd)
  }

  lemma AlikeTail(a: Model, b: Model, sc: seq<Scope>, sd: seq<Scope>)
    requires Alike(a, b, sc, sd) && sc != []
    ensures sd != [] && Alike(a, b, sc[1..], sd[1..]) && sd[0].wildcards == sc[0].wildcards && |sd| == |sc|
  {
    hide Reordered, MatchingScope;
    MatchingTail(a, sc, sd, 1);
    SameWildcards(a, sc[0], sd[0]);
  }

  lemma {:induction false} ThroughAlike(a: Model, b: Model, sc: seq<Scope>, sd: seq<Scope>, low: nat, w: Id, name: string)
    requires Alike(a, b, sc, sd) && sc != [] && sd != []
    ensures Through(b, sd, low, w, name) == Through(a, sc, low, w, name)
    ensures |sc| > low && FirmTarget(a, sc[1..], low, w) ==> FirmTarget(b, sd[1..], low, w)
    decreases |sc|, 0
  {
    hide Reordered, Matching, Exports, Denoted, FirmIn;
    AlikeTail(a, b, sc, sd);
    ReorderedIsShuffled(a, b);
    SameButOrder(a, b, w);
    if Get(a, w).target != [] { DenotedAlike(a, b, sc[1..], sd[1..], low, Get(a, w).target[0]); }
    ExportsAlike(a, b, TargetOf(Get(a, w)), name);
    ExportsAlike(a, b, Target(a, sc[1..], low, w), name);
  }

  lemma {:induction false} ImportsAlike(a: Model, b: Model, sc: seq<Scope>, sd: seq<Scope>, low: nat, imports: seq<Id>, name: string)
    requires Alike(a, b, sc, sd) && sc != [] && sd != []
    ensures Imported(b, sd, low, imports, name) == Imported(a, sc, low, imports, name)
    ensures FirmImports(a, sc, low, imports, name) ==> FirmImports(b, sd, low, imports, name)
    decreases |sc|, 1, |imports|
  {
    hide Alike, Through, FirmTarget;
    if imports != [] {
      AlikeTail(a, b, sc, sd);
      ThroughAlike(a, b, sc, sd, low, imports[0], name);
      ImportsAlike(a, b, sc, sd, low, imports[1..], name);
    }
  }

  lemma {:induction false} ImportedAlike(a: Model, b: Model, sc: seq<Scope>, sd: seq<Scope>, low: nat, name: string)
    requires Alike(a, b, sc, sd)
    ensures ImportedHead(b, sd, low, name) == ImportedHead(a, sc, low, name)
    ensures FirmChain(a, sc, low, name) ==> FirmChain(b, sd, low, name)
    decreases |sc|, 2
  {
    hide Reordered, MatchingScope, Imported, FirmImports;
    if sc != [] {
      AlikeTail(a, b, sc, sd);
      ImportsAlike(a, b, sc, sd, low, sc[0].wildcards, name);
      ImportedAlike(a, b, sc[1..], sd[1..], low, name);
    }
  }

  lemma {:induction false} HeadsAlike(a: Model, b: Model, sc: seq<Scope>, sd: seq<Scope>, low: nat, name: string)
    requires Alike(a, b, sc, sd)
    ensures HeadOf(b, sd, low, name) == HeadOf(a, sc, low, name)
    ensures FirmHead(a, sc, low, name) ==> FirmHead(b, sd, low, name)
    decreases |sc|, 3
  {
    hide Reordered, Shuffled, SameLinks, Matching, LookupChain, ImportedHead, FirmChain;
    ReorderedLinks(a, b);
    ChainAlike(a, b, sc, sd, name);
    ImportedAlike(a, b, sc, sd, low, name);
  }

  lemma {:induction false} DenotedAlike(a: Model, b: Model, sc: seq<Scope>, sd: seq<Scope>, low: nat, r: Ref)
    requires Alike(a, b, sc, sd)
    ensures Denoted(b, sd, low, r) == Denoted(a, sc, low, r)
    ensures FirmIn(a, sc, low, r) ==> FirmIn(b, sd, low, r)
    decreases |sc|, 4
  {
    hide Reordered, Shuffled, SameLinks, Matching, HeadOf, FirmHead, Follow, Firm, SeeThrough;
    if r.parts != [] && r.target.None? {
      ReorderedLinks(a, b);
      HeadsAlike(a, b, sc, sd, low, r.parts[0]);
      var h := HeadOf(a, sc, low, r.parts[0]);
      if h.Some? { PathAlike(a, b, h.value, r.parts[1..]); }
    }
  }

  // ---- two runs over one subtree -----------------------------------------------------------------

  lemma {:induction false} TreeReordered(a: Model, b: Model, extent: Id -> Id)
    requires Tree(a, extent) && Reordered(a, b)
    ensures Tree(b, extent)
  {
    forall n | 0 <= n < |b|
      ensures n < extent(n) <= |b|
      ensures forall i | 0 <= i < |b[n].members| :: n < b[n].members[i] < |b| && extent(b[n].members[i]) <= extent(n)
      ensures forall i, j | 0 <= i < j < |b[n].members| ::
        extent(b[n].members[i]) <= b[n].members[j] || extent(b[n].members[j]) <= b[n].members[i]
    {
      MembersReordered(a, b, extent, n);
    }
  }

  lemma MembersReordered(a: Model, b: Model, extent: Id -> Id, n: Id)
    requires Tree(a, extent) && Reordered(a, b) && n < |a|
    ensures n < extent(n) <= |a| == |b|
    ensures forall i | 0 <= i < |b[n].members| :: n < b[n].members[i] < |b| && extent(b[n].members[i]) <= extent(n)
    ensures forall i, j | 0 <= i < j < |b[n].members| ::
      extent(b[n].members[i]) <= b[n].members[j] || extent(b[n].members[j]) <= b[n].members[i]
  {
    hide Tree, Reordered, Mixed;
    TreeSelf(a, extent, n);
    SameButOrder(a, b, n);
    var x, y := a[n].members, b[n].members;
    forall i | 0 <= i < |y| ensures n < y[i] < |b| && extent(y[i]) <= extent(n) {
      assert y[i] in Get(b, n).members;
      TreeMember(a, extent, n, y[i]);
    }
    forall i, j | 0 <= i < j < |y| ensures extent(y[i]) <= y[j] || extent(y[j]) <= y[i] {
      assert y[i] in Get(b, n).members && y[j] in Get(b, n).members;
      if y[i] == y[j] {
        SameCounts(a, x, y);
        TwiceThere(y, i, j);
        var p, q := TwoPlaces(x, y[i]);
        NoRepeats(a, extent, n, p, q);
      } else {
        SiblingsApart(a, extent, n, y[i], y[j]);
      }
    }
  }

  lemma SameCounts(m: Model, x: seq<Id>, y: seq<Id>)
    requires Mixed(m, x, y)
    ensures multiset(x) == multiset(y)
  {
    hide DistinctNames, Wildcards;
  }

  /** List the members of any containers of a subtree in another order, keeping the wildcard
      imports of each in order: every reference that is handed over and firm is bound in one
      outcome if and only if it is in the other, to the same element with the same parity. */
  lemma OrderIsFree(a: Progress, b: Progress, extent: Id -> Id, n: Id, scopes: seq<Scope>, s: Slot, sc: seq<Scope>)
    requires Tree(a.model, extent) && Reordered(a.model, b.model) && Apart(a.model, extent, scopes, n)
    requires Hands(a.model, n, scopes, s, sc, true) && IsSlot(a.model, s)
    requires FirmIn(a.model, sc, |scopes|, RefAt(a.model, s))
    ensures var qa, qb := Walked(a, n, scopes), Walked(b, n, scopes);
      IsSlot(qa.model, s) && IsSlot(qb.model, s) && RefAt(qb.model, s) == RefAt(qa.model, s)
  {
    hide Tree, Apart, Reordered, Walked, Hands, Matching, FirmIn, Denoted, Mixed;
    TreeReordered(a.model, b.model, extent);
    MatchingSelf(a.model, scopes);
    SameButOrder(a.model, b.model, s.element);
    ApartReordered(a.model, b.model, extent, scopes, n);
    var sd := HandsReordered(a.model, b.model, n, scopes, scopes, s, sc, true);
    DenotedAlike(a.model, b.model, sc, sd, |scopes|, RefAt(a.model, s));
    Fate(a, extent, n, scopes, s, sc, true);
    Fate(b, extent, n, scopes, s, sd, true);
  }

  lemma ApartReordered(a: Model, b: Model, extent: Id -> Id, scopes: seq<Scope>, n: Id)
    requires Reordered(a, b) && Apart(a, extent, scopes, n)
    ensures Apart(b, extent, scopes, n)
  {
    hide Reordered, Mixed;
    SameButOrder(a, b, n);
    forall k, w | 0 <= k < |scopes| && w in scopes[k].wildcards ensures Get(b, w).kind == Get(a, w).kind {
      SameButOrder(a, b, w);
    }
  }

  /** In particular every name of one segment that a scope of its place declares, and that is no
      alias, whatever is imported anywhere. */
  lemma DeclaredNamesAreFree(a: Progress, b: Progress, extent: Id -> Id, n: Id, scopes: seq<Scope>, s: Slot, sc: seq<Scope>)
    requires Tree(a.model, extent) && Reordered(a.model, b.model) && Apart(a.model, extent, scopes, n)
    requires Hands(a.model, n, scopes, s, sc, true) && IsSlot(a.model, s)
    requires var r := RefAt(a.model, s);
      && |r.parts| == 1 && r.target.None? && LookupChain(a.model, sc, r.parts[0]).Some?
      && Get(a.model, LookupChain(a.model, sc, r.parts[0]).value).kind != Alias
    ensures var qa, qb := Walked(a, n, scopes), Walked(b, n, scopes);
      && IsSlot(qa.model, s) && IsSlot(qb.model, s) && RefAt(qb.model, s) == RefAt(qa.model, s)
      && RefAt(qa.model, s).target == LookupChain(a.model, sc, RefAt(a.model, s).parts[0])
  {
    hide Tree, Apart, Reordered, Walked, Hands, FirmIn, Denoted, LookupChain;
    DeclaredNameIsFirm(a.model, sc, |scopes|, RefAt(a.model, s));
    OrderIsFree(a, b, extent, n, scopes, s, sc);
    Fate(a, extent, n, scopes, s, sc, true);
  }

  // ---- whole programs ---------------------------------------------------------------------------------

  /** Equal states but for the order bind a reference of the root alike. */
  lemma StepReordered(p: Progress, q: Progress, s: Slot, scopes: seq<Scope>, report: bool)
    requires Reordered(p.model, q.model)
    ensures Reordered(Stepped(p, s, scopes, report).model, Stepped(q, s, scopes, report).model)
  {
    hide Resolve, Mixed, Bind;
    SameButOrder(p.model, q.model, s.element);
    if IsSlot(p.model, s) && RefAt(p.model, s).parts != [] && RefAt(p.model, s).target.None? {
      ResolveReordered(p.model, q.model, scopes, RefAt(p.model, s));
      var o := Resolve(p.model, scopes, RefAt(p.model, s));
      if o.Found? { BindReordered(p.model, q.model, s, o.id, o.parity); }
    }
  }

  lemma ResolveReordered(a: Model, b: Model, scopes: seq<Scope>, r: Ref)
    requires Reordered(a, b) && r.parts != []
    ensures Resolve(b, scopes, r) == Resolve(a, scopes, r)
  {
    hide Reordered, Shuffled, SameLinks, Matching, Head, Follow, Deref;
    ReorderedLinks(a, b);
    MatchingSelf(a, scopes);
    forall id ensures Get(b, id).target == Get(a, id).target { SameButOrder(a, b, id); }
    HeadAlike(a, b, scopes, scopes, r.parts[0]);
    var h := Head(a, scopes, r.parts[0]);
    if h.Some? {
      FollowIgnoresOrder(a, b, h.value, false, r.parts[1..]);
      var place := Follow(a, h.value, false, r.parts[1..]);
      if place.At? { DerefIgnoresOrder(a, b, place.id, MAX_DEPTH); }
    }
  }

  lemma PutMembers(e: Element, role: Role, refs: seq<Ref>, members: seq<Id>)
    ensures Put(e.(members := members), role, refs) == Put(e, role, refs).(members := members)
    ensures RefsOf(e.(members := members), role) == RefsOf(e, role)
    ensures Put(e, role, refs).members == e.members && Put(e, role, refs).name == e.name
    ensures Put(e, role, refs).kind == e.kind && Put(e, role, refs).wildcard == e.wildcard
  {
  }

  lemma BindReordered(a: Model, b: Model, s: Slot, id: Id, parity: bool)
    requires Reordered(a, b) && IsSlot(a, s) && IsSlot(b, s) && RefAt(b, s) == RefAt(a, s)
    ensures Reordered(Bind(a, s, id, parity), Bind(b, s, id, parity))
  {
    hide Mixed, Put, RefsOf;
    var a', b', e := Bind(a, s, id, parity), Bind(b, s, id, parity), s.element;
    var refs := RefsOf(a[e], s.role)[s.index := RefAt(a, s).(target := Some(id), parity := parity)];
    assert b[e] == a[e].(members := b[e].members);
    PutMembers(a[e], s.role, refs, b[e].members);
    forall k: Id | k < |a|
      ensures b'[k] == a'[k].(members := b'[k].members) && Mixed(a', a'[k].members, b'[k].members)
    {
      assert b[k] == a[k].(members := b[k].members);
      MixedKept(a, a', a[k].members, b[k].members);
    }
  }

  lemma {:induction false} RootReordered(a: Progress, b: Progress, library: Id, members: seq<Id>)
    requires Reordered(a.model, b.model)
    ensures Reordered(Declared(a, [library], members, [], true).model, Declared(b, [library], members, [], true).model)
    decreases |members|
  {
    hide Reordered, Stepped, FirstNamed, Inner;
    if members != [] {
      var front, x := members[..|members| - 1], members[|members| - 1];
      RootReordered(a, b, library, front);
      SameButOrder(a.model, b.model, x);
      SameInner(a.model, b.model, library, front);
      StepReordered(Declared(a, [library], front, [], true), Declared(b, [library], front, [], true),
        Slot(x, TargetRefs, 0), [Inner(a.model, [library], front)], false);
    }
  }

  lemma SameInner(a: Model, b: Model, library: Id, members: seq<Id>)
    requires Reordered(a, b)
    ensures Inner(b, [library], members) == Inner(a, [library], members)
  {
    hide Reordered, Mixed, Symbols, Wildcards;
    ReorderedIsShuffled(a, b);
    SymbolsRenamed(a, b, [library], members);
    WildcardsKept(a, b, members);
  }

  /** Both runs over a program begin with states that differ in order alone. */
  lemma ProgramsBegin(a: Model, b: Model, extent: Id -> Id, program: Id, library: Id)
    requires Tree(a, extent) && Get(a, program).kind == Program
    requires Reordered(a, b) && Get(b, program).members == Get(a, program).members
    ensures var p, q, scopes := RootDeclared(a, program, library), RootDeclared(b, program, library), RootScopes(a, program, library);
      && Tree(p.model, extent) && Reordered(p.model, q.model) && Apart(p.model, extent, scopes, program)
      && RootScopes(b, program, library) == scopes && Follows(Progress(a, 0), p)
      && ProgramWalked(a, program, library) == Walked(p, program, scopes)
      && ProgramWalked(b, program, library) == Walked(q, program, scopes)
      && forall id: Id | Get(a, id).kind != Import :: Get(p.model, id) == Get(a, id)
  {
    hide Tree, Reordered, Apart, Walked, ProgramWalked, Follows, RootDeclared;
    ProgramIsWalk(a, extent, program, library);
    TreeReordered(a, b, extent);
    SameButOrder(a, b, program);
    ProgramIsWalk(b, extent, program, library);
    RootReordered(Progress(a, 0), Progress(b, 0), library, Get(a, program).members);
    SameInner(a, b, library, Get(a, program).members);
    RootsDeclared(a, b, program, library);
  }

  lemma RootsDeclared(a: Model, b: Model, program: Id, library: Id)
    requires Get(b, program).members == Get(a, program).members
    ensures RootDeclared(a, program, library) == Declared(Progress(a, 0), [library], Get(a, program).members, [], true)
    ensures RootDeclared(b, program, library) == Declared(Progress(b, 0), [library], Get(a, program).members, [], true)
  {
    hide Declared;
  }

  /** The same for a whole program whose containers below the root list their members in another
      order; a reference is firm or not once the names of the root are declared. */
  lemma ProgramOrderIsFree(a: Model, b: Model, extent: Id -> Id, program: Id, library: Id, s: Slot, sc: seq<Scope>)
    requires Tree(a, extent) && Get(a, program).kind == Program
    requires Reordered(a, b) && Get(b, program).members == Get(a, program).members
    requires Hands(a, program, RootScopes(a, program, library), s, sc, true) && IsSlot(a, s)
    requires FirmIn(RootDeclared(a, program, library).model, sc, 1, RefAt(a, s))
    ensures var qa, qb := ProgramWalked(a, program, library).model, ProgramWalked(b, program, library).model;
      IsSlot(qa, s) && IsSlot(qb, s) && RefAt(qb, s) == RefAt(qa, s)
  {
    hide Tree, Reordered, Apart, Walked, ProgramWalked, Hands, Follows, FirmIn, RootDeclared;
    var p, scopes := RootDeclared(a, program, library), RootScopes(a, program, library);
    ProgramsBegin(a, b, extent, program, library);
    HandsKept(Progress(a, 0), p, program, scopes, s, sc, true);
    HandsNoImport(a, program, scopes, s, sc);
    SameSlot(Progress(a, 0), p, s);
    SameElementKeeps(a, p.model, s);
    OrderIsFree(p, RootDeclared(b, program, library), extent, program, scopes, s, sc);
  }

  /** And every declared name of a program: it is bound to what its scopes declare, in any order. */
  lemma ProgramNamesAreFree(a: Model, b: Model, extent: Id -> Id, program: Id, library: Id, s: Slot, sc: seq<Scope>)
    requires Tree(a, extent) && Get(a, program).kind == Program
    requires Reordered(a, b) && Get(b, program).members == Get(a, program).members
    requires Hands(a, program, RootScopes(a, program, library), s, sc, true) && IsSlot(a, s)
    requires var r := RefAt(a, s);
      && |r.parts| == 1 && r.target.None? && LookupChain(a, sc, r.parts[0]).Some?
      && Get(a, LookupChain(a, sc, r.parts[0]).value).kind != Alias
    ensures var qa, qb := ProgramWalked(a, program, library).model, ProgramWalked(b, program, library).model;
      && IsSlot(qa, s) && IsSlot(qb, s) && RefAt(qb, s) == RefAt(qa, s)
      && RefAt(qa, s).target == LookupChain(a, sc, RefAt(a, s).parts[0])
  {
    hide Tree, Reordered, Apart, Walked, ProgramWalked, Hands, Follows, LookupChain, RootDeclared;
    var p, scopes := RootDeclared(a, program, library), RootScopes(a, program, library);
    ProgramsBegin(a, b, extent, program, library);
    HandsKept(Progress(a, 0), p, program, scopes, s, sc, true);
    HandsNoImport(a, program, scopes, s, sc);
    SameSlot(Progress(a, 0), p, s);
    SameElementKeeps(a, p.model, s);
    ChainFollows(Progress(a, 0), p, sc, RefAt(a, s).parts[0]);
    SameShape(Progress(a, 0), p, LookupChain(a, sc, RefAt(a, s).parts[0]).value);
    DeclaredNamesAreFree(p, RootDeclared(b, program, library), extent, program, scopes, s, sc);
  }
}
