/** What a run makes of a reference, told from the state in which the run begins. */
module Denotation {
  import opened Basics
  import opened Elements
  import opened Lookup
  import opened Naming
  import opened Resolver
  import opened Runs
  import opened Handling
  import opened Settlement
  import opened FirmPaths

  // ---- what a reference stands for ------------------------------------------------------------

  // In the scopes `sc`, innermost first, the imports of the outermost `low` ones are not touched
  // by the walk; those of the others have their targets resolved in the scopes outside of theirs.

  /** What an import in the scope right inside `sc` is bound to. */
  function Target(m: Model, sc: seq<Scope>, low: nat, w: Id): Option<Id>
    decreases |sc|, 5
  {
    if Get(m, w).target == [] then None else Denoted(m, sc, low, Get(m, w).target[0]).target
  }

  /** What is found under a name through an import that is bound to `t`. */
  function Exports(m: Model, t: Option<Id>, name: string): Option<Id> {
    if t.Some? && Get(m, t.value).kind == Package then FirstNamed(m, Get(m, t.value).members, name) else None
  }

  /** What is found through an import of the innermost scope of `sc`. */
  function Through(m: Model, sc: seq<Scope>, low: nat, w: Id, name: string): Option<Id>
    requires sc != []
    decreases |sc|, 0
  {
    Exports(m, if |sc| <= low then TargetOf(Get(m, w)) else Target(m, sc[1..], low, w), name)
  }

  function Imported(m: Model, sc: seq<Scope>, low: nat, imports: seq<Id>, name: string): Option<Id>
    requires sc != []
    decreases |sc|, 1, |imports|
  {
    if imports == [] then None
    else if Through(m, sc, low, imports[0], name).Some? then Through(m, sc, low, imports[0], name)
    else Imported(m, sc, low, imports[1..], name)
  }

  function ImportedHead(m: Model, sc: seq<Scope>, low: nat, name: string): Option<Id>
    decreases |sc|, 2
  {
    if sc == [] then None
    else if Imported(m, sc, low, sc[0].wildcards, name).Some? then Imported(m, sc, low, sc[0].wildcards, name)
    else ImportedHead(m, sc[1..], low, name)
  }

  function HeadOf(m: Model, sc: seq<Scope>, low: nat, name: string): Option<Id>
    decreases |sc|, 3
  {
    if LookupChain(m, sc, name).Some? then LookupChain(m, sc, name) else ImportedHead(m, sc, low, name)
  }

  /** `r` bound to the end of its path from `h`. */
  function BoundFrom(m: Model, h: Option<Id>, r: Ref): Ref
    requires r.parts != []
  {
    match h
    case None => r
    case Some(id) =>
      match Follow(m, id, false, r.parts[1..])
      case Lost => r
      case At(end, parity) => r.(target := Some(SeeThrough(m, end)), parity := parity != r.conjugated)
  }

  /** The reference as it is after the run. */
  function Denoted(m: Model, sc: seq<Scope>, low: nat, r: Ref): Ref
    decreases |sc|, 4
  {
    if r.parts == [] || r.target.Some? then r else BoundFrom(m, HeadOf(m, sc, low, r.parts[0]), r)
  }

  // ---- when that is certain ----------------------------------------------------------------------

  predicate FirmTarget(m: Model, sc: seq<Scope>, low: nat, w: Id)
    decreases |sc|, 5
  {
    Get(m, w).target == [] || FirmIn(m, sc, low, Get(m, w).target[0])
  }

  /** The imports up to the one through which the name is found are firm themselves. */
  predicate FirmImports(m: Model, sc: seq<Scope>, low: nat, imports: seq<Id>, name: string)
    requires sc != []
    decreases |sc|, 1, |imports|
  {
    || imports == [] || |sc| <= low
    || (FirmTarget(m, sc[1..], low, imports[0])
        && (Through(m, sc, low, imports[0], name).Some? || FirmImports(m, sc, low, imports[1..], name)))
  }

  predicate FirmChain(m: Model, sc: seq<Scope>, low: nat, name: string)
    decreases |sc|, 2
  {
    || sc == []
    || (FirmImports(m, sc, low, sc[0].wildcards, name)
        && (Imported(m, sc, low, sc[0].wildcards, name).Some? || FirmChain(m, sc[1..], low, name)))
  }

  /** No import is asked for a name that a scope declares. */
  predicate FirmHead(m: Model, sc: seq<Scope>, low: nat, name: string)
    decreases |sc|, 3
  {
    LookupChain(m, sc, name).Some? || FirmChain(m, sc, low, name)
  }

  /** The reference is bound already, or neither its head nor its path depends on a reference that
      is still to be bound.  Nothing here speaks of the run. */
  predicate FirmIn(m: Model, sc: seq<Scope>, low: nat, r: Ref)
    decreases |sc|, 4
  {
    r.parts == [] || r.target.Some? ||
    (FirmHead(m, sc, low, r.parts[0])
     && (HeadOf(m, sc, low, r.parts[0]).Some? ==> Firm(m, HeadOf(m, sc, low, r.parts[0]).value, r.parts[1..])))
  }

  /** A name of one segment that a scope declares is firm, whatever is imported anywhere. */
  lemma DeclaredNameIsFirm(m: Model, sc: seq<Scope>, low: nat, r: Ref)
    requires |r.parts| == 1 && LookupChain(m, sc, r.parts[0]).Some?
    requires Get(m, LookupChain(m, sc, r.parts[0]).value).kind != Alias
    ensures FirmIn(m, sc, low, r)
    ensures r.target.None? ==> Denoted(m, sc, low, r).target == LookupChain(m, sc, r.parts[0])
  {
    hide LookupChain;
  }

  // ---- the run agrees ------------------------------------------------------------------------------

  /** What a handled reference becomes, told from its head at the end of the run. */
  lemma Becomes(p: Progress, q: Progress, s: Slot, sc: seq<Scope>, report: bool)
    requires Handled(p, q, s, sc, report) && IsSlot(p.model, s)
    requires var r := RefAt(p.model, s);
      r.parts != [] && r.target.None? && Head(q.model, sc, r.parts[0]).Some? ==>
        Firm(p.model, Head(q.model, sc, r.parts[0]).value, r.parts[1..])
    ensures IsSlot(q.model, s)
    ensures var r := RefAt(p.model, s);
      RefAt(q.model, s) ==
        if r.parts == [] || r.target.Some? then r else BoundFrom(p.model, Head(q.model, sc, r.parts[0]), r)
  {
    hide Stepped, Extends, SameImports, Head, Follow, Firm, SeeThrough;
    var t :| HandledAt(p, q, s, sc, report, t);
    var u := Stepped(t, s, sc, report);
    var r := RefAt(p.model, s);
    StepFollows(t, s, sc, report);
    StepBinds(t, s, sc, report);
    ExtendsTrans(t.model, u.model, q.model);
    if r.parts != [] && r.target.None? {
      HeadKept(t.model, q.model, sc, r.parts[0]);
      var h := Head(q.model, sc, r.parts[0]);
      if h.Some? { FirmIsStable(p.model, t.model, h.value, false, r.parts[1..]); }
    }
  }

  lemma HeadKept(a: Model, b: Model, sc: seq<Scope>, name: string)
    requires Extends(a, b) && SameImports(a, b, sc)
    ensures Head(b, sc, name) == Head(a, sc, name)
  {
    hide Extends, SameImports, LookupChain, SearchWildcards;
    HeadStable(a, b, sc, name);
  }

  lemma {:induction false} ChainKept(a: Model, b: Model, sc: seq<Scope>, name: string)
    requires Extends(a, b)
    ensures LookupChain(b, sc, name) == LookupChain(a, sc, name)
  {
    hide Extends, FirstNamed;
    if sc != [] {
      FirstNamedStable(a, b, sc[0].symbols, name);
      ChainKept(a, b, sc[1..], name);
    }
  }

  lemma ExportsKept(a: Model, b: Model, t: Option<Id>, name: string)
    requires Extends(a, b)
    ensures Exports(b, t, name) == Exports(a, t, name)
  {
    hide Extends, FirstNamed;
    if t.Some? {
      ExtendsShape(a, b, t.value);
      FirstNamedStable(a, b, Get(a, t.value).members, name);
    }
  }

  lemma SearchUnfolds(m: Model, imports: seq<Id>, name: string)
    requires imports != []
    ensures var found := Exports(m, TargetOf(Get(m, imports[0])), name);
      SearchImports(m, imports, name) == if found.Some? then found else SearchImports(m, imports[1..], name)
  {
    hide FirstNamed;
  }

  // ---- imports of a scope chain ----------------------------------------------------------------------

  /** The scopes of a reference end with the scopes of the walk; an import of the others is
      itself handed over, in the scopes outside its container. */
  lemma {:induction false} HandsChain(m: Model, n: Id, scopes: seq<Scope>, s: Slot, sc: seq<Scope>, report: bool)
    requires Hands(m, n, scopes, s, sc, report)
    ensures |sc| >= |scopes| && sc[|sc| - |scopes|..] == scopes
    ensures forall k, w | 0 <= k < |sc| - |scopes| && w in sc[k].wildcards && Get(m, w).target != [] && w < |m| ::
      Hands(m, n, scopes, Slot(w, TargetRefs, 0), sc[k + 1..], false)
    decreases if n < |m| then |m| - n else 0
  {
    hide Inner;
    var inner := InnerScopes(m, n, scopes);
    if Scoped(Get(m, n).kind) {
      assert inner[1..] == scopes;
      InnerImportsHanded(m, n, scopes);
    }
    if (report && HandsOwn(m, n, scopes, s, sc)) || (!report && HandsImport(m, n, scopes, s, sc)) {
      assert sc == scopes || sc == inner;
    } else {
      var x :| x in Get(m, n).members && n < x < |m| && Hands(m, x, inner, s, sc, report);
      HandsChain(m, x, inner, s, sc, report);
      ChainOutward(m, n, scopes, x, sc);
    }
  }

  /** The same, from the scopes inside a container to the ones outside it. */
  lemma ChainOutward(m: Model, n: Id, scopes: seq<Scope>, x: Id, sc: seq<Scope>)
    requires var inner := InnerScopes(m, n, scopes);
      && HasParts(Get(m, n).kind) && x in Get(m, n).members && n < x < |m|
      && |sc| >= |inner| && sc[|sc| - |inner|..] == inner
      && (forall k, w | 0 <= k < |sc| - |inner| && w in sc[k].wildcards && Get(m, w).target != [] && w < |m| ::
            Hands(m, x, inner, Slot(w, TargetRefs, 0), sc[k + 1..], false))
    ensures |sc| >= |scopes| && sc[|sc| - |scopes|..] == scopes
    ensures forall k, w | 0 <= k < |sc| - |scopes| && w in sc[k].wildcards && Get(m, w).target != [] && w < |m| ::
      Hands(m, n, scopes, Slot(w, TargetRefs, 0), sc[k + 1..], false)
  {
    hide Inner, Hands;
    var inner := InnerScopes(m, n, scopes);
    var d := |sc| - |inner|;
    assert Scoped(Get(m, n).kind) ==> inner[1..] == scopes;
    assert sc[|sc| - |scopes|..] == sc[d..][|inner| - |scopes|..];
    forall k, w | 0 <= k < |sc| - |scopes| && w in sc[k].wildcards && Get(m, w).target != [] && w < |m|
      ensures Hands(m, n, scopes, Slot(w, TargetRefs, 0), sc[k + 1..], false)
    {
      if k < d {
        HandsOutward(m, n, scopes, x, Slot(w, TargetRefs, 0), sc[k + 1..]);
      } else {
        assert sc[k] == sc[d..][0] == inner[0] && sc[k + 1..] == sc[d..][1..];
        InnerImportsHanded(m, n, scopes);
      }
    }
  }

  lemma HandsOutward(m: Model, n: Id, scopes: seq<Scope>, x: Id, s: Slot, sc: seq<Scope>)
    requires HasParts(Get(m, n).kind) && x in Get(m, n).members && n < x < |m|
    requires Hands(m, x, InnerScopes(m, n, scopes), s, sc, false)
    ensures Hands(m, n, scopes, s, sc, false)
  {
  }

  lemma InnerImportsHanded(m: Model, n: Id, scopes: seq<Scope>)
    requires Scoped(Get(m, n).kind)
    ensures forall w | w in InnerScopes(m, n, scopes)[0].wildcards && Get(m, w).target != [] && w < |m| ::
      Hands(m, n, scopes, Slot(w, TargetRefs, 0), scopes, false)
  {
    hide Inner;
    forall w | w in InnerScopes(m, n, scopes)[0].wildcards && Get(m, w).target != [] && w < |m|
      ensures Hands(m, n, scopes, Slot(w, TargetRefs, 0), scopes, false)
    {
      ScopeImports(m, Get(m, n).members, w);
      assert HandsImport(m, n, scopes, Slot(w, TargetRefs, 0), scopes);
    }
  }

  lemma SameTargetLength(p: Progress, q: Progress, w: Id)
    requires Follows(p, q)
    ensures |Get(q.model, w).target| == |Get(p.model, w).target| && |q.model| == |p.model|
  {
    if w < |p.model| { assert ElementExtends(p.model[w], q.model[w]); }
  }

  lemma ScopesKept(p: Progress, extent: Id -> Id, n: Id, scopes: seq<Scope>, k: nat, w: Id)
    requires Tree(p.model, extent) && n < |p.model| && Apart(p.model, extent, scopes, n) && Get(p.model, n).kind != Import
    requires k < |scopes| && w in scopes[k].wildcards
    ensures Get(Walked(p, n, scopes).model, w) == Get(p.model, w)
  {
    hide Tree, Apart, Walked, AfterRoles, AfterNames, AfterParts;
    ScopesSpared(p, extent, n, scopes);
  }

  /** A walk of the subtree `n` in `scopes` that hands `s` over in `sc`. */
  ghost predicate Walks(p: Progress, extent: Id -> Id, n: Id, scopes: seq<Scope>, s: Slot, sc: seq<Scope>, report: bool) {
    && Tree(p.model, extent) && Apart(p.model, extent, scopes, n) && Hands(p.model, n, scopes, s, sc, report)
    && IsSlot(p.model, s) && (report || s == Slot(s.element, TargetRefs, 0))
  }

  /** After a walk every firm reference that it hands over is what it denotes at the start. */
  lemma {:induction false} Fate(p: Progress, extent: Id -> Id, n: Id, scopes: seq<Scope>, s: Slot, sc: seq<Scope>, report: bool)
    requires Walks(p, extent, n, scopes, s, sc, report) && FirmIn(p.model, sc, |scopes|, RefAt(p.model, s))
    ensures var q := Walked(p, n, scopes).model;
      IsSlot(q, s) && RefAt(q, s) == Denoted(p.model, sc, |scopes|, RefAt(p.model, s))
    decreases |sc|, 4
  {
    hide Tree, Apart, Walked, Hands, Handled, LookupChain, SearchWildcards, ImportedHead, FirmChain, Firm, BoundFrom, Follows;
    var q, r := Walked(p, n, scopes), RefAt(p.model, s);
    WalkHandles(p, extent, n, scopes, s, sc, report);
    if r.parts != [] && r.target.None? {
      WalkFollows(p, n, scopes);
      ChainFollows(p, q, sc, r.parts[0]);
      if LookupChain(p.model, sc, r.parts[0]).None? {
        assert sc[0..] == sc;
        ImportedFate(p, extent, n, scopes, s, sc, report, 0, r.parts[0]);
      }
    }
    Becomes(p, q, s, sc, report);
  }

  lemma ChainFollows(p: Progress, q: Progress, sc: seq<Scope>, name: string)
    requires Follows(p, q)
    ensures LookupChain(q.model, sc, name) == LookupChain(p.model, sc, name)
  {
    hide Extends, LookupChain;
    ChainKept(p.model, q.model, sc, name);
  }

  lemma {:induction false} ImportedFate(p: Progress, extent: Id -> Id, n: Id, scopes: seq<Scope>, s: Slot, sc: seq<Scope>,
                                        report: bool, k: nat, name: string)
    requires Walks(p, extent, n, scopes, s, sc, report) && k <= |sc| && FirmChain(p.model, sc[k..], |scopes|, name)
    ensures SearchWildcards(Walked(p, n, scopes).model, sc[k..], name) == ImportedHead(p.model, sc[k..], |scopes|, name)
    decreases |sc|, 3, |sc| - k
  {
    hide Walks, Walked, SearchImports, Imported, FirmImports;
    if k < |sc| {
      var tail := sc[k..];
      assert tail[1..] == sc[k + 1..] && tail[0] == sc[k];
      assert sc[k].wildcards[0..] == sc[k].wildcards;
      ListFate(p, extent, n, scopes, s, sc, report, k, 0, name);
      if Imported(p.model, tail, |scopes|, tail[0].wildcards, name).None? {
        ImportedFate(p, extent, n, scopes, s, sc, report, k + 1, name);
      }
    }
  }

  /** The imports of one scope, from the `i`th one on. */
  lemma {:induction false} ListFate(p: Progress, extent: Id -> Id, n: Id, scopes: seq<Scope>, s: Slot, sc: seq<Scope>,
                                    report: bool, k: nat, i: nat, name: string)
    requires Walks(p, extent, n, scopes, s, sc, report) && k < |sc| && i <= |sc[k].wildcards|
    requires FirmImports(p.model, sc[k..], |scopes|, sc[k].wildcards[i..], name)
    ensures SearchImports(Walked(p, n, scopes).model, sc[k].wildcards[i..], name)
      == Imported(p.model, sc[k..], |scopes|, sc[k].wildcards[i..], name)
    decreases |sc|, 2, |sc[k].wildcards| - i
  {
    hide Walks, Walked, Through, Exports, FirmTarget, SearchImports;
    var imports, q := sc[k].wildcards[i..], Walked(p, n, scopes);
    if imports == [] {
      assert SearchImports(q.model, [], name) == None by { NothingImported(q.model, name); }
    } else {
      assert imports[1..] == sc[k].wildcards[i + 1..] && imports[0] == sc[k].wildcards[i];
      SearchUnfolds(q.model, imports, name);
      TargetFate(p, extent, n, scopes, s, sc, report, k, imports[0], name);
      if Through(p.model, sc[k..], |scopes|, imports[0], name).None? {
        ListFate(p, extent, n, scopes, s, sc, report, k, i + 1, name);
      }
    }
  }

  lemma NothingImported(m: Model, name: string)
    ensures SearchImports(m, [], name) == None
  {
  }

  /** One import: it belongs to the outer scopes and is not touched, or it is handed over itself. */
  lemma {:induction false} TargetFate(p: Progress, extent: Id -> Id, n: Id, scopes: seq<Scope>, s: Slot, sc: seq<Scope>,
                                      report: bool, k: nat, w: Id, name: string)
    requires Walks(p, extent, n, scopes, s, sc, report) && k < |sc| && w in sc[k].wildcards
    requires |sc| - k <= |scopes| || FirmTarget(p.model, sc[k + 1..], |scopes|, w)
    ensures Exports(Walked(p, n, scopes).model, TargetOf(Get(Walked(p, n, scopes).model, w)), name)
      == Through(p.model, sc[k..], |scopes|, w, name)
    decreases |sc|, 1
  {
    hide Tree, Apart, Walked, Hands, Follows, Exports, FirmIn, Denoted;
    var q, tail := Walked(p, n, scopes), sc[k..];
    assert tail[1..] == sc[k + 1..];
    WalkFollows(p, n, scopes);
    ExportsFollow(p, q, TargetOf(Get(q.model, w)), name);
    HandsChain(p.model, n, scopes, s, sc, report);
    HandsRange(p.model, extent, n, scopes, s, sc, report);
    SameTargetLength(p, q, w);
    if |sc| - k <= |scopes| {
      assert sc[k] == sc[|sc| - |scopes|..][k - (|sc| - |scopes|)];
      ScopesKept(p, extent, n, scopes, k - (|sc| - |scopes|), w);
    } else if Get(p.model, w).target != [] {
      TargetIsSlot(p.model, w);
      Fate(p, extent, n, scopes, Slot(w, TargetRefs, 0), sc[k + 1..], false);
      TargetIsSlot(q.model, w);
    }
  }

  lemma ExportsFollow(p: Progress, q: Progress, t: Option<Id>, name: string)
    requires Follows(p, q)
    ensures Exports(q.model, t, name) == Exports(p.model, t, name)
  {
    hide Extends, Exports;
    ExportsKept(p.model, q.model, t, name);
  }
}
