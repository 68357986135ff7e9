/** Exactly which chains of redefinitions are sure to narrow the type. */
module ChainLimits {
  import opened Tokens
  import opened Basics
  import opened Elements
  import opened Walks
  import Subtyping
  import opened Lookup
  import opened Redefinition
  import opened RedefinitionTheory
  import opened Resolver
  import opened Reordering
  import opened Idle

  // ---- exactly which chains narrow ----------------------------------------------------------

  /** A chain of two redefinitions between typed attributes.  `typed` says whether the one in the
      middle declares a type; the redefinitions are paths of `low` and `high` segments. */
  ghost predicate Shape(m: Model, program: Id, chain: seq<Id>, entries: seq<nat>, typed: bool, low: nat, high: nat)
    requires Nested(m)
  {
    && |chain| == 3 && Chain(m, program, chain, entries)
    && DeclaredType(m, chain[0]).Some? && DeclaredType(m, chain[2]).Some?
    && (DeclaredType(m, chain[1]).Some? <==> typed)
    && PathLength(m, chain[0], entries[0]) == low && PathLength(m, chain[1], entries[1]) == high
  }

  function PathLength(m: Model, a: Id, i: nat): nat {
    if i < |Get(m, a).redefines| then |Get(m, a).redefines[i].parts| else 0
  }

  /** What a run of the resolver without errors leaves behind, and so what the checker is given. */
  ghost predicate Resolved(m: Model, program: Id) {
    exists start, library :: ProgramWalked(start, program, library) == Progress(m, 0)
  }

  /** The ends of such a chain of a resolved and accepted program have unrelated types. */
  ghost predicate Breaks(m: Model, program: Id, chain: seq<Id>, entries: seq<nat>, typed: bool, low: nat, high: nat) {
    && Nested(m) && Resolved(m, program) && Accepted(m, program) && Shape(m, program, chain, entries, typed, low, high)
    && !Reaches(Subtyping.SuperLinks(m), DeclaredType(m, chain[0]).value, DeclaredType(m, chain[2]).value)
  }

  lemma TypedChainHolds(m: Model, program: Id, chain: seq<Id>, entries: seq<nat>, low: nat, high: nat)
    requires low <= 2 && high <= 2
    ensures !Breaks(m, program, chain, entries, true, low, high)
  {
    hide Accepted, Redefines, Reaches, DeclaredType, Nested;
    if Breaks(m, program, chain, entries, true, low, high) {
      forall k | 0 <= k < |entries|
        ensures entries[k] < |Get(m, chain[k]).redefines| && |Get(m, chain[k]).redefines[entries[k]].parts| <= 2
      {
        assert Redefines(m, program, chain[k], entries[k], chain[k + 1]);
        var o, e, c := AcceptedLink(m, program, chain[k], entries[k], chain[k + 1]);
      }
      assert Typed(m, chain, entries);
      ChainNarrows(m, program, chain, entries);
    }
  }

  // ---- programs whose chains do not ---------------------------------------------------------

  function Named(kind: ElementKind, name: string, members: seq<Id>): Element {
    Bare(kind, KW_PART, name).(members := members)
  }

  function To(parts: seq<string>, id: Id): Ref { Ref(parts, false, Some(id), false) }

  function Builtin(name: string, id: Id): Ref { To(["ScalarValues", name], id) }

  /** The attribute `x` by a path of `n` segments: through its owner when there are two, and through
      a package that is not loaded when there are more. */
  function Via(owner: string, n: nat, x: Id): (r: Ref)
    requires n > 0
    ensures |r.parts| == n && Redefinition.Last(r.parts) == "x"
    ensures n == 2 ==> r.parts[0] == owner && r.target == Some(x)
    ensures n > 2 ==> r.parts[0] == "Lib"
  {
    Ref(seq(n - 1, _ => if n == 2 then owner else "Lib") + ["x"], false, if n == 2 then Some(x) else None, false)
  }

  /** The type in the middle: whichever one of the two short paths lets through. */
  function Middle(typed: bool, low: nat): seq<Ref> {
    if !typed then [] else if low > 2 then [Builtin("Real", 8)] else [Builtin("String", 9)]
  }

  /** `C :> B :> A`; their attribute `x` is typed `Real` in `A` and `String` in `C`, each one
      redefining the one above.  The package of the two datatypes is built in. */
  function Layers(typed: bool, low: nat, high: nat): Model
    requires low > 0 && high > 0
  {
    [Named(Program, "", [1, 2, 3]),
     Named(Definition, "A", [4]),
     Named(Definition, "B", [5]).(specializes := [To(["A"], 1)]),
     Named(Definition, "C", [6]).(specializes := [To(["B"], 2)]),
     Named(Attribute, "x", []).(types := [Builtin("Real", 8)]),
     Named(Attribute, "x", []).(types := Middle(typed, low), redefines := [Via("A", high, 4)]),
     Named(Attribute, "x", []).(types := [Builtin("String", 9)], redefines := [Via("B", low, 5)]),
     Named(Package, "ScalarValues", [8, 9]),
     Named(Definition, "Real", []),
     Named(Definition, "String", [])]
  }

  // ---- the resolver has nothing against them --------------------------------------------------

  lemma LayersTable(typed: bool, low: nat, high: nat)
    requires low > 0 && high > 0
    ensures var m := Layers(typed, low, high);
      && |m| == 10 && (forall id: Id :: Get(m, id).kind != Import)
      && m[0].members == [1, 2, 3] && m[1].members == [4] && m[2].members == [5] && m[3].members == [6]
      && m[7].members == [8, 9] && (forall id | id in {4, 5, 6, 8, 9} :: m[id].members == [])
      && m[0].name == "" && m[1].name == "A" && m[2].name == "B" && m[3].name == "C"
      && m[4].name == "x" && m[5].name == "x" && m[6].name == "x"
      && m[7].name == "ScalarValues" && m[8].name == "Real" && m[9].name == "String"
  {
    hide Via, Middle;
  }

  lemma LayersForeign(typed: bool, low: nat, high: nat)
    requires low > 0 && high > 0
    ensures Foreign(Layers(typed, low, high), "Lib")
  {
    hide Layers;
    LayersTable(typed, low, high);
    assert "Lib"[0] == 'L' && "A"[0] == 'A' && "B"[0] == 'B' && "C"[0] == 'C' && "x"[0] == 'x'
      && "ScalarValues"[0] == 'S' && "Real"[0] == 'R' && "String"[0] == 'S';
  }

  lemma LayersDistinct(typed: bool, low: nat, high: nat)
    requires low > 0 && high > 0
    ensures var m := Layers(typed, low, high);
      && DistinctNames(m, [7] + Get(m, 0).members)
      && forall id: Id :: Get(m, id).kind != Import && DistinctNames(m, Get(m, id).members)
  {
    hide Layers;
    LayersTable(typed, low, high);
    var m := Layers(typed, low, high);
    assert [7] + [1, 2, 3] == [7, 1, 2, 3];
    assert "A"[0] == 'A' && "B"[0] == 'B' && "C"[0] == 'C' && "ScalarValues"[0] == 'S' && "Real"[0] == 'R' && "String"[0] == 'S';
    forall id: Id ensures DistinctNames(m, Get(m, id).members) {
      if id >= 10 { assert Get(m, id).members == []; } else if id in {4, 5, 6, 8, 9} { assert m[id].members == []; }
    }
  }

  lemma LayersDone(typed: bool, low: nat, high: nat, s: Slot)
    requires low > 0 && high > 0 && IsSlot(Layers(typed, low, high), s)
    ensures Done(Layers(typed, low, high), s)
  {
    hide Via, Foreign;
    LayersForeign(typed, low, high);
    var m := Layers(typed, low, high);
    if s.element == 5 && s.role == RedefinedRefs { assert RefAt(m, s) == Via("A", high, 4); }
    if s.element == 6 && s.role == RedefinedRefs { assert RefAt(m, s) == Via("B", low, 5); }
  }

  lemma LayersResolved(typed: bool, low: nat, high: nat)
    requires low > 0 && high > 0
    ensures Resolved(Layers(typed, low, high), 0)
  {
    hide Layers, Done, ProgramWalked, DistinctNames;
    var m := Layers(typed, low, high);
    LayersDistinct(typed, low, high);
    forall s: Slot | IsSlot(m, s) ensures Done(m, s) { LayersDone(typed, low, high, s); }
    ProgramIsDone(m, 0, 7);
  }

  // ---- nor has the checker ------------------------------------------------------------------------

  /** An owner whose only supertype is a definition that declares just `x`. */
  predicate RightBelow(m: Model, owner: Id, above: Id, x: Id) {
    && Get(m, owner).kind == Definition && Supers(m, owner) == [above]
    && Get(m, above).kind == Definition && Get(m, above).name != ""
    && Get(m, above).members == [x] && Get(m, x).name == "x"
  }

  lemma FoundAbove(m: Model, owner: Id, above: Id, x: Id)
    requires RightBelow(m, owner, above, x)
    ensures InSupertypes(m, owner, "x") == Some(x)
    ensures QualifiedAbove(m, Supers(m, owner), Get(m, above).name, "x", x, MAX_DEPTH - 1)
  {
    hide VisitAll, Visit, FirstHit, QualifiedAbove;
    assert DirectMember(m, above, "x") == Some(x);
    VisitUnfolds(m, above, "x", MAX_DEPTH);
    OneHit(m, above, "x");
    assert Qualifies(m, above, Get(m, above).name, "x", x);
    QualifiedHere(m, above, [above], Get(m, above).name, "x", x, MAX_DEPTH - 1);
  }

  lemma OneHit(m: Model, id: Id, name: string)
    ensures FirstHit(m, VisitAll(m, [id], MAX_DEPTH), name) == FirstHit(m, Visit(m, id, MAX_DEPTH), name)
  {
    hide Visit, FirstHit;
    assert [id][1..] == [] && VisitAll(m, [], MAX_DEPTH) == [];
    assert Visit(m, id, MAX_DEPTH) + [] == Visit(m, id, MAX_DEPTH);
  }

  lemma LayersShape(typed: bool, low: nat, high: nat)
    requires low > 0 && high > 0
    ensures var m := Layers(typed, low, high);
      && Nested(m) && RightBelow(m, 2, 1, 4) && RightBelow(m, 3, 2, 5)
  {
    hide Via, Middle;
    var m := Layers(typed, low, high);
    assert m[2].specializes[1..] == [] && Bound(m[2].specializes) == [1] + Bound([]);
    assert m[3].specializes[1..] == [] && Bound(m[3].specializes) == [2] + Bound([]);
  }

  lemma EntriesAppend(m: Model, n: Id, ids: seq<Id>, x: Id, enclosing: Option<Id>)
    requires Nested(m) && x in Get(m, n).members && forall y | y in ids :: y in Get(m, n).members
    ensures EntriesAll(m, n, ids + [x], enclosing) == EntriesAll(m, n, ids, enclosing) + Entries(m, x, enclosing)
  {
    hide Nested, Entries;
    NestedMember(m, n, x);
    assert (ids + [x])[..|ids + [x]| - 1] == ids;
  }

  /** A definition whose only member is an attribute with at most one redefinition. */
  lemma EntriesOfOwner(m: Model, n: Id, x: Id)
    requires Nested(m) && Get(m, n).kind == Definition && Get(m, n).members == [x]
    requires Get(m, x).kind == Attribute && |Get(m, x).redefines| <= 1
    ensures Entries(m, n, None) == if |Get(m, x).redefines| == 1 then [Entry(x, 0, n)] else []
  {
    hide Nested;
    EntriesAppend(m, n, [], x, Some(n));
    assert [] + [x] == [x];
    assert EntriesAll(m, n, [], Some(n)) == [];
    assert EntriesOf(x, n, 0) == [];
  }

  lemma LayersEntries(typed: bool, low: nat, high: nat)
    requires low > 0 && high > 0
    ensures Nested(Layers(typed, low, high))
    ensures Entries(Layers(typed, low, high), 0, None) == [Entry(5, 0, 2), Entry(6, 0, 3)]
  {
    hide Entries, EntriesAll, EntriesOf, Nested, Via, Middle, RightBelow;
    var m := Layers(typed, low, high);
    LayersShape(typed, low, high);
    assert Entries(m, 1, None) == [] by { EntriesOfOwner(m, 1, 4); }
    assert Entries(m, 2, None) == [Entry(5, 0, 2)] by { EntriesOfOwner(m, 2, 5); }
    assert Entries(m, 3, None) == [Entry(6, 0, 3)] by { EntriesOfOwner(m, 3, 6); }
    EntriesOfProgram(m, 0, 1, 2, 3);
  }

  lemma EntriesOfProgram(m: Model, n: Id, a: Id, b: Id, c: Id)
    requires Nested(m) && Get(m, n).kind == Program && Get(m, n).members == [a, b, c]
    ensures Entries(m, n, None) == Entries(m, a, None) + Entries(m, b, None) + Entries(m, c, None)
  {
    hide Nested, Entries, EntriesAll;
    EntriesOfRoot(m, n);
    assert EntriesAll(m, n, [a], None) == Entries(m, a, None) by {
      EntriesAppend(m, n, [], a, None);
      assert [] + [a] == [a];
    }
    assert EntriesAll(m, n, [a, b], None) == Entries(m, a, None) + Entries(m, b, None) by {
      EntriesAppend(m, n, [a], b, None);
      assert [a] + [b] == [a, b];
    }
    EntriesAppend(m, n, [a, b], c, None);
    assert [a, b] + [c] == [a, b, c];
  }

  lemma EntriesOfRoot(m: Model, n: Id)
    requires Nested(m) && Get(m, n).kind == Program
    ensures Entries(m, n, None) == EntriesAll(m, n, Get(m, n).members, None)
    ensures EntriesAll(m, n, [], None) == []
  {
    hide Nested;
  }

  lemma LayersVerdicts(typed: bool, low: nat, high: nat)
    requires low > 0 && high > 0 && (typed ==> low > 2 || high > 2)
    ensures var m := Layers(typed, low, high);
      JudgeEntry(m, Entry(5, 0, 2)) == Verdict(Some(4), 0) && JudgeEntry(m, Entry(6, 0, 3)) == Verdict(Some(5), 0)
  {
    hide InSupertypes, QualifiedAbove, Nested, RightBelow, Supers, ReachesWithin, Via;
    var m := Layers(typed, low, high);
    LayersShape(typed, low, high);
    FoundAbove(m, 2, 1, 4);
    FoundAbove(m, 3, 2, 5);
    ReachSelf(Subtyping.SuperLinks(m), 8, Subtyping.MAX_DEPTH);
    ReachSelf(Subtyping.SuperLinks(m), 9, Subtyping.MAX_DEPTH);
  }

  lemma TwoStamps(m: Model, d: Entry, e: Entry, f: Id, g: Id)
    requires JudgeEntry(m, d) == Verdict(Some(f), 0) && JudgeEntry(m, e) == Verdict(Some(g), 0)
    ensures Errors(m, [d, e]) == 0
    ensures StampAll(m, [d, e], map[]) == map[(d.attribute, d.index) := f][(e.attribute, e.index) := g]
  {
    hide JudgeEntry;
    var es := [d, e];
    assert es[..1] == [d] && [d][..0] == [];
    assert Errors(m, []) == 0 && StampAll(m, [], map[]) == map[];
    assert Errors(m, [d]) == 0 && StampAll(m, [d], map[]) == map[(d.attribute, d.index) := f];
  }

  /** The redefinitions of such a program form a chain, and it is resolved without errors and
      accepted though the ends have unrelated types. */
  lemma LayersBreak(typed: bool, low: nat, high: nat)
    requires low > 0 && high > 0 && (typed ==> low > 2 || high > 2)
    ensures Breaks(Layers(typed, low, high), 0, [6, 5, 4], [0, 0], typed, low, high)
  {
    hide Entries, EntriesAll, Judge, JudgeEntry, Nested, Errors, StampAll, Via, Reaches, Resolved;
    var m := Layers(typed, low, high);
    LayersResolved(typed, low, high);
    LayersEntries(typed, low, high);
    LayersVerdicts(typed, low, high);
    TwoStamps(m, Entry(5, 0, 2), Entry(6, 0, 3), 4, 5);
    assert Redefines(m, 0, 6, 0, 5) && Redefines(m, 0, 5, 0, 4);
    var chain: seq<Id>, entries: seq<nat> := [6, 5, 4], [0, 0];
    forall k | 0 <= k < 2 ensures Redefines(m, 0, chain[k], entries[k], chain[k + 1]) {
      if k == 0 { assert chain[k] == 6; } else { assert chain[k] == 5; }
    }
    StringIsNotReal(m);
  }

  lemma StringIsNotReal(m: Model)
    requires Get(m, 9).specializes == []
    ensures !Reaches(Subtyping.SuperLinks(m), 9, 8)
  {
    hide Joins;
    var up := Subtyping.SuperLinks(m);
    if Reaches(up, 9, 8) {
      var p :| Joins(up, p, 9, 8);
      assert ReachesWithin(up, 9, 8, |p|);
      var c := ReachStep(up, 9, 8, |p|);
    }
  }

  /** The types of a chain of two redefinitions are sure to narrow exactly when the attribute in
      the middle declares one and neither redefinition is a longer path. */
  lemma ChainsNarrowExactly(typed: bool, low: nat, high: nat)
    requires low > 0 && high > 0
    ensures (exists m, program, chain, entries :: Breaks(m, program, chain, entries, typed, low, high))
      <==> !typed || low > 2 || high > 2
  {
    hide Breaks;
    if !typed || low > 2 || high > 2 {
      LayersBreak(typed, low, high);
    } else {
      forall m, program, chain, entries ensures !Breaks(m, program, chain, entries, typed, low, high) {
        TypedChainHolds(m, program, chain, entries, low, high);
      }
    }
  }
}
