/** What it means for a whole program that the redefinition checker accepts it. */
module RedefinitionTheory {
  import opened Basics
  import opened Elements
  import opened Walks
  import Subtyping
  import opened Lookup
  import opened Redefinition

  // ---- from the checker's totals to single entries ------------------------------

  lemma {:induction false} NoErrorAnywhere(m: Model, es: seq<Entry>, e: Entry)
    requires Errors(m, es) == 0 && e in es
    ensures JudgeEntry(m, e).errors == 0
  {
    hide JudgeEntry;
    if e != es[|es| - 1] {
      assert e in es[..|es| - 1];
      NoErrorAnywhere(m, es[..|es| - 1], e);
    }
  }

  lemma {:induction false} StampSource(m: Model, es: seq<Entry>, key: (Id, nat)) returns (e: Entry)
    requires key in StampAll(m, es, map[])
    ensures e in es && (e.attribute, e.index) == key
    ensures JudgeEntry(m, e).stamp == Some(StampAll(m, es, map[])[key])
  {
    hide JudgeEntry;
    e := es[|es| - 1];
    if JudgeEntry(m, e).stamp.None? || (e.attribute, e.index) != key {
      e := StampSource(m, es[..|es| - 1], key);
      assert e in es;
    }
  }

  /** The walk checks attributes against the definition or usage that owns them. */
  predicate WellFormed(m: Model, e: Entry) {
    && (Get(m, e.owner).kind == Definition || Get(m, e.owner).kind == Usage)
    && e.attribute in Get(m, e.owner).members
    && Get(m, e.attribute).kind == Attribute
    && e.index < |Get(m, e.attribute).redefines|
  }

  lemma {:induction false} EntriesOfForm(a: Id, owner: Id, n: nat, e: Entry)
    requires e in EntriesOf(a, owner, n)
    ensures e.attribute == a && e.owner == owner && e.index < n
  {
    if e != Entry(a, n - 1, owner) { EntriesOfForm(a, owner, n - 1, e); }
  }

  lemma {:induction false} EntriesForm(m: Model, n: Id, enclosing: Option<Id>, e: Entry)
    requires Nested(m) && e in Entries(m, n, enclosing)
    requires enclosing.Some? ==>
      Get(m, enclosing.value).kind in {Definition, Usage} && n in Get(m, enclosing.value).members
    ensures WellFormed(m, e)
    decreases if n < |m| then |m| - n else 0, 1
  {
    hide Nested;
    match Get(m, n).kind
    case Program => EntriesAllForm(m, n, Get(m, n).members, None, e);
    case Package => EntriesAllForm(m, n, Get(m, n).members, None, e);
    case Definition => EntriesAllForm(m, n, Get(m, n).members, Some(n), e);
    case Usage => EntriesAllForm(m, n, Get(m, n).members, Some(n), e);
    case Attribute => EntriesOfForm(n, enclosing.value, |Get(m, n).redefines|, e);
    case _ =>
  }

  lemma {:induction false} EntriesAllForm(m: Model, n: Id, ids: seq<Id>, enclosing: Option<Id>, e: Entry)
    requires Nested(m) && forall x | x in ids :: x in Get(m, n).members
    requires e in EntriesAll(m, n, ids, enclosing)
    requires enclosing.Some? ==> enclosing.value == n && Get(m, n).kind in {Definition, Usage}
    ensures WellFormed(m, e)
    decreases if n < |m| then |m| - n else 0, 0, |ids|
  {
    hide Nested, WellFormed;
    if ids != [] {
      var last := ids[|ids| - 1];
      NestedMember(m, n, last);
      if e in Entries(m, last, enclosing) {
        EntriesForm(m, last, enclosing, e);
      } else {
        EntriesAllForm(m, n, ids[..|ids| - 1], enclosing, e);
      }
    }
  }

  // ---- redefinition links of an accepted program ------------------------------------

  /** Where the checker bound the entries of `program`. */
  ghost function Stamped(m: Model, program: Id): Stamps
    requires Nested(m)
  {
    StampAll(m, Entries(m, program, None), map[])
  }

  /** `f` is a feature that `a` redefines, by its entry number `i`. */
  ghost predicate Redefines(m: Model, program: Id, a: Id, i: nat, f: Id)
    requires Nested(m)
  {
    (a, i) in Stamped(m, program) && Stamped(m, program)[(a, i)] == f
  }

  /** Every link of an accepted program leads from an attribute of some owner to an
      attribute of a strict ancestor of that owner, keeps `constant`, and narrows the
      declared type when both ends have one and the target is not a longer path. */
  lemma AcceptedLink(m: Model, program: Id, a: Id, i: nat, f: Id) returns (o: Id, e: Id, c: Id)
    requires Nested(m) && Accepted(m, program) && Redefines(m, program, a, i, f)
    ensures a in Get(m, o).members && f in Get(m, c).members
    ensures e in Ancestors(m, o) && ReachesWithin(Links(m), e, c, MAX_DEPTH - 1)
    ensures Get(m, a).kind == Attribute && Get(m, f).kind == Attribute
    ensures Get(m, f).isConstant ==> Get(m, a).isConstant
    ensures i < |Get(m, a).redefines|
    ensures |Get(m, a).redefines[i].parts| <= 2 ==> Narrows(m, a, f)
  {
    hide InSupertypes, QualifiedAbove, Narrows, Nested, Entries, ReachesWithin, Ancestors, StampAll, Errors;
    var es := Entries(m, program, None);
    var entry := StampSource(m, es, (a, i));
    NoErrorAnywhere(m, es, entry);
    EntriesForm(m, program, None, entry);
    o := entry.owner;
    var name := Redefinition.Last(Get(m, a).redefines[i].parts);
    e, c := FoundInAncestor(m, o, name, f);
    FirstNamedIsMember(m, Get(m, c).members, name);
  }

  /** An element has at most one container. */
  ghost predicate UniqueContainer(m: Model) {
    forall c, c', x :: x in Get(m, c).members && x in Get(m, c').members ==> c == c'
  }

  /** In an acyclic model every link climbs: the owner's height strictly falls. */
  lemma LinkClimbs(m: Model, program: Id, rank: Id -> nat, a: Id, i: nat, f: Id, o: Id, c: Id)
    requires Nested(m) && Accepted(m, program) && Redefines(m, program, a, i, f)
    requires UniqueContainer(m) && Descends(Links(m), rank)
    requires a in Get(m, o).members && f in Get(m, c).members
    ensures rank(c) < rank(o)
  {
    hide Accepted, Redefines, Nested, Ancestors;
    var o', e, c' := AcceptedLink(m, program, a, i, f);
    assert o == o' && c == c';
    assert e in Links(m)(o);
    var p :| Joins(Links(m), p, e, c) && |p| <= MAX_DEPTH;
    RankFalls(Links(m), rank, p, e, c);
  }

  /** A chain of attributes, each redefining the next by the entry number given. */
  ghost predicate Chain(m: Model, program: Id, chain: seq<Id>, entries: seq<nat>)
    requires Nested(m)
  {
    && |chain| == |entries| + 1
    && forall k | 0 <= k < |entries| :: Redefines(m, program, chain[k], entries[k], chain[k + 1])
  }

  lemma ChainTail(m: Model, program: Id, chain: seq<Id>, entries: seq<nat>)
    requires Nested(m) && Chain(m, program, chain, entries) && entries != []
    ensures Chain(m, program, chain[1..], entries[1..])
  {
    hide Redefines, Nested;
    forall k | 0 <= k < |entries[1..]|
      ensures Redefines(m, program, chain[1..][k], entries[1..][k], chain[1..][k + 1])
    {
      assert Redefines(m, program, chain[k + 1], entries[k + 1], chain[k + 2]);
    }
  }

  /** In an acyclic model a chain is no longer than the height of its start. */
  lemma {:induction false} ChainsAreFinite(m: Model, program: Id, rank: Id -> nat, chain: seq<Id>, entries: seq<nat>, homes: seq<Id>)
    requires Nested(m) && Accepted(m, program) && Chain(m, program, chain, entries)
    requires UniqueContainer(m) && Descends(Links(m), rank)
    requires |homes| == |chain| && forall k | 0 <= k < |chain| :: chain[k] in Get(m, homes[k]).members
    ensures rank(homes[|homes| - 1]) + |entries| <= rank(homes[0])
    decreases |entries|
  {
    hide Accepted, Redefines, Nested, Descends, UniqueContainer;
    if entries != [] {
      ChainTail(m, program, chain, entries);
      assert Redefines(m, program, chain[0], entries[0], chain[1]);
      LinkClimbs(m, program, rank, chain[0], entries[0], chain[1], homes[0], homes[1]);
      ChainsAreFinite(m, program, rank, chain[1..], entries[1..], homes[1..]);
    }
  }

  /** So no attribute redefines itself, however indirectly. */
  lemma NoRedefinitionCycle(m: Model, program: Id, rank: Id -> nat, chain: seq<Id>, entries: seq<nat>, homes: seq<Id>)
    requires Nested(m) && Accepted(m, program) && Chain(m, program, chain, entries) && entries != []
    requires UniqueContainer(m) && Descends(Links(m), rank)
    requires |homes| == |chain| && forall k | 0 <= k < |chain| :: chain[k] in Get(m, homes[k]).members
    ensures chain[0] != chain[|chain| - 1]
  {
    hide Accepted, Redefines, Nested, Descends;
    ChainsAreFinite(m, program, rank, chain, entries, homes);
    assert chain[0] in Get(m, homes[0]).members && chain[|chain| - 1] in Get(m, homes[|homes| - 1]).members;
  }

  /** A constant root makes every attribute of the chain constant. */
  lemma {:induction false} ChainKeepsConstant(m: Model, program: Id, chain: seq<Id>, entries: seq<nat>, k: nat)
    requires Nested(m) && Accepted(m, program) && Chain(m, program, chain, entries)
    requires k < |chain| && Get(m, chain[|chain| - 1]).isConstant
    ensures Get(m, chain[k]).isConstant
    decreases |chain| - k
  {
    hide Accepted, Redefines, Nested;
    if k < |entries| {
      ChainKeepsConstant(m, program, chain, entries, k + 1);
      assert Redefines(m, program, chain[k], entries[k], chain[k + 1]);
      var o, e, c := AcceptedLink(m, program, chain[k], entries[k], chain[k + 1]);
    }
  }

  /** Every attribute of the chain declares a type, and no link is a longer path. */
  ghost predicate Typed(m: Model, chain: seq<Id>, entries: seq<nat>) {
    && (forall k | 0 <= k < |chain| :: DeclaredType(m, chain[k]).Some?)
    && |chain| == |entries| + 1
    && forall k | 0 <= k < |entries| ::
         entries[k] < |Get(m, chain[k]).redefines| && |Get(m, chain[k]).redefines[entries[k]].parts| <= 2
  }

  /** On a fully typed chain the types narrow from end to end. */
  lemma {:induction false} ChainNarrows(m: Model, program: Id, chain: seq<Id>, entries: seq<nat>)
    requires Nested(m) && Accepted(m, program) && Chain(m, program, chain, entries) && Typed(m, chain, entries)
    ensures Reaches(Subtyping.SuperLinks(m), DeclaredType(m, chain[0]).value, DeclaredType(m, chain[|chain| - 1]).value)
    decreases |entries|
  {
    hide Accepted, Redefines, Nested, DeclaredType, Joins;
    var up := Subtyping.SuperLinks(m);
    var t, u := DeclaredType(m, chain[0]).value, DeclaredType(m, chain[|chain| - 1]).value;
    if entries == [] {
      ReachSelf(up, t, 0);
      var p :| Joins(up, p, t, u) && |p| <= 1;
    } else {
      ChainTail(m, program, chain, entries);
      TypedTail(m, chain, entries);
      ChainNarrows(m, program, chain[1..], entries[1..]);
      assert Redefines(m, program, chain[0], entries[0], chain[1]);
      var o, e, c := AcceptedLink(m, program, chain[0], entries[0], chain[1]);
      var v := DeclaredType(m, chain[1]).value;
      assert Narrows(m, chain[0], chain[1]);
      var p :| Joins(up, p, t, v) && |p| <= Subtyping.MAX_DEPTH + 1;
      var q :| Joins(up, q, v, u);
      assert ReachesWithin(up, v, u, |q|);
      ReachTrans(up, t, v, u, Subtyping.MAX_DEPTH, |q|);
      var r :| Joins(up, r, t, u) && |r| <= Subtyping.MAX_DEPTH + |q| + 1;
    }
  }

  lemma TypedTail(m: Model, chain: seq<Id>, entries: seq<nat>)
    requires Typed(m, chain, entries) && entries != []
    ensures Typed(m, chain[1..], entries[1..])
  {
    hide DeclaredType;
    forall k | 0 <= k < |chain[1..]| ensures DeclaredType(m, chain[1..][k]).Some? {
      assert DeclaredType(m, chain[k + 1]).Some?;
    }
    forall k | 0 <= k < |entries[1..]|
      ensures entries[1..][k] < |Get(m, chain[1..][k]).redefines| &&
              |Get(m, chain[1..][k]).redefines[entries[1..][k]].parts| <= 2
    {
      assert entries[k + 1] < |Get(m, chain[k + 1]).redefines|;
    }
  }

  /** With at most 33 definitions the checker's own relation narrows from end to end. */
  lemma ChainSpecializes(m: Model, program: Id, chain: seq<Id>, entries: seq<nat>, definitions: set<Id>)
    requires Nested(m) && Accepted(m, program) && Chain(m, program, chain, entries) && Typed(m, chain, entries)
    requires forall id :: Get(m, id).kind == Definition ==> id in definitions
    requires |definitions + {DeclaredType(m, chain[|chain| - 1]).value}| <= Subtyping.MAX_DEPTH + 1
    ensures Narrows(m, chain[0], chain[|chain| - 1])
  {
    hide Accepted, Chain, Nested, Reaches;
    ChainNarrows(m, program, chain, entries);
    Subtyping.ExactOnSmallModels(m, DeclaredType(m, chain[0]).value, DeclaredType(m, chain[|chain| - 1]).value, definitions);
  }
}
