/** Which programs the redefinition checker accepts, in terms of what their elements declare. */
module Acceptance {
  import opened Basics
  import opened Elements
  import opened Walks
  import Subtyping
  import opened Lookup
  import opened Inheritance
  import opened Redefinition
  import opened RedefinitionTheory

  // ---- what an owner inherits from -------------------------------------------------------------------

  /** The references through which a definition or usage inherits, in the order they are searched. */
  function Through(m: Model, o: Id): seq<Ref> {
    var e := Get(m, o);
    if e.kind == Definition then e.specializes else if e.kind == Usage then e.types + e.specializes else []
  }

  /** The first reference under which `name` is found leads to `f`. */
  predicate FoundThrough(m: Model, refs: seq<Ref>, name: string, f: Id) {
    exists i | 0 <= i < |refs| :: FoundAt(m, refs, i, name, f)
  }

  predicate FoundAt(m: Model, refs: seq<Ref>, i: nat, name: string, f: Id)
    requires i < |refs|
  {
    && refs[i].target.Some? && Member(m, refs[i].target.value, name) == Some(f)
    && forall j | 0 <= j < i && refs[j].target.Some? :: Member(m, refs[j].target.value, name).None?
  }

  lemma {:induction false} HitIs(m: Model, refs: seq<Ref>, name: string, f: Id)
    ensures HitAbove(m, refs, name, MAX_DEPTH) == Some(f) <==> FoundThrough(m, refs, name, f)
  {
    hide Visit, VisitAll, HitAbove;
    if refs == [] {
      NoHitAboveNothing(m, name);
    } else {
      HitAboveUnfolds(m, refs, name, MAX_DEPTH);
      HitIs(m, refs[1..], name, f);
      var here := refs[0].target.Some? && Member(m, refs[0].target.value, name).Some?;
      if here {
        if i :| 0 <= i < |refs| && FoundAt(m, refs, i, name, f) { assert i == 0; }
        if Member(m, refs[0].target.value, name) == Some(f) { assert FoundAt(m, refs, 0, name, f); }
      } else {
        if i :| 0 <= i < |refs| && FoundAt(m, refs, i, name, f) {
          assert forall j | 0 <= j < i - 1 :: refs[1..][j] == refs[j + 1];
          assert FoundAt(m, refs[1..], i - 1, name, f);
        }
        if i :| 0 <= i < |refs[1..]| && FoundAt(m, refs[1..], i, name, f) {
          assert forall j | 0 < j < i + 1 :: refs[j] == refs[1..][j - 1];
          assert FoundAt(m, refs, i + 1, name, f);
        }
      }
    }
  }

  lemma {:induction false} BoundConcat(a: seq<Ref>, b: seq<Ref>)
    ensures Bound(a + b) == Bound(a) + Bound(b)
  {
    if a == [] {
      assert a + b == b;
    } else {
      assert (a + b)[1..] == a[1..] + b;
      BoundConcat(a[1..], b);
    }
  }

  lemma SupersAre(m: Model, o: Id)
    ensures Supers(m, o) == Bound(Through(m, o))
  {
    BoundConcat(Get(m, o).types, Get(m, o).specializes);
  }

  lemma InSupertypesIs(m: Model, o: Id, name: string, f: Id)
    ensures InSupertypes(m, o, name) == Some(f) <==> FoundThrough(m, Through(m, o), name, f)
  {
    hide Through, FoundThrough, Supers;
    SupersAre(m, o);
    HitIs(m, Through(m, o), name, f);
  }

  /** An ancestor called `qualifier`, at most 32 references above `o`, from which `name` leads to `f`. */
  ghost predicate LeadsThrough(m: Model, o: Id, qualifier: string, name: string, f: Id) {
    exists p :: IsAncestry(m, o, p) && Names(m, p[|p| - 1], qualifier, name, f)
  }

  predicate IsAncestry(m: Model, o: Id, p: seq<Id>): (r: bool)
    ensures r ==> 0 < |p| <= 32
  {
    && 0 < |p| <= 32 && Binds(Through(m, o), p[0])
    && forall k | 0 <= k < |p| - 1 :: Binds(Through(m, p[k]), p[k + 1])
  }

  predicate Names(m: Model, x: Id, qualifier: string, name: string, f: Id) {
    && Get(m, x).kind in {Package, Definition, Usage, Attribute}
    && Get(m, x).name == qualifier != "" && Member(m, x, name) == Some(f)
  }

  lemma BindsIs(m: Model, o: Id, b: Id)
    ensures Binds(Through(m, o), b) <==> b in Supers(m, o)
  {
    hide Through, Supers;
    SupersAre(m, o);
    BoundMembers(Through(m, o), b);
  }

  lemma AncestryIs(m: Model, o: Id, p: seq<Id>)
    requires 0 < |p| <= 32
    ensures IsAncestry(m, o, p) <==> p[0] in Supers(m, o) && Linked(SuperOf(m), p)
  {
    hide Supers, Binds, Through;
    BindsIs(m, o, p[0]);
    forall k | 0 <= k < |p| - 1 ensures Binds(Through(m, p[k]), p[k + 1]) <==> p[k + 1] in SuperOf(m)(p[k]) {
      BindsIs(m, p[k], p[k + 1]);
    }
  }

  lemma QualifierIs(m: Model, o: Id, qualifier: string, name: string, f: Id)
    ensures QualifiedAbove(m, Supers(m, o), qualifier, name, f, MAX_DEPTH - 1) <==> LeadsThrough(m, o, qualifier, name, f)
  {
    hide Supers, IsAncestry, Linked, Qualifies, Names, SuperOf;
    if QualifiedAbove(m, Supers(m, o), qualifier, name, f, MAX_DEPTH - 1) {
      var a, x :| a in Supers(m, o) && ReachesWithin(SuperOf(m), a, x, MAX_DEPTH - 1) && Qualifies(m, x, qualifier, name, f);
      var p :| Joins(SuperOf(m), p, a, x) && |p| <= MAX_DEPTH;
      LinkedNonempty(SuperOf(m), p);
      AncestryIs(m, o, p);
      NamesIs(m, x, qualifier, name, f);
    }
    if p :| IsAncestry(m, o, p) && Names(m, p[|p| - 1], qualifier, name, f) {
      AncestryIs(m, o, p);
      assert Joins(SuperOf(m), p, p[0], p[|p| - 1]);
      NamesIs(m, p[|p| - 1], qualifier, name, f);
    }
  }

  lemma LinkedNonempty(up: Id -> seq<Id>, p: seq<Id>)
    requires Linked(up, p)
    ensures |p| > 0
  {
  }

  lemma NamesIs(m: Model, x: Id, qualifier: string, name: string, f: Id)
    ensures Qualifies(m, x, qualifier, name, f) <==> Names(m, x, qualifier, name, f)
  {
    hide Member;
  }

  // ---- subtypes ---------------------------------------------------------------------------------------

  /** At most 32 specializations of definitions lead from `s` to `t`. */
  ghost predicate Narrower(m: Model, s: Id, t: Id) { exists p :: IsDescent(m, p, s, t) }

  predicate IsDescent(m: Model, p: seq<Id>, s: Id, t: Id) {
    && 0 < |p| <= 33 && p[0] == s && p[|p| - 1] == t
    && forall k | 0 <= k < |p| - 1 :: Get(m, p[k]).kind == Definition && Binds(Get(m, p[k]).specializes, p[k + 1])
  }

  lemma SpecializesIs(m: Model, s: Id, t: Id)
    ensures Subtyping.Specializes(m, s, t) <==> Narrower(m, s, t)
  {
    hide Binds;
    if Subtyping.Specializes(m, s, t) {
      var p :| Joins(Subtyping.SuperLinks(m), p, s, t) && |p| <= 33;
      forall k | 0 <= k < |p| - 1 ensures Get(m, p[k]).kind == Definition && Binds(Get(m, p[k]).specializes, p[k + 1]) {
        assert p[k + 1] in Subtyping.SuperLinks(m)(p[k]);
        SupertypeIs(m, p[k], p[k + 1]);
      }
      assert IsDescent(m, p, s, t);
    }
    if p :| IsDescent(m, p, s, t) {
      forall k | 0 <= k < |p| - 1 ensures p[k + 1] in Subtyping.SuperLinks(m)(p[k]) {
        SupertypeIs(m, p[k], p[k + 1]);
      }
      assert Joins(Subtyping.SuperLinks(m), p, s, t);
    }
  }

  lemma SupertypeIs(m: Model, a: Id, b: Id)
    ensures b in Subtyping.Supertypes(m, a) <==> Get(m, a).kind == Definition && Binds(Get(m, a).specializes, b)
  {
    BoundMembers(Get(m, a).specializes, b);
  }

  // ---- one redefinition ---------------------------------------------------------------------------------

  /** Where both declare a type, the one of `a` is narrower. */
  ghost predicate TypesNarrow(m: Model, a: Id, f: Id) {
    var s, t := Get(m, a).types, Get(m, f).types;
    s != [] && t != [] && s[0].target.Some? && t[0].target.Some? ==> Narrower(m, s[0].target.value, t[0].target.value)
  }

  /** The attribute `a` of `o` redefines the attribute `f` under the path `parts`. */
  ghost predicate RedefinesWell(m: Model, a: Id, o: Id, parts: seq<string>, f: Id)
    requires parts != []
  {
    && FoundThrough(m, Through(m, o), parts[|parts| - 1], f)
    && (|parts| == 2 ==> LeadsThrough(m, o, parts[0], parts[1], f))
    && Get(m, f).kind == Attribute
    && (|parts| <= 2 ==> TypesNarrow(m, a, f))
    && (Get(m, f).isConstant ==> Get(m, a).isConstant)
  }

  lemma JudgeIs(m: Model, a: Id, o: Id, parts: seq<string>, f: Id)
    requires Get(m, a).kind == Attribute && parts != []
    ensures Judge(m, a, o, parts) == Verdict(Some(f), 0) <==> RedefinesWell(m, a, o, parts, f)
  {
    hide InSupertypes, QualifiedAbove, FoundThrough, LeadsThrough, Subtyping.Specializes, Narrower;
    InSupertypesIs(m, o, parts[|parts| - 1], f);
    QualifierIs(m, o, parts[0], parts[|parts| - 1], f);
    if DeclaredType(m, a).Some? && DeclaredType(m, f).Some? {
      SpecializesIs(m, DeclaredType(m, a).value, DeclaredType(m, f).value);
    }
  }

  lemma JudgeStamps(m: Model, a: Id, o: Id, parts: seq<string>)
    requires Judge(m, a, o, parts).errors == 0 && parts != []
    ensures Judge(m, a, o, parts).stamp.Some?
  {
    hide InSupertypes, QualifiedAbove;
  }

  // ---- the entries of a program ----------------------------------------------------------------------------

  /** Every element of `p` is a member of the one before it, and all of them are containers. */
  predicate IsContainment(m: Model, p: seq<Id>, n: Id, o: Id) {
    && 0 < |p| && p[0] == n && p[|p| - 1] == o
    && (forall k | 0 <= k < |p| :: Get(m, p[k]).kind in {Program, Package, Definition, Usage})
    && (forall k | 0 <= k < |p| - 1 :: p[k + 1] in Get(m, p[k]).members)
  }

  ghost predicate Within(m: Model, n: Id, o: Id) { exists p :: IsContainment(m, p, n, o) }

  lemma WithinSelf(m: Model, n: Id)
    requires Get(m, n).kind in {Program, Package, Definition, Usage}
    ensures Within(m, n, n)
  {
    assert IsContainment(m, [n], n, n);
  }

  lemma WithinMember(m: Model, n: Id, x: Id, o: Id)
    requires Get(m, n).kind in {Program, Package, Definition, Usage} && x in Get(m, n).members && Within(m, x, o)
    ensures Within(m, n, o)
  {
    var p :| IsContainment(m, p, x, o);
    var q := [n] + p;
    forall k | 0 <= k < |q| - 1 ensures q[k + 1] in Get(m, q[k]).members {
      if k > 0 { assert q[k] == p[k - 1] && q[k + 1] == p[k]; }
    }
    forall k | 0 <= k < |q| ensures Get(m, q[k]).kind in {Program, Package, Definition, Usage} {
      if k > 0 { assert q[k] == p[k - 1]; }
    }
    assert IsContainment(m, q, n, o);
  }

  lemma WithinSplit(m: Model, n: Id, o: Id) returns (x: Id)
    requires Within(m, n, o) && n != o
    ensures Get(m, n).kind in {Program, Package, Definition, Usage} && x in Get(m, n).members && Within(m, x, o)
  {
    var p :| IsContainment(m, p, n, o);
    x := p[1];
    var q := p[1..];
    forall k | 0 <= k < |q| - 1 ensures q[k + 1] in Get(m, q[k]).members {
      assert q[k] == p[k + 1] && q[k + 1] == p[k + 2];
    }
    assert p[0 + 1] in Get(m, p[0]).members;
    assert IsContainment(m, q, x, o);
  }

  /** The attribute `a` of the definition or usage `o` has a redefinition numbered `i`. */
  predicate Redefining(m: Model, o: Id, a: Id, i: nat) {
    && (Get(m, o).kind == Definition || Get(m, o).kind == Usage)
    && a in Get(m, o).members && Get(m, a).kind == Attribute && i < |Get(m, a).redefines|
  }

  /** What the walk checks: the redefinitions of the attributes of every definition and usage in the tree, and
      those of `n` itself for its container. */
  ghost predicate Checked(m: Model, n: Id, enclosing: Option<Id>, e: Entry) {
    || (Get(m, n).kind == Attribute && enclosing.Some? && e.attribute == n && e.owner == enclosing.value
        && e.index < |Get(m, n).redefines|)
    || (Within(m, n, e.owner) && Redefining(m, e.owner, e.attribute, e.index))
  }

  lemma {:induction false} EntriesOfAre(a: Id, o: Id, n: nat, e: Entry)
    ensures e in EntriesOf(a, o, n) <==> e.attribute == a && e.owner == o && e.index < n
  {
    if n > 0 { EntriesOfAre(a, o, n - 1, e); }
  }

  lemma {:induction false} EntriesAllAre(m: Model, n: Id, ids: seq<Id>, enclosing: Option<Id>, e: Entry)
    requires Nested(m) && forall x | x in ids :: x in Get(m, n).members
    ensures e in EntriesAll(m, n, ids, enclosing) <==> exists x :: x in ids && e in Entries(m, x, enclosing)
    decreases |ids|
  {
    hide Nested, Entries;
    if ids != [] {
      var front, last := ids[..|ids| - 1], ids[|ids| - 1];
      NestedMember(m, n, last);
      EntriesAllAre(m, n, front, enclosing, e);
      assert ids == front + [last];
    }
  }

  lemma {:induction false} EntriesAre(m: Model, n: Id, enclosing: Option<Id>, e: Entry)
    requires Nested(m)
    ensures e in Entries(m, n, enclosing) <==> Checked(m, n, enclosing, e)
    decreases if n < |m| then |m| - n else 0
  {
    hide Nested, Within, EntriesAll;
    if Get(m, n).kind in {Program, Package, Definition, Usage} {
      var inner := if Get(m, n).kind == Definition || Get(m, n).kind == Usage then Some(n) else None;
      EntriesAllAre(m, n, Get(m, n).members, inner, e);
      EntriesUnfold(m, n, enclosing);
      forall x | x in Get(m, n).members ensures e in Entries(m, x, inner) <==> Checked(m, x, inner, e) {
        NestedMember(m, n, x);
        EntriesAre(m, x, inner, e);
      }
      ContainerChecks(m, n, inner, e);
    } else {
      WithinContainers(m, n, e.owner);
      if Get(m, n).kind == Attribute && enclosing.Some? {
        EntriesOfAre(n, enclosing.value, |Get(m, n).redefines|, e);
      }
    }
  }

  lemma EntriesUnfold(m: Model, n: Id, enclosing: Option<Id>)
    requires Nested(m) && Get(m, n).kind in {Program, Package, Definition, Usage}
    ensures Entries(m, n, enclosing) == EntriesAll(m, n, Get(m, n).members,
      if Get(m, n).kind == Definition || Get(m, n).kind == Usage then Some(n) else None)
  {
    hide Nested, EntriesAll;
  }

  lemma WithinContainers(m: Model, n: Id, o: Id)
    ensures Within(m, n, o) ==> Get(m, n).kind in {Program, Package, Definition, Usage}
  {
    if p :| IsContainment(m, p, n, o) {
      assert Get(m, p[0]).kind in {Program, Package, Definition, Usage};
    }
  }

  /** A container checks what its members check. */
  lemma ContainerChecks(m: Model, n: Id, inner: Option<Id>, e: Entry)
    requires Get(m, n).kind in {Program, Package, Definition, Usage}
    requires inner == if Get(m, n).kind == Definition || Get(m, n).kind == Usage then Some(n) else None
    ensures (exists x :: x in Get(m, n).members && Checked(m, x, inner, e)) <==>
      Within(m, n, e.owner) && Redefining(m, e.owner, e.attribute, e.index)
  {
    hide Within;
    if x :| x in Get(m, n).members && Checked(m, x, inner, e) {
      if Within(m, x, e.owner) && Redefining(m, e.owner, e.attribute, e.index) {
        WithinMember(m, n, x, e.owner);
      } else {
        WithinSelf(m, n);
      }
    }
    if Within(m, n, e.owner) && Redefining(m, e.owner, e.attribute, e.index) {
      if e.owner == n {
        assert Checked(m, e.attribute, inner, e);
      } else {
        var x := WithinSplit(m, n, e.owner);
        assert Checked(m, x, inner, e);
      }
    }
  }

  // ---- acceptance -------------------------------------------------------------------------------------------

  lemma {:induction false} NoErrorsMeans(m: Model, es: seq<Entry>)
    ensures Errors(m, es) == 0 <==> forall e | e in es :: JudgeEntry(m, e).errors == 0
  {
    hide JudgeEntry;
    if es != [] {
      var front, last := es[..|es| - 1], es[|es| - 1];
      NoErrorsMeans(m, front);
      assert es == front + [last];
    }
  }

  /** Every redefinition in the tree of `program` that names something redefines an attribute well. */
  ghost predicate AllRedefineWell(m: Model, program: Id) {
    forall o, a, i: nat | Within(m, program, o) && Redefining(m, o, a, i) && Get(m, a).redefines[i].parts != [] ::
      exists f :: RedefinesWell(m, a, o, Get(m, a).redefines[i].parts, f)
  }

  lemma EntryIsGood(m: Model, e: Entry)
    requires Redefining(m, e.owner, e.attribute, e.index)
    ensures var parts := Get(m, e.attribute).redefines[e.index].parts;
      JudgeEntry(m, e).errors == 0 <==> (parts != [] ==> exists f :: RedefinesWell(m, e.attribute, e.owner, parts, f))
  {
    hide Judge, RedefinesWell;
    var parts := Get(m, e.attribute).redefines[e.index].parts;
    if parts == [] {
      NothingToJudge(m, e.attribute, e.owner);
    } else {
      if JudgeEntry(m, e).errors == 0 {
        JudgeStamps(m, e.attribute, e.owner, parts);
        JudgeIs(m, e.attribute, e.owner, parts, JudgeEntry(m, e).stamp.value);
      }
      if f :| RedefinesWell(m, e.attribute, e.owner, parts, f) { JudgeIs(m, e.attribute, e.owner, parts, f); }
    }
  }

  lemma NothingToJudge(m: Model, a: Id, o: Id)
    ensures Judge(m, a, o, []).errors == 0
  {
  }

  /** The checker accepts a program exactly when all its redefinitions are good. */
  lemma AcceptedExactly(m: Model, program: Id)
    requires Nested(m)
    ensures Accepted(m, program) <==> AllRedefineWell(m, program)
  {
    hide Nested, Entries, JudgeEntry, Within, RedefinesWell, Errors;
    var es := Entries(m, program, None);
    NoErrorsMeans(m, es);
    forall e: Entry
      ensures e in es <==> Within(m, program, e.owner) && Redefining(m, e.owner, e.attribute, e.index)
      ensures e in es ==> Redefining(m, e.owner, e.attribute, e.index)
    {
      EntriesAre(m, program, None, e);
    }
    if Accepted(m, program) {
      forall o, a, i: nat | Within(m, program, o) && Redefining(m, o, a, i) && Get(m, a).redefines[i].parts != []
        ensures exists f :: RedefinesWell(m, a, o, Get(m, a).redefines[i].parts, f)
      {
        assert Entry(a, i, o) in es;
        EntryIsGood(m, Entry(a, i, o));
      }
    }
    if AllRedefineWell(m, program) {
      forall e | e in es ensures JudgeEntry(m, e).errors == 0 {
        EntryIsGood(m, e);
      }
    }
  }

  lemma {:induction false} StampedKeeps(m: Model, es: seq<Entry>, e: Entry)
    requires e in es && JudgeEntry(m, e).stamp.Some?
    ensures (e.attribute, e.index) in StampAll(m, es, map[])
  {
    hide JudgeEntry;
    if e != es[|es| - 1] {
      assert e in es[..|es| - 1];
      StampedKeeps(m, es[..|es| - 1], e);
    }
  }

  /** In an accepted program every redefinition that names something is bound. */
  lemma AcceptedIsStamped(m: Model, program: Id, o: Id, a: Id, i: nat)
    requires Nested(m) && Accepted(m, program)
    requires Within(m, program, o) && Redefining(m, o, a, i) && Get(m, a).redefines[i].parts != []
    ensures (a, i) in Stamped(m, program)
  {
    hide Nested, Entries, Within, Judge, StampAll, Errors;
    var e := Entry(a, i, o);
    EntriesAre(m, program, None, e);
    NoErrorAnywhere(m, Entries(m, program, None), e);
    JudgeStamps(m, a, o, Get(m, a).redefines[i].parts);
    StampedKeeps(m, Entries(m, program, None), e);
  }
}
