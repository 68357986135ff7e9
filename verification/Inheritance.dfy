/** What the member lookup finds, in terms of the elements and their references alone. */
module Inheritance {
  import opened Basics
  import opened Elements
  import opened Walks
  import opened Lookup

  // ---- members of a container ----------------------------------------------------------------------

  /** `x` is the first member of that name of a program, package, definition or usage. */
  predicate Bears(m: Model, c: Id, name: string, x: Id) {
    && Get(m, c).kind in {Program, Package, Definition, Usage} && name != ""
    && exists i | 0 <= i < |Get(m, c).members| :: IsFirstNamed(m, Get(m, c).members, i, name) && Get(m, c).members[i] == x
  }

  predicate IsFirstNamed(m: Model, ids: seq<Id>, i: nat, name: string)
    requires i < |ids|
  {
    Get(m, ids[i]).name == name && forall j | 0 <= j < i :: Get(m, ids[j]).name != name
  }

  lemma {:induction false} FirstIs(m: Model, ids: seq<Id>, name: string, x: Id)
    ensures FirstNamed(m, ids, name) == Some(x) <==>
      name != "" && exists i | 0 <= i < |ids| :: IsFirstNamed(m, ids, i, name) && ids[i] == x
  {
    if ids != [] {
      FirstIs(m, ids[1..], name, x);
      if i :| 0 <= i < |ids[1..]| && IsFirstNamed(m, ids[1..], i, name) && ids[1..][i] == x {
        if Get(m, ids[0]).name != name {
          assert forall j | 0 < j < i + 1 :: ids[j] == ids[1..][j - 1];
          assert IsFirstNamed(m, ids, i + 1, name);
        }
      }
      if i :| 0 <= i < |ids| && IsFirstNamed(m, ids, i, name) && ids[i] == x {
        if i > 0 {
          assert forall j | 0 <= j < i - 1 :: ids[1..][j] == ids[j + 1];
          assert IsFirstNamed(m, ids[1..], i - 1, name);
        } else {
          assert IsFirstNamed(m, ids, 0, name);
        }
      }
    }
  }

  lemma DirectIs(m: Model, c: Id, name: string, x: Id)
    ensures DirectMember(m, c, name) == Some(x) <==> Bears(m, c, name, x)
  {
    hide IsFirstNamed, FirstNamed;
    FirstIs(m, Get(m, c).members, name, x);
  }

  // ---- aliases ---------------------------------------------------------------------------------------

  /** Each element of `q` but the last is an alias of the next one. */
  predicate Aliases(m: Model, q: seq<Id>) {
    forall k | 0 <= k < |q| - 1 :: Get(m, q[k]).kind == Alias && IsBoundTo(m, q[k], q[k + 1])
  }

  predicate IsBoundTo(m: Model, a: Id, b: Id) { Get(m, a).target != [] && Get(m, a).target[0].target == Some(b) }

  /** Following the aliases of `q`, at most `n` of them, leads from `a` to `b`. */
  predicate IsAliasPath(m: Model, q: seq<Id>, a: Id, b: Id, n: nat) {
    && 0 < |q| <= n + 1 && q[0] == a && q[|q| - 1] == b && Aliases(m, q)
    && (Get(m, b).kind == Alias ==> |q| == n + 1)
  }

  ghost predicate StandsFor(m: Model, a: Id, b: Id, n: nat) { exists q :: IsAliasPath(m, q, a, b, n) }

  lemma {:induction false} DerefIs(m: Model, a: Id, b: Id, n: nat)
    ensures Deref(m, a, n) == Some(b) <==> StandsFor(m, a, b, n)
    decreases n
  {
    hide IsBoundTo;
    if Get(m, a).kind != Alias || n == 0 {
      if a == b { assert IsAliasPath(m, [a], a, b, n); }
      if q :| IsAliasPath(m, q, a, b, n) {
        assert |q| == 1;
      }
    } else {
      if Deref(m, a, n) == Some(b) {
        var c := TargetOf(Get(m, a)).value;
        BoundTarget(m, a, c);
        DerefIs(m, c, b, n - 1);
        var q :| IsAliasPath(m, q, c, b, n - 1);
        var r := [a] + q;
        forall k | 0 <= k < |r| - 1 ensures Get(m, r[k]).kind == Alias && IsBoundTo(m, r[k], r[k + 1]) {
          if k > 0 { assert r[k] == q[k - 1] && r[k + 1] == q[k]; }
        }
        assert IsAliasPath(m, r, a, b, n);
      }
      if q :| IsAliasPath(m, q, a, b, n) {
        var c, r := q[1], q[1..];
        BoundTarget(m, a, c);
        forall k | 0 <= k < |r| - 1 ensures Get(m, r[k]).kind == Alias && IsBoundTo(m, r[k], r[k + 1]) {
          assert r[k] == q[k + 1] && r[k + 1] == q[k + 2];
        }
        assert IsAliasPath(m, r, c, b, n - 1);
        DerefIs(m, c, b, n - 1);
      }
    }
  }

  lemma BoundTarget(m: Model, a: Id, c: Id)
    ensures IsBoundTo(m, a, c) <==> TargetOf(Get(m, a)) == Some(c)
  {
  }

  // ---- inheritance -------------------------------------------------------------------------------------

  predicate Binds(refs: seq<Ref>, b: Id) { exists i | 0 <= i < |refs| :: refs[i].target == Some(b) }

  /** A definition inherits through its specializations, a usage through its types and its
      specializations, an attribute through its types. */
  predicate Refers(m: Model, a: Id, b: Id) {
    var e := Get(m, a);
    || (e.kind in {Definition, Usage} && Binds(e.specializes, b))
    || (e.kind in {Usage, Attribute} && Binds(e.types, b))
  }

  ghost predicate Inherits(m: Model, a: Id, b: Id) {
    exists c :: Refers(m, a, c) && StandsFor(m, c, b, 32)
  }

  lemma ParentsAre(m: Model, a: Id, b: Id)
    ensures b in Parents(m, a) <==> Refers(m, a, b)
  {
    BoundMembers(Get(m, a).specializes, b);
    BoundMembers(Get(m, a).types, b);
  }

  lemma InheritsIs(m: Model, a: Id, b: Id)
    ensures b in Ancestors(m, a) <==> Inherits(m, a, b)
  {
    hide Parents, Deref, StandsFor, Refers, DerefAll;
    var ids := Parents(m, a);
    DerefAllMembers(m, ids, b);
    if i :| 0 <= i < |ids| && Deref(m, ids[i], MAX_DEPTH) == Some(b) {
      ParentsAre(m, a, ids[i]);
      DerefIs(m, ids[i], b, MAX_DEPTH);
    }
    if c :| Refers(m, a, c) && StandsFor(m, c, b, 32) {
      ParentsAre(m, a, c);
      DerefIs(m, c, b, MAX_DEPTH);
      var i :| 0 <= i < |ids| && ids[i] == c;
    }
  }

  /** Through the elements of `p`, each inheriting from the next, `c` is at most `n` links above what
      `id` stands for. */
  ghost predicate IsClimb(m: Model, p: seq<Id>, id: Id, c: Id, n: nat) {
    && 0 < |p| <= n + 1 && StandsFor(m, id, p[0], 32) && p[|p| - 1] == c
    && forall k | 0 <= k < |p| - 1 :: Inherits(m, p[k], p[k + 1])
  }

  lemma ClimbIs(m: Model, id: Id, c: Id, n: nat)
    ensures (exists p :: IsClimb(m, p, id, c, n)) <==>
      Deref(m, id, MAX_DEPTH).Some? && ReachesWithin(Links(m), Deref(m, id, MAX_DEPTH).value, c, n)
  {
    hide Deref, StandsFor, Inherits, Ancestors;
    if p :| IsClimb(m, p, id, c, n) {
      DerefIs(m, id, p[0], MAX_DEPTH);
      forall k | 0 <= k < |p| - 1 ensures p[k + 1] in Links(m)(p[k]) {
        InheritsIs(m, p[k], p[k + 1]);
      }
      assert Joins(Links(m), p, p[0], c);
    }
    if Deref(m, id, MAX_DEPTH).Some? {
      var d := Deref(m, id, MAX_DEPTH).value;
      if ReachesWithin(Links(m), d, c, n) {
        var p :| Joins(Links(m), p, d, c) && |p| <= n + 1;
        DerefIs(m, id, d, MAX_DEPTH);
        forall k | 0 <= k < |p| - 1 ensures Inherits(m, p[k], p[k + 1]) {
          assert p[k + 1] in Links(m)(p[k]);
          InheritsIs(m, p[k], p[k + 1]);
        }
        assert IsClimb(m, p, id, c, n);
      }
    }
  }

  // ---- what is found -----------------------------------------------------------------------------------

  /** Something is found exactly when a container at most 31 links above bears the name. */
  lemma FoundExactly(m: Model, id: Id, name: string)
    ensures Member(m, id, name).Some? <==> exists p, c, x :: IsClimb(m, p, id, c, 31) && Bears(m, c, name, x)
  {
    hide Bears, IsClimb, ReachesWithin, Deref, DirectMember, Member;
    MemberIffReachable(m, id, name);
    if Member(m, id, name).Some? {
      var c :| DirectMember(m, c, name).Some? && Deref(m, id, MAX_DEPTH).Some? &&
        ReachesWithin(Links(m), Deref(m, id, MAX_DEPTH).value, c, MAX_DEPTH - 1);
      ClimbIs(m, id, c, 31);
      DirectIs(m, c, name, DirectMember(m, c, name).value);
    }
    if p, c, x :| IsClimb(m, p, id, c, 31) && Bears(m, c, name, x) {
      ClimbIs(m, id, c, 31);
      DirectIs(m, c, name, x);
    }
  }

  lemma {:induction false} HitIsBorne(m: Model, cs: seq<Id>, name: string, x: Id) returns (c: Id)
    requires FirstHit(m, cs, name) == Some(x)
    ensures c in cs && Bears(m, c, name, x)
  {
    hide Bears, DirectMember;
    if DirectMember(m, cs[0], name).Some? {
      c := cs[0];
      DirectIs(m, c, name, x);
    } else {
      c := HitIsBorne(m, cs[1..], name, x);
    }
  }

  /** What is found is a member of that name of a container at most 31 links above. */
  lemma FoundIsMember(m: Model, id: Id, name: string, x: Id)
    requires Member(m, id, name) == Some(x)
    ensures exists p, c :: IsClimb(m, p, id, c, 31) && Bears(m, c, name, x)
    ensures Get(m, x).name == name != ""
  {
    hide IsClimb, ReachesWithin, Deref, DirectMember;
    var c := HitIsBorne(m, Visit(m, id, MAX_DEPTH), name, x);
    VisitsWithin(m, id, c, MAX_DEPTH);
    ClimbIs(m, id, c, 31);
  }

  /** The own members of a container come before everything it inherits. */
  lemma OwnMemberFound(m: Model, id: Id, name: string, i: nat)
    requires Get(m, id).kind in {Program, Package, Definition, Usage} && name != ""
    requires i < |Get(m, id).members| && Get(m, Get(m, id).members[i]).name == name
    requires forall j | 0 <= j < i :: Get(m, Get(m, id).members[j]).name != name
    ensures Member(m, id, name) == Some(Get(m, id).members[i])
  {
    hide DirectMember, Parents, Visit, VisitAll;
    assert IsFirstNamed(m, Get(m, id).members, i, name);
    DirectIs(m, id, name, Get(m, id).members[i]);
    VisitUnfolds(m, id, name, MAX_DEPTH);
  }
}
