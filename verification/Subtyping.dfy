/** The bounded `:>` walk of the type checker. */
module Subtyping {
  import opened Tokens
  import opened Basics
  import opened Elements
  import opened Walks

  const MAX_DEPTH: nat := 32

  /** Supertypes named directly by a definition. */
  function Supertypes(m: Model, id: Id): seq<Id> {
    if Get(m, id).kind == Definition then Bound(Get(m, id).specializes) else []
  }

  function SuperLinks(m: Model): Id -> seq<Id> {
    (id: Id) => Supertypes(m, id)
  }

  /** What `specializesType` decides: at most 32 `:>` links lead from `a` to `b`. */
  ghost predicate Specializes(m: Model, a: Id, b: Id) {
    ReachesWithin(SuperLinks(m), a, b, MAX_DEPTH)
  }

  /** `specializesDepth`: a depth-first search without a visited set. */
  method SpecializesDepth(m: Model, a: Option<Id>, b: Option<Id>, depth: nat) returns (r: bool)
    requires depth <= MAX_DEPTH
    ensures r <==> a.Some? && b.Some? && ReachesWithin(SuperLinks(m), a.value, b.value, MAX_DEPTH - depth)
    decreases MAX_DEPTH - depth
  {
    if a.None? || b.None? {
      return false;
    }
    ghost var up := SuperLinks(m);
    ReachSelf(up, a.value, MAX_DEPTH - depth);
    if a == b {
      return true;
    }
    if depth >= MAX_DEPTH || Get(m, a.value).kind != Definition {
      if ReachesWithin(up, a.value, b.value, MAX_DEPTH - depth) {
        var c := ReachStep(up, a.value, b.value, MAX_DEPTH - depth);
      }
      return false;
    }
    var refs := Get(m, a.value).specializes;
    var i := 0;
    while i < |refs|
      invariant i <= |refs|
      invariant forall j | 0 <= j < i && refs[j].target.Some? ::
        !ReachesWithin(up, refs[j].target.value, b.value, MAX_DEPTH - depth - 1)
    {
      var found := SpecializesDepth(m, refs[i].target, b, depth + 1);
      if found {
        BoundMembers(refs, refs[i].target.value);
        StepThenReach(up, a.value, refs[i].target.value, b.value, MAX_DEPTH - depth - 1);
        return true;
      }
      i := i + 1;
    }
    if ReachesWithin(up, a.value, b.value, MAX_DEPTH - depth) {
      var c := ReachStep(up, a.value, b.value, MAX_DEPTH - depth);
      BoundMembers(refs, c);
    }
    return false;
  }

  method SpecializesType(m: Model, a: Option<Id>, b: Option<Id>) returns (r: bool)
    ensures r <==> a.Some? && b.Some? && Specializes(m, a.value, b.value)
  {
    r := SpecializesDepth(m, a, b, 0);
  }

  /** With at most 33 definitions (counting `b`) the bound does not matter: the walk decides
      the reflexive-transitive closure of the `:>` links, cycles included. */
  lemma ExactOnSmallModels(m: Model, a: Id, b: Id, definitions: set<Id>)
    requires forall id :: Get(m, id).kind == Definition ==> id in definitions
    requires |definitions + {b}| <= MAX_DEPTH + 1
    ensures Specializes(m, a, b) <==> Reaches(SuperLinks(m), a, b)
  {
    if Reaches(SuperLinks(m), a, b) {
      ShortPathsSuffice(SuperLinks(m), a, b, definitions);
      var p :| Joins(SuperLinks(m), p, a, b) && |p| <= |definitions + {b}| - 1 + 1;
      assert |p| <= MAX_DEPTH + 1;
    }
  }

  /** On such models it is therefore transitive. */
  lemma TransitiveOnSmallModels(m: Model, a: Id, b: Id, c: Id, definitions: set<Id>)
    requires forall id :: Get(m, id).kind == Definition ==> id in definitions
    requires |definitions + {c}| <= MAX_DEPTH + 1
    requires Specializes(m, a, b) && Specializes(m, b, c)
    ensures Specializes(m, a, c)
  {
    ReachTrans(SuperLinks(m), a, b, c, MAX_DEPTH, MAX_DEPTH);
    ExactOnSmallModels(m, a, c, definitions);
  }

  // ---- exactly when the bound does not matter -------------------------------------

  ghost predicate Transitive(m: Model) {
    forall a, b, c :: Specializes(m, a, b) && Specializes(m, b, c) ==> Specializes(m, a, c)
  }

  /** The walk decides the reflexive-transitive closure. */
  ghost predicate Exact(m: Model) {
    forall a, b :: Reaches(SuperLinks(m), a, b) ==> Specializes(m, a, b)
  }

  /** No definition is exactly one link further from another than the walk goes. */
  ghost predicate NoneJustBeyond(m: Model) {
    forall a, b :: ReachesWithin(SuperLinks(m), a, b, MAX_DEPTH + 1) ==> ReachesWithin(SuperLinks(m), a, b, MAX_DEPTH)
  }

  lemma {:induction false} TransitiveReaches(m: Model, a: Id, b: Id, n: nat)
    requires Transitive(m) && ReachesWithin(SuperLinks(m), a, b, n)
    ensures Specializes(m, a, b)
    decreases n
  {
    hide ReachesWithin;
    var up := SuperLinks(m);
    if a == b {
      ReachSelf(up, a, MAX_DEPTH);
    } else {
      var c := ReachStep(up, a, b, n);
      TransitiveReaches(m, c, b, n - 1);
      ReachSelf(up, c, MAX_DEPTH - 1);
      StepThenReach(up, a, c, c, MAX_DEPTH - 1);
      assert Specializes(m, a, c) && Specializes(m, c, b);
    }
  }

  lemma {:induction false} GapFreeReaches(m: Model, a: Id, b: Id, n: nat)
    requires NoneJustBeyond(m) && ReachesWithin(SuperLinks(m), a, b, n)
    ensures Specializes(m, a, b)
    decreases n
  {
    hide ReachesWithin;
    var up := SuperLinks(m);
    if a == b {
      ReachSelf(up, a, MAX_DEPTH);
    } else {
      var c := ReachStep(up, a, b, n);
      GapFreeReaches(m, c, b, n - 1);
      StepThenReach(up, a, c, b, MAX_DEPTH);
    }
  }

  lemma ReachLength(up: Id -> seq<Id>, a: Id, b: Id) returns (n: nat)
    requires Reaches(up, a, b)
    ensures ReachesWithin(up, a, b, n)
  {
    var p :| Joins(up, p, a, b);
    n := |p|;
  }

  lemma ReachForgets(up: Id -> seq<Id>, a: Id, b: Id, n: nat)
    requires ReachesWithin(up, a, b, n)
    ensures Reaches(up, a, b)
  {
  }

  /** The subtype test is transitive if and only if it decides the closure of the links, and
      that holds if and only if no shortest path has exactly 33 links. */
  lemma TransitiveExactly(m: Model)
    ensures Transitive(m) <==> Exact(m)
    ensures Exact(m) <==> NoneJustBeyond(m)
  {
    hide ReachesWithin, Reaches;
    var up := SuperLinks(m);
    if Transitive(m) {
      forall a, b | Reaches(up, a, b) ensures Specializes(m, a, b) {
        var n := ReachLength(up, a, b);
        TransitiveReaches(m, a, b, n);
      }
    }
    if Exact(m) {
      forall a, b, c | Specializes(m, a, b) && Specializes(m, b, c) ensures Specializes(m, a, c) {
        ReachTrans(up, a, b, c, MAX_DEPTH, MAX_DEPTH);
        ReachForgets(up, a, c, MAX_DEPTH + MAX_DEPTH);
      }
      forall a, b | ReachesWithin(up, a, b, MAX_DEPTH + 1) ensures ReachesWithin(up, a, b, MAX_DEPTH) {
        ReachForgets(up, a, b, MAX_DEPTH + 1);
        assert Specializes(m, a, b);
      }
    }
    if NoneJustBeyond(m) {
      forall a, b | Reaches(up, a, b) ensures Specializes(m, a, b) {
        var n := ReachLength(up, a, b);
        GapFreeReaches(m, a, b, n);
      }
    }
  }

  // ---- the bound is visible on larger models ------------------------------------

  /** `n` definitions, each one specializing the next. */
  function Ladder(n: nat): (m: Model)
    ensures |m| == n
    ensures forall i | 0 <= i < n :: m[i] == Rung(i)
  {
    if n == 0 then [] else Ladder(n - 1) + [Rung(n - 1)]
  }

  function Rung(i: Id): Element {
    Bare(Definition, KW_PART, "P").(specializes := [Ref(["P"], false, Some(i + 1), false)])
  }

  lemma LadderLinks(n: nat, a: Id)
    ensures Supertypes(Ladder(n), a) == if a < n then [a + 1] else []
  {
    if a < n {
      var refs := Rung(a).specializes;
      assert refs[1..] == [] && Bound(refs[1..]) == [];
      assert Bound(refs) == [a + 1] + Bound(refs[1..]);
    }
  }

  /** On a ladder `b` is within `k` links of `a` exactly when it is at most `k` rungs up. */
  lemma {:induction false} LadderReach(n: nat, a: Id, b: Id, k: nat)
    requires a <= n && b <= n
    ensures ReachesWithin(SuperLinks(Ladder(n)), a, b, k) <==> a <= b <= a + k
    decreases k
  {
    hide ReachesWithin;
    var up := SuperLinks(Ladder(n));
    LadderLinks(n, a);
    if a == b {
      ReachSelf(up, a, k);
    } else if k == 0 {
      if ReachesWithin(up, a, b, k) { var c := ReachStep(up, a, b, k); }
    } else {
      if a < n { LadderReach(n, a + 1, b, k - 1); }
      if ReachesWithin(up, a, b, k) {
        var c := ReachStep(up, a, b, k);
      } else if a < b <= a + k {
        StepThenReach(up, a, a + 1, b, k - 1);
      }
    }
  }

  /** The relation is not transitive in general: 20 links and 20 links make 40. */
  lemma NotTransitive()
    ensures var m := Ladder(40); Specializes(m, 0, 20) && Specializes(m, 20, 40) && !Specializes(m, 0, 40)
  {
    LadderReach(40, 0, 20, 32);
    LadderReach(40, 20, 40, 32);
    LadderReach(40, 0, 40, 32);
  }

  /** 33 is the largest such size: with 34 definitions the top of the ladder is missed. */
  lemma BoundIsTight()
    ensures var m := Ladder(34); Reaches(SuperLinks(m), 0, 33) && !Specializes(m, 0, 33)
  {
    var m := Ladder(34);
    LadderReach(34, 0, 33, 33);
    LadderReach(34, 0, 33, 32);
    var p :| Joins(SuperLinks(m), p, 0, 33) && |p| <= 34;
  }
}
