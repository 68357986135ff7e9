/** Paths in a graph given by its successor lists, cycles included. */
module Walks {
  import opened Elements

  /** Every element of `p` is a successor of the one before it. */
  predicate Linked(up: Id -> seq<Id>, p: seq<Id>) {
    |p| > 0 && forall i | 0 <= i < |p| - 1 :: p[i + 1] in up(p[i])
  }

  predicate Joins(up: Id -> seq<Id>, p: seq<Id>, a: Id, b: Id) {
    Linked(up, p) && p[0] == a && p[|p| - 1] == b
  }

  ghost predicate Reaches(up: Id -> seq<Id>, a: Id, b: Id) {
    exists p :: Joins(up, p, a, b)
  }

  /** `b` is at most `n` links above `a`. */
  ghost predicate ReachesWithin(up: Id -> seq<Id>, a: Id, b: Id, n: nat) {
    exists p :: Joins(up, p, a, b) && |p| <= n + 1
  }

  /** One step and then at most `n` more. */
  lemma StepThenReach(up: Id -> seq<Id>, a: Id, c: Id, b: Id, n: nat)
    requires c in up(a) && ReachesWithin(up, c, b, n)
    ensures ReachesWithin(up, a, b, n + 1)
  {
    var p :| Joins(up, p, c, b) && |p| <= n + 1;
    var q := [a] + p;
    forall i | 0 <= i < |q| - 1 ensures q[i + 1] in up(q[i]) {
      if i > 0 { assert p[i - 1 + 1] in up(p[i - 1]); }
    }
    assert Joins(up, q, a, b);
  }

  lemma ReachStep(up: Id -> seq<Id>, a: Id, b: Id, n: nat) returns (c: Id)
    requires ReachesWithin(up, a, b, n) && a != b
    ensures n > 0 && c in up(a) && ReachesWithin(up, c, b, n - 1)
  {
    var p :| Joins(up, p, a, b) && |p| <= n + 1;
    c := p[1];
    var q := p[1..];
    forall i | 0 <= i < |q| - 1 ensures q[i + 1] in up(q[i]) {
      assert p[i + 1 + 1] in up(p[i + 1]);
    }
    assert Joins(up, q, c, b);
  }

  lemma ReachSelf(up: Id -> seq<Id>, a: Id, n: nat)
    ensures ReachesWithin(up, a, a, n)
  {
    assert Joins(up, [a], a, a);
  }

  /** Paths compose. */
  lemma ReachTrans(up: Id -> seq<Id>, a: Id, b: Id, c: Id, n: nat, k: nat)
    requires ReachesWithin(up, a, b, n) && ReachesWithin(up, b, c, k)
    ensures ReachesWithin(up, a, c, n + k)
    decreases n
  {
    if a != b {
      var d := ReachStep(up, a, b, n);
      ReachTrans(up, d, b, c, n - 1, k);
      StepThenReach(up, a, d, c, n - 1 + k);
    } else {
      var p :| Joins(up, p, b, c) && |p| <= k + 1;
      assert |p| <= n + k + 1;
    }
  }

  predicate Distinct(p: seq<Id>) {
    forall i, j | 0 <= i < j < |p| :: p[i] != p[j]
  }

  /** Cutting a loop out of a path leaves a path. */
  lemma CutLoop(up: Id -> seq<Id>, p: seq<Id>, a: Id, b: Id, i: nat, j: nat)
    requires Joins(up, p, a, b) && i < j < |p| && p[i] == p[j]
    ensures Joins(up, p[..i] + p[j..], a, b)
  {
    var q := p[..i] + p[j..];
    forall k | 0 <= k < |q| - 1 ensures q[k + 1] in up(q[k]) {
      if k < i {
        assert p[k + 1] in up(p[k]);
      } else {
        assert p[k + (j - i) + 1] in up(p[k + (j - i)]);
      }
    }
  }

  /** Every path can be shortened to one without repetitions. */
  lemma Shorten(up: Id -> seq<Id>, p: seq<Id>, a: Id, b: Id) returns (q: seq<Id>)
    requires Joins(up, p, a, b)
    ensures Joins(up, q, a, b) && Distinct(q)
    decreases |p|
  {
    if Distinct(p) {
      q := p;
    } else {
      var i, j :| 0 <= i < j < |p| && p[i] == p[j];
      CutLoop(up, p, a, b, i, j);
      q := Shorten(up, p[..i] + p[j..], a, b);
    }
  }

  /** A path without repetitions is no longer than the set it runs in. */
  lemma {:induction false} Pigeonhole(p: seq<Id>, s: set<Id>)
    requires Distinct(p) && forall i | 0 <= i < |p| :: p[i] in s
    ensures |p| <= |s|
  {
    if p != [] {
      var last := p[|p| - 1];
      Pigeonhole(p[..|p| - 1], s - {last});
    }
  }

  /** In a graph whose link sources lie in `s`, everything above `a` is at most
      |s + {b}| - 1 links away. */
  lemma ShortPathsSuffice(up: Id -> seq<Id>, a: Id, b: Id, s: set<Id>)
    requires forall c :: up(c) != [] ==> c in s
    requires Reaches(up, a, b)
    ensures ReachesWithin(up, a, b, |s + {b}| - 1)
  {
    var p :| Joins(up, p, a, b);
    var q := Shorten(up, p, a, b);
    forall i | 0 <= i < |q| ensures q[i] in s + {b} {
      if i < |q| - 1 { assert q[i + 1] in up(q[i]); }
    }
    Pigeonhole(q, s + {b});
  }

  /** `rank` falls along every link, so the graph has no cycle. */
  ghost predicate Descends(up: Id -> seq<Id>, rank: Id -> nat) {
    forall a, b :: b in up(a) ==> rank(b) < rank(a)
  }

  lemma RankFalls(up: Id -> seq<Id>, rank: Id -> nat, p: seq<Id>, a: Id, b: Id)
    requires Descends(up, rank) && Joins(up, p, a, b)
    ensures rank(b) + |p| - 1 <= rank(a)
    decreases |p|
  {
    if |p| > 1 {
      var q := p[..|p| - 1];
      assert p[|p| - 2 + 1] in up(p[|p| - 2]);
      assert Joins(up, q, a, q[|q| - 1]);
      RankFalls(up, rank, q, a, q[|q| - 1]);
    }
  }
}
