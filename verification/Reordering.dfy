/** The order of declarations: what a run binds a reference to does not depend on it, as long
    as the path of the reference does not pass anything that is bound only during the run. */
module Reordering {
  import opened Basics
  import opened Elements
  import opened Lookup
  import opened Naming
  import opened Resolver

  // ---- lists in another order ----------------------------------------------------------------------

  /** No two of `ids` share a name. */
  predicate DistinctNames(m: Model, ids: seq<Id>) {
    forall i, j | 0 <= i < j < |ids| && Get(m, ids[i]).name != "" :: Get(m, ids[i]).name != Get(m, ids[j]).name
  }

  /** The same elements in any order. */
  ghost predicate Rearranged(a: seq<Id>, b: seq<Id>) {
    forall x :: x in a <==> x in b
  }

  lemma PermutationRearranges(a: seq<Id>, b: seq<Id>)
    requires multiset(a) == multiset(b)
    ensures Rearranged(a, b)
  {
    forall x ensures x in a <==> x in b {
      assert x in a <==> x in multiset(a);
      assert x in b <==> x in multiset(b);
    }
  }

  /** With distinct names, what a list declares under a name is the member of that name. */
  lemma {:induction false} FirstNamedIs(m: Model, ids: seq<Id>, name: string, x: Id)
    requires DistinctNames(m, ids)
    ensures FirstNamed(m, ids, name) == Some(x) <==> x in ids && name != "" && Get(m, x).name == name
  {
    if ids != [] {
      assert DistinctNames(m, ids[1..]) by {
        forall i, j | 0 <= i < j < |ids[1..]| && Get(m, ids[1..][i]).name != ""
          ensures Get(m, ids[1..][i]).name != Get(m, ids[1..][j]).name
        {
          assert ids[1..][i] == ids[i + 1] && ids[1..][j] == ids[j + 1];
        }
      }
      FirstNamedIs(m, ids[1..], name, x);
      if x in ids[1..] {
        var j :| 0 <= j < |ids[1..]| && ids[1..][j] == x;
        assert ids[j + 1] == x;
      }
    }
  }

  lemma FirstNamedRearranged(m: Model, m': Model, a: seq<Id>, b: seq<Id>, name: string)
    requires Rearranged(a, b) && DistinctNames(m, a) && DistinctNames(m, b)
    requires forall id :: Get(m', id).name == Get(m, id).name
    ensures FirstNamed(m', b, name) == FirstNamed(m, a, name)
  {
    FirstNamedRenamed(m, m', b, name);
    match FirstNamed(m, a, name)
    case Some(x) =>
      FirstNamedIs(m, a, name, x);
      FirstNamedIs(m, b, name, x);
    case None =>
      match FirstNamed(m, b, name)
      case Some(y) =>
        FirstNamedIs(m, a, name, y);
        FirstNamedIs(m, b, name, y);
      case None =>
  }

  lemma {:induction false} FirstNamedRenamed(m: Model, m': Model, ids: seq<Id>, name: string)
    requires forall id :: Get(m', id).name == Get(m, id).name
    ensures FirstNamed(m', ids, name) == FirstNamed(m, ids, name)
  {
    if ids != [] { FirstNamedRenamed(m, m', ids[1..], name); }
  }

  lemma TwoPlaces(s: seq<Id>, x: Id) returns (i: nat, j: nat)
    requires multiset(s)[x] >= 2
    ensures i < j < |s| && s[i] == s[j] == x
  {
    i :| 0 <= i < |s| && s[i] == x;
    assert s == s[..i] + ([x] + s[i + 1..]);
    assert multiset(s) == multiset(s[..i]) + (multiset{x} + multiset(s[i + 1..]));
    if x in s[i + 1..] {
      j :| i < j < |s| && s[j] == x;
    } else {
      assert multiset(s[..i])[x] >= 1;
      assert x in s[..i];
      j := i;
      i :| 0 <= i < j && s[i] == x;
    }
  }

  lemma TwiceThere(s: seq<Id>, i: nat, j: nat)
    requires i < j < |s| && s[i] == s[j]
    ensures multiset(s)[s[i]] >= 2
  {
    assert s == s[..j] + s[j..];
    assert s[i] in s[..j] && s[j] in s[j..];
    assert multiset(s) == multiset(s[..j]) + multiset(s[j..]);
  }

  /** A permutation of distinct names has distinct names. */
  lemma DistinctPermuted(m: Model, a: seq<Id>, b: seq<Id>)
    requires multiset(a) == multiset(b) && DistinctNames(m, a)
    ensures DistinctNames(m, b)
  {
    PermutationRearranges(a, b);
    forall i, j | 0 <= i < j < |b| && Get(m, b[i]).name != "" ensures Get(m, b[i]).name != Get(m, b[j]).name {
      assert b[i] in a && b[j] in a;
      if b[i] == b[j] {
        TwiceThere(b, i, j);
        var p, q := TwoPlaces(a, b[i]);
      } else {
        var p :| 0 <= p < |a| && a[p] == b[i];
        var q :| 0 <= q < |a| && a[q] == b[j];
        assert p < q || q < p;
      }
    }
  }

  /** The same members, or a permutation of members with distinct names that keeps the wildcard
      imports in order. */
  ghost predicate Mixed(m: Model, a: seq<Id>, b: seq<Id>) {
    a == b || (multiset(a) == multiset(b) && DistinctNames(m, a) && Wildcards(m, a) == Wildcards(m, b))
  }

  /** `b` is `a` with the members of its containers listed in another order. */
  ghost predicate Reordered(a: Model, b: Model) {
    |a| == |b| && forall id | 0 <= id < |a| ::
      b[id] == a[id].(members := b[id].members) && Mixed(a, a[id].members, b[id].members)
  }

  /** The same, whatever is bound in either. */
  ghost predicate Shuffled(a: Model, b: Model) {
    |a| == |b| && forall id ::
      && Get(b, id).name == Get(a, id).name && Get(b, id).kind == Get(a, id).kind
      && Get(b, id).wildcard == Get(a, id).wildcard
      && Mixed(a, Get(a, id).members, Get(b, id).members)
  }

  lemma ReorderedIsShuffled(a: Model, b: Model)
    requires Reordered(a, b)
    ensures Shuffled(a, b)
  {
    hide Mixed;
    forall id: Id ensures Get(b, id) == Get(a, id).(members := Get(b, id).members) && Mixed(a, Get(a, id).members, Get(b, id).members) {
      if id < |a| { assert b[id] == a[id].(members := b[id].members); } else { MixedSelf(a, []); }
    }
  }

  lemma MixedSelf(m: Model, a: seq<Id>)
    ensures Mixed(m, a, a)
  {
  }

  lemma {:induction false} WildcardsKept(a: Model, b: Model, ids: seq<Id>)
    requires forall id :: Get(b, id).kind == Get(a, id).kind && Get(b, id).wildcard == Get(a, id).wildcard
    ensures Wildcards(b, ids) == Wildcards(a, ids)
    decreases |ids|
  {
    if ids != [] { WildcardsKept(a, b, ids[..|ids| - 1]); }
  }

  lemma MixedKept(a: Model, b: Model, x: seq<Id>, y: seq<Id>)
    requires Mixed(a, x, y)
    requires forall id :: Get(b, id).kind == Get(a, id).kind && Get(b, id).wildcard == Get(a, id).wildcard
    requires forall id :: Get(b, id).name == Get(a, id).name
    ensures Mixed(b, x, y)
  {
    WildcardsKept(a, b, x);
    WildcardsKept(a, b, y);
  }

  /** Two reordered models stay so while references are bound in each of them. */
  lemma ShuffledLater(a: Model, b: Model, a': Model, b': Model)
    requires Shuffled(a, b) && Extends(a, a') && Extends(b, b')
    ensures Shuffled(a', b')
  {
    hide Extends, Mixed;
    ExtendsLength(a, a');
    ExtendsLength(b, b');
    forall id ensures
      && Get(a', id).name == Get(a, id).name && Get(a', id).kind == Get(a, id).kind
      && Get(a', id).wildcard == Get(a, id).wildcard && Get(a', id).members == Get(a, id).members
    {
      ExtendsShape(a, a', id);
    }
    forall id ensures
      && Get(b', id).name == Get(a', id).name && Get(b', id).kind == Get(a', id).kind
      && Get(b', id).wildcard == Get(a', id).wildcard
      && Mixed(a', Get(a', id).members, Get(b', id).members)
    {
      ExtendsShape(b, b', id);
      MixedKept(a, a', Get(a, id).members, Get(b, id).members);
    }
  }

  lemma FirstNamedMixed(a: Model, b: Model, x: seq<Id>, y: seq<Id>, name: string)
    requires Mixed(a, x, y) && forall id :: Get(b, id).name == Get(a, id).name
    ensures FirstNamed(b, y, name) == FirstNamed(a, x, name)
  {
    hide DistinctNames, Wildcards, Rearranged;
    if x == y {
      FirstNamedRenamed(a, b, x, name);
    } else {
      PermutationRearranges(x, y);
      DistinctPermuted(a, x, y);
      FirstNamedRearranged(a, b, x, y, name);
    }
  }

  // ---- what is declared ---------------------------------------------------------------------------

  /** What the members of a container declare: with distinct names, all named members that
      are not imports. */
  lemma {:induction false} SymbolsAreMembers(m: Model, members: seq<Id>, x: Id)
    requires DistinctNames(m, members)
    ensures x in Symbols(m, [], members) <==> x in members && Get(m, x).kind != Import && Get(m, x).name != ""
    decreases |members|
  {
    if members != [] {
      var front, last := members[..|members| - 1], members[|members| - 1];
      SymbolsAreMembers(m, front, x);
      var before := Symbols(m, [], front);
      if Get(m, last).name != "" && FirstNamed(m, before, Get(m, last).name).Some? {
        var y := FirstNamed(m, before, Get(m, last).name).value;
        FirstNamedIn(m, before, Get(m, last).name);
        SymbolsAreMembers(m, front, y);
        assert false;
      }
    }
  }

  lemma {:induction false} FirstNamedIn(m: Model, ids: seq<Id>, name: string)
    ensures var r := FirstNamed(m, ids, name); r.Some? ==> r.value in ids && Get(m, r.value).name == name
  {
    if ids != [] { FirstNamedIn(m, ids[1..], name); }
  }

  lemma {:induction false} NobodyNamed(m: Model, ids: seq<Id>, name: string)
    requires FirstNamed(m, ids, name).None? && name != ""
    ensures forall i | 0 <= i < |ids| :: Get(m, ids[i]).name != name
  {
    if ids != [] {
      NobodyNamed(m, ids[1..], name);
      forall i | 0 <= i < |ids| ensures Get(m, ids[i]).name != name {
        if i > 0 { assert ids[1..][i - 1] == ids[i]; }
      }
    }
  }

  lemma {:induction false} SymbolsAreDistinct(m: Model, members: seq<Id>)
    ensures DistinctNames(m, Symbols(m, [], members))
    decreases |members|
  {
    if members != [] {
      var last := members[|members| - 1];
      var before := Symbols(m, [], members[..|members| - 1]);
      SymbolsAreDistinct(m, members[..|members| - 1]);
      if Get(m, last).name != "" && FirstNamed(m, before, Get(m, last).name).None? {
        NobodyNamed(m, before, Get(m, last).name);
      }
    }
  }

  // ---- members and paths ---------------------------------------------------------------------------

  /** Types, specializations and aliases are bound alike. */
  ghost predicate SameLinks(a: Model, b: Model) {
    forall id ::
      && (Get(a, id).kind != Import ==> Get(b, id).types == Get(a, id).types && Get(b, id).specializes == Get(a, id).specializes)
      && (Get(a, id).kind == Alias ==> Get(b, id).target == Get(a, id).target)
  }

  lemma {:induction false} DerefIgnoresOrder(a: Model, b: Model, id: Id, n: nat)
    requires Shuffled(a, b) && SameLinks(a, b)
    ensures Deref(b, id, n) == Deref(a, id, n)
    decreases n
  {
    hide Mixed;
    if Get(a, id).kind == Alias && n > 0 && TargetOf(Get(a, id)).Some? {
      DerefIgnoresOrder(a, b, TargetOf(Get(a, id)).value, n - 1);
    }
  }

  lemma {:induction false} VisitIgnoresOrder(a: Model, b: Model, id: Id, fuel: nat)
    requires Shuffled(a, b) && SameLinks(a, b)
    ensures Visit(b, id, fuel) == Visit(a, id, fuel)
    decreases fuel, 0
  {
    hide Mixed, Deref, VisitAll;
    DerefIgnoresOrder(a, b, id, MAX_DEPTH);
    if fuel > 0 && Deref(a, id, MAX_DEPTH).Some? {
      var c := Deref(a, id, MAX_DEPTH).value;
      assert Parents(b, c) == Parents(a, c);
      VisitAllIgnoresOrder(a, b, Parents(a, c), fuel - 1);
    }
  }

  lemma {:induction false} VisitAllIgnoresOrder(a: Model, b: Model, ids: seq<Id>, fuel: nat)
    requires Shuffled(a, b) && SameLinks(a, b)
    ensures VisitAll(b, ids, fuel) == VisitAll(a, ids, fuel)
    decreases fuel, 1, |ids|
  {
    hide Mixed, Visit, Shuffled, SameLinks;
    if ids != [] {
      VisitIgnoresOrder(a, b, ids[0], fuel);
      VisitAllIgnoresOrder(a, b, ids[1..], fuel);
    }
  }

  lemma DirectIgnoresOrder(a: Model, b: Model, id: Id, name: string)
    requires Shuffled(a, b)
    ensures DirectMember(b, id, name) == DirectMember(a, id, name)
  {
    hide Mixed;
    FirstNamedMixed(a, b, Get(a, id).members, Get(b, id).members, name);
  }

  lemma {:induction false} HitIgnoresOrder(a: Model, b: Model, cs: seq<Id>, name: string)
    requires Shuffled(a, b)
    ensures FirstHit(b, cs, name) == FirstHit(a, cs, name)
  {
    hide Shuffled, DirectMember;
    if cs != [] {
      DirectIgnoresOrder(a, b, cs[0], name);
      HitIgnoresOrder(a, b, cs[1..], name);
    }
  }

  /** With types, specializations and aliases bound alike, the order does not matter to the
      lookup of a member. */
  lemma MemberIgnoresOrder(a: Model, b: Model, id: Id, name: string)
    requires Shuffled(a, b) && SameLinks(a, b)
    ensures Member(b, id, name) == Member(a, id, name)
  {
    hide Shuffled, SameLinks, Visit;
    VisitIgnoresOrder(a, b, id, MAX_DEPTH);
    HitIgnoresOrder(a, b, Visit(a, id, MAX_DEPTH), name);
  }

  /** Nor to a whole path. */
  lemma {:induction false} FollowIgnoresOrder(a: Model, b: Model, id: Id, parity: bool, segs: seq<string>)
    requires Shuffled(a, b) && SameLinks(a, b)
    ensures Follow(b, id, parity, segs) == Follow(a, id, parity, segs)
    decreases |segs|
  {
    hide Member, Mixed;
    if segs != [] {
      MemberIgnoresOrder(a, b, id, segs[0]);
      match Member(a, id, segs[0])
      case None =>
      case Some(next) => FollowIgnoresOrder(a, b, next, parity != ConjugatedType(a, id), segs[1..]);
    }
  }
}
