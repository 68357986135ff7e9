/** Models that differ in the order of members: the same heads, the same firm paths, the same
    references to be handed over. */
module OrderFreedom {
  import opened Elements
  import opened Lookup
  import opened Naming
  import opened Resolver
  import opened Runs
  import opened Handling
  import opened Reordering
  import opened FirmPaths

  // ---- firm paths ---------------------------------------------------------------------------------

  lemma {:induction false} AllBoundIgnoresOrder(a: Model, b: Model, id: Id, fuel: nat)
    requires Shuffled(a, b) && SameLinks(a, b) && AllBound(a, id, fuel)
    ensures AllBound(b, id, fuel)
    decreases fuel
  {
    hide Mixed, Deref;
    if fuel > 0 {
      DerefIgnoresOrder(a, b, id, MAX_DEPTH);
      var c := Deref(a, id, MAX_DEPTH).value;
      assert Parents(b, c) == Parents(a, c) && LinkRefs(Get(b, c)) == LinkRefs(Get(a, c));
      forall x | x in Parents(a, c) ensures AllBound(b, x, fuel - 1) { AllBoundIgnoresOrder(a, b, x, fuel - 1); }
    }
  }

  lemma {:induction false} FirmIgnoresOrder(a: Model, b: Model, id: Id, segs: seq<string>)
    requires Shuffled(a, b) && SameLinks(a, b) && Firm(a, id, segs)
    ensures Firm(b, id, segs)
    decreases |segs|
  {
    hide Shuffled, SameLinks, Member, Deref, AllBound, DirectMember;
    DerefIgnoresOrder(a, b, id, MAX_DEPTH);
    if segs != [] {
      DirectIgnoresOrder(a, b, Deref(a, id, MAX_DEPTH).value, segs[0]);
      if AllBound(a, id, MAX_DEPTH) { AllBoundIgnoresOrder(a, b, id, MAX_DEPTH); }
      MemberIgnoresOrder(a, b, id, segs[0]);
      if Member(a, id, segs[0]).Some? { FirmIgnoresOrder(a, b, Member(a, id, segs[0]).value, segs[1..]); }
    }
  }

  // ---- matching scopes ----------------------------------------------------------------------------

  /** The same names in any order, and the same imports in the same order. */
  ghost predicate MatchingScope(m: Model, s: Scope, t: Scope) {
    && t.wildcards == s.wildcards
    && (t.symbols == s.symbols
        || (Rearranged(s.symbols, t.symbols) && DistinctNames(m, s.symbols) && DistinctNames(m, t.symbols)))
  }

  ghost predicate Matching(m: Model, sa: seq<Scope>, sb: seq<Scope>) {
    |sa| == |sb| && forall k | 0 <= k < |sa| :: MatchingScope(m, sa[k], sb[k])
  }

  lemma MatchingSelf(m: Model, sa: seq<Scope>)
    ensures Matching(m, sa, sa)
  {
  }

  lemma MatchingTail(m: Model, sa: seq<Scope>, sb: seq<Scope>, k: nat)
    requires Matching(m, sa, sb) && k <= |sa|
    ensures Matching(m, sa[k..], sb[k..])
  {
    hide MatchingScope;
  }

  /** The imports of the scope chain are bound alike. */
  ghost predicate SameTargets(a: Model, b: Model, sc: seq<Scope>) {
    forall k, w | 0 <= k < |sc| && w in sc[k].wildcards :: TargetOf(Get(b, w)) == TargetOf(Get(a, w))
  }

  lemma {:induction false} ImportsIgnoreOrder(a: Model, b: Model, imports: seq<Id>, name: string)
    requires Shuffled(a, b) && forall w | w in imports :: TargetOf(Get(b, w)) == TargetOf(Get(a, w))
    ensures SearchImports(b, imports, name) == SearchImports(a, imports, name)
  {
    hide Mixed;
    if imports != [] {
      var t := TargetOf(Get(a, imports[0]));
      if t.Some? { FirstNamedMixed(a, b, Get(a, t.value).members, Get(b, t.value).members, name); }
      ImportsIgnoreOrder(a, b, imports[1..], name);
    }
  }

  lemma SymbolsIgnoreOrder(a: Model, b: Model, s: Scope, t: Scope, name: string)
    requires Shuffled(a, b) && MatchingScope(a, s, t)
    ensures FirstNamed(b, t.symbols, name) == FirstNamed(a, s.symbols, name)
  {
    hide Mixed, DistinctNames, Rearranged;
    if t.symbols == s.symbols {
      FirstNamedRenamed(a, b, s.symbols, name);
    } else {
      FirstNamedRearranged(a, b, s.symbols, t.symbols, name);
    }
  }

  /** The head of a path denotes the same in both orders when the imports are bound alike. */
  lemma {:induction false} HeadIgnoresOrder(a: Model, b: Model, sa: seq<Scope>, sb: seq<Scope>, name: string)
    requires Shuffled(a, b) && Matching(a, sa, sb) && SameTargets(a, b, sa)
    ensures LookupChain(b, sb, name) == LookupChain(a, sa, name)
    ensures SearchWildcards(b, sb, name) == SearchWildcards(a, sa, name)
    decreases |sa|
  {
    hide Shuffled, FirstNamed, SearchImports, MatchingScope;
    if sa != [] {
      SymbolsIgnoreOrder(a, b, sa[0], sb[0], name);
      assert sb[0].wildcards == sa[0].wildcards by { SameWildcards(a, sa[0], sb[0]); }
      ImportsIgnoreOrder(a, b, sa[0].wildcards, name);
      MatchingTail(a, sa, sb, 1);
      assert SameTargets(a, b, sa[1..]) by {
        forall k, w | 0 <= k < |sa[1..]| && w in sa[1..][k].wildcards ensures TargetOf(Get(b, w)) == TargetOf(Get(a, w)) {
          assert sa[1..][k] == sa[k + 1];
        }
      }
      HeadIgnoresOrder(a, b, sa[1..], sb[1..], name);
    }
  }

  lemma SameWildcards(m: Model, s: Scope, t: Scope)
    requires MatchingScope(m, s, t)
    ensures t.wildcards == s.wildcards
  {
  }

  /** Reordered members declare a matching scope. */
  lemma InnerMatches(a: Model, b: Model, start: seq<Id>, x: seq<Id>, y: seq<Id>)
    requires Shuffled(a, b) && Mixed(a, x, y) && (start == [] || x == y)
    ensures MatchingScope(a, Inner(a, start, x), Inner(b, start, y))
  {
    hide Mixed, DistinctNames, Symbols, Wildcards, Rearranged;
    SymbolsRenamed(a, b, start, y);
    WildcardsKept(a, b, y);
    if x != y {
      MixedNames(a, x, y);
      SymbolsAreDistinct(a, x);
      SymbolsAreDistinct(a, y);
      SymbolsRearranged(a, x, y);
    }
  }

  lemma MixedNames(m: Model, x: seq<Id>, y: seq<Id>)
    requires Mixed(m, x, y) && x != y
    ensures DistinctNames(m, x) && DistinctNames(m, y) && Rearranged(x, y) && Wildcards(m, x) == Wildcards(m, y)
  {
    hide DistinctNames, Wildcards;
    DistinctPermuted(m, x, y);
    PermutationRearranges(x, y);
  }

  lemma SymbolsRearranged(m: Model, x: seq<Id>, y: seq<Id>)
    requires DistinctNames(m, x) && DistinctNames(m, y) && Rearranged(x, y)
    ensures Rearranged(Symbols(m, [], x), Symbols(m, [], y))
  {
    hide DistinctNames, Symbols;
    forall id ensures id in Symbols(m, [], x) <==> id in Symbols(m, [], y) {
      SymbolsAreMembers(m, x, id);
      SymbolsAreMembers(m, y, id);
    }
  }

  lemma {:induction false} SymbolsRenamed(a: Model, b: Model, start: seq<Id>, ids: seq<Id>)
    requires Shuffled(a, b)
    ensures Symbols(b, start, ids) == Symbols(a, start, ids)
    decreases |ids|
  {
    hide Mixed, FirstNamed;
    if ids != [] {
      var front, last := ids[..|ids| - 1], ids[|ids| - 1];
      SymbolsRenamed(a, b, start, front);
      FirstNamedRenamed(a, b, Symbols(a, start, front), Get(a, last).name);
    }
  }

  // ---- the same references are handed over ------------------------------------------------------------

  lemma {:induction false} HandsReordered(a: Model, b: Model, n: Id, sa: seq<Scope>, sb: seq<Scope>, s: Slot, sc: seq<Scope>, report: bool)
    returns (sd: seq<Scope>)
    requires Reordered(a, b) && Matching(a, sa, sb) && Hands(a, n, sa, s, sc, report)
    ensures Hands(b, n, sb, s, sd, report) && Matching(a, sc, sd)
    decreases if n < |a| then |a| - n else 0
  {
    hide Mixed, Inner, MatchingScope;
    var ia, ib := InnerScopes(a, n, sa), InnerScopes(b, n, sb);
    InnerReordered(a, b, n, sa, sb);
    SameButOrder(a, b, n);
    SameButOrder(a, b, s.element);
    if report && HandsOwn(a, n, sa, s, sc) {
      sd := OwnScopes(b, n, s.role, sb);
      assert HandsOwn(b, n, sb, s, sd);
    } else if !report && HandsImport(a, n, sa, s, sc) {
      sd := sb;
      assert HandsImport(b, n, sb, s, sd);
    } else {
      var x :| x in Get(a, n).members && n < x < |a| && Hands(a, x, ia, s, sc, report);
      sd := HandsReordered(a, b, x, ia, ib, s, sc, report);
      assert x in Get(b, n).members && n < x < |b| && Hands(b, x, ib, s, sd, report);
    }
  }

  lemma SameButOrder(a: Model, b: Model, id: Id)
    requires Reordered(a, b)
    ensures |a| == |b| && Get(b, id) == Get(a, id).(members := Get(b, id).members)
    ensures Mixed(a, Get(a, id).members, Get(b, id).members)
    ensures forall x :: x in Get(a, id).members <==> x in Get(b, id).members
  {
    hide DistinctNames, Wildcards;
    if id < |a| {
      assert Mixed(a, a[id].members, b[id].members);
      if a[id].members != b[id].members { PermutationRearranges(a[id].members, b[id].members); }
    }
  }

  lemma InnerReordered(a: Model, b: Model, n: Id, sa: seq<Scope>, sb: seq<Scope>)
    requires Reordered(a, b) && Matching(a, sa, sb)
    ensures Matching(a, InnerScopes(a, n, sa), InnerScopes(b, n, sb))
  {
    hide Mixed, Inner, MatchingScope, Reordered;
    SameButOrder(a, b, n);
    ReorderedIsShuffled(a, b);
    InnerMatches(a, b, [], Get(a, n).members, Get(b, n).members);
  }
}
