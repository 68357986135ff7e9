/** Scopes, qualified-name paths and conjugation parity. */
module Naming {
  import opened Basics
  import opened Elements
  import opened Lookup

  /** The names a scope declares and the wildcard imports it contains, in source order. */
  datatype Scope = Scope(symbols: seq<Id>, wildcards: seq<Id>)

  // ---- the first segment ----------------------------------------------------------

  /** `lookupChain`: `scopes` runs from the innermost scope outwards. */
  function LookupChain(m: Model, scopes: seq<Scope>, name: string): Option<Id> {
    if scopes == [] then None
    else if FirstNamed(m, scopes[0].symbols, name).Some? then FirstNamed(m, scopes[0].symbols, name)
    else LookupChain(m, scopes[1..], name)
  }

  /** The package that an import is bound to. */
  function ImportedPackage(m: Model, i: Id): Option<Id> {
    var t := TargetOf(Get(m, i));
    if t.Some? && Get(m, t.value).kind == Package then t else None
  }

  function SearchImports(m: Model, imports: seq<Id>, name: string): Option<Id> {
    if imports == [] then None
    else
      var p := ImportedPackage(m, imports[0]);
      var found := if p.Some? then FirstNamed(m, Get(m, p.value).members, name) else None;
      if found.Some? then found else SearchImports(m, imports[1..], name)
  }

  function SearchWildcards(m: Model, scopes: seq<Scope>, name: string): Option<Id> {
    if scopes == [] then None
    else if SearchImports(m, scopes[0].wildcards, name).Some? then SearchImports(m, scopes[0].wildcards, name)
    else SearchWildcards(m, scopes[1..], name)
  }

  /** Some wildcard import of the scope chain is not bound. */
  predicate AnyUnresolved(m: Model, scopes: seq<Scope>) {
    exists k | 0 <= k < |scopes| :: exists i | i in scopes[k].wildcards ::
      Get(m, i).target != [] && TargetOf(Get(m, i)).None?
  }

  function Head(m: Model, scopes: seq<Scope>, name: string): Option<Id> {
    if LookupChain(m, scopes, name).Some? then LookupChain(m, scopes, name) else SearchWildcards(m, scopes, name)
  }

  method FindNamed(m: Model, ids: seq<Id>, name: string) returns (r: Option<Id>)
    ensures r == FirstNamed(m, ids, name)
  {
    var i := 0;
    while i < |ids|
      invariant i <= |ids| && FirstNamed(m, ids[i..], name) == FirstNamed(m, ids, name)
    {
      if Get(m, ids[i]).name != "" && Get(m, ids[i]).name == name {
        return Some(ids[i]);
      }
      i := i + 1;
    }
    return None;
  }

  method FindHead(m: Model, scopes: seq<Scope>, name: string) returns (r: Option<Id>)
    ensures r == Head(m, scopes, name)
  {
    var k := 0;
    while k < |scopes|
      invariant k <= |scopes| && LookupChain(m, scopes[k..], name) == LookupChain(m, scopes, name)
    {
      r := FindNamed(m, scopes[k].symbols, name);
      if r.Some? {
        return;
      }
      k := k + 1;
    }
    k := 0;
    while k < |scopes|
      invariant k <= |scopes| && SearchWildcards(m, scopes[k..], name) == SearchWildcards(m, scopes, name)
    {
      r := FindImported(m, scopes[k].wildcards, name);
      if r.Some? {
        return;
      }
      k := k + 1;
    }
    return None;
  }

  method FindImported(m: Model, imports: seq<Id>, name: string) returns (r: Option<Id>)
    ensures r == SearchImports(m, imports, name)
  {
    var i := 0;
    while i < |imports|
      invariant i <= |imports| && SearchImports(m, imports[i..], name) == SearchImports(m, imports, name)
    {
      var t := TargetOf(Get(m, imports[i]));
      if t.Some? && Get(m, t.value).kind == Package {
        r := FindNamed(m, Get(m, t.value).members, name);
        if r.Some? {
          return;
        }
      }
      i := i + 1;
    }
    return None;
  }

  method AnyUnresolvedWildcard(m: Model, scopes: seq<Scope>) returns (r: bool)
    ensures r == AnyUnresolved(m, scopes)
  {
    var k := 0;
    while k < |scopes|
      invariant k <= |scopes|
      invariant !AnyUnresolved(m, scopes[..k])
    {
      var imports := scopes[k].wildcards;
      var i := 0;
      while i < |imports|
        invariant i <= |imports|
        invariant forall j | 0 <= j < i :: !(Get(m, imports[j]).target != [] && TargetOf(Get(m, imports[j])).None?)
      {
        if Get(m, imports[i]).target != [] && TargetOf(Get(m, imports[i])).None? {
          return true;
        }
        i := i + 1;
      }
      k := k + 1;
    }
    assert scopes[..k] == scopes;
    return false;
  }

  // ---- the remaining segments -------------------------------------------------------

  /** The first type reference of a feature carries the conjugation mark. */
  predicate ConjugatedType(m: Model, id: Id) {
    var e := Get(m, id);
    (e.kind == Usage || e.kind == Attribute) && e.types != [] && e.types[0].conjugated
  }

  datatype Place = Lost | At(id: Id, parity: bool)

  /** Where the segments `segs` lead from `id`, the parity so far being `parity`. */
  function Follow(m: Model, id: Id, parity: bool, segs: seq<string>): Place
    decreases |segs|
  {
    if segs == [] then At(id, parity)
    else match Member(m, id, segs[0])
      case None => Lost
      case Some(next) => Follow(m, next, parity != ConjugatedType(m, id), segs[1..])
  }

  datatype Outcome = Found(id: Id, parity: bool) | Tolerated | Undefined

  /** The head is unknown but the name may come from something that is not loaded. */
  predicate Excused(m: Model, scopes: seq<Scope>, parts: seq<string>)
    requires parts != []
  {
    Head(m, scopes, parts[0]).None? && (|parts| > 1 || AnyUnresolved(m, scopes))
  }

  /** An alias at the end of a path is replaced by what it stands for, when that is known. */
  function SeeThrough(m: Model, id: Id): Id {
    match Deref(m, id, MAX_DEPTH)
    case Some(d) => d
    case None => id
  }

  function Resolve(m: Model, scopes: seq<Scope>, r: Ref): Outcome
    requires r.parts != []
  {
    match Head(m, scopes, r.parts[0])
    case None => if Excused(m, scopes, r.parts) then Tolerated else Undefined
    case Some(h) =>
      match Follow(m, h, false, r.parts[1..])
      case Lost => Undefined
      case At(id, parity) => Found(SeeThrough(m, id), parity != r.conjugated)
  }

  /** The loop over the segments after the head. */
  method FollowPath(m: Model, head: Id, segs: seq<string>) returns (place: Place)
    ensures place == Follow(m, head, false, segs)
  {
    var node, parity, i := head, false, 0;
    while i < |segs|
      invariant i <= |segs| && Follow(m, node, parity, segs[i..]) == Follow(m, head, false, segs)
    {
      var e := Get(m, node);
      if (e.kind == Usage || e.kind == Attribute) && e.types != [] && e.types[0].conjugated {
        parity := !parity;
      }
      var member := LookupMember(m, node, segs[i]);
      if member.None? {
        return Lost;
      }
      node := member.value;
      assert segs[i..][1..] == segs[i + 1..];
      i := i + 1;
    }
    return At(node, parity);
  }

  method ResolveName(m: Model, scopes: seq<Scope>, r: Ref) returns (o: Outcome)
    requires r.parts != []
    ensures o == Resolve(m, scopes, r)
  {
    hide Head, Follow, AnyUnresolved;
    var head := FindHead(m, scopes, r.parts[0]);
    if head.None? {
      if |r.parts| > 1 {
        return Tolerated;
      }
      var unresolved := AnyUnresolvedWildcard(m, scopes);
      return if unresolved then Tolerated else Undefined;
    }
    var place := FollowPath(m, head.value, r.parts[1..]);
    if place.Lost? {
      return Undefined;
    }
    var d := DerefAlias(m, place.id);
    return Found(if d.Some? then d.value else place.id, place.parity != r.conjugated);
  }

  // ---- conjugation parity ---------------------------------------------------------------

  /** The elements a path passes, the start first and the end last; [] if it gets lost. */
  function Trail(m: Model, id: Id, segs: seq<string>): seq<Id>
    decreases |segs|
  {
    if segs == [] then [id]
    else match Member(m, id, segs[0])
      case None => []
      case Some(next) => var rest := Trail(m, next, segs[1..]); if rest == [] then [] else [id] + rest
  }

  /** The elements before the end of a path. */
  function Hops(m: Model, id: Id, segs: seq<string>): seq<Id> {
    var trail := Trail(m, id, segs);
    if trail == [] then [] else trail[..|trail| - 1]
  }

  /** Whether an odd number of `ids` satisfies `p`. */
  function Odd(ids: seq<Id>, p: Id -> bool): bool {
    if ids == [] then false else p(ids[0]) != Odd(ids[1..], p)
  }

  function Conjugates(m: Model): Id -> bool {
    (id: Id) => ConjugatedType(m, id)
  }

  /** The parity of a path is the parity of the number of conjugated features before its
      end. */
  lemma {:induction false} ParityOfTrail(m: Model, id: Id, parity: bool, segs: seq<string>)
    ensures var trail := Trail(m, id, segs);
      Follow(m, id, parity, segs) ==
        if trail == [] then Lost
        else At(trail[|trail| - 1], parity != Odd(Hops(m, id, segs), Conjugates(m)))
    decreases |segs|
  {
    if segs != [] && Member(m, id, segs[0]).Some? {
      var next := Member(m, id, segs[0]).value;
      ParityOfTrail(m, next, parity != ConjugatedType(m, id), segs[1..]);
      var rest := Trail(m, next, segs[1..]);
      if rest != [] {
        assert ([id] + rest)[..|[id] + rest| - 1] == [id] + rest[..|rest| - 1];
        assert ([id] + rest[..|rest| - 1])[1..] == rest[..|rest| - 1];
      }
    }
  }

  /** Following one path and then another adds their parities. */
  lemma {:induction false} PathsCompose(m: Model, id: Id, parity: bool, p: seq<string>, q: seq<string>)
    ensures Follow(m, id, parity, p + q) ==
      match Follow(m, id, parity, p)
      case Lost => Lost
      case At(mid, sofar) => Follow(m, mid, sofar, q)
    decreases |p|
  {
    hide Member;
    if p == [] {
      assert p + q == q;
    } else {
      assert (p + q)[1..] == p[1..] + q && (p + q)[0] == p[0];
      if Member(m, id, p[0]).Some? {
        PathsCompose(m, Member(m, id, p[0]).value, parity != ConjugatedType(m, id), p[1..], q);
      }
    }
  }

  /** What conjugation means for an element: an alias is as conjugated as what it stands
      for. */
  function Meant(m: Model): Id -> bool {
    (id: Id) => ConjugatedType(m, SeeThrough(m, id))
  }

  /** Aliases of conjugated features, whose conjugation the walk does not see. */
  function Hidden(m: Model): Id -> bool {
    (id: Id) => Get(m, id).kind == Alias && ConjugatedType(m, SeeThrough(m, id))
  }

  lemma {:induction false} OddSplits(m: Model, ids: seq<Id>)
    ensures Odd(ids, Conjugates(m)) == (Odd(ids, Meant(m)) != Odd(ids, Hidden(m)))
  {
    if ids != [] { OddSplits(m, ids[1..]); }
  }

  /** The stored parity is the exclusive or over all hops of what conjugation means exactly
      when an even number of hops goes through an alias of a conjugated feature; in
      particular when no alias comes before the last segment. */
  lemma ParityIsMeant(m: Model, id: Id, segs: seq<string>)
    requires Follow(m, id, false, segs).At?
    ensures var hops := Hops(m, id, segs);
      && (Follow(m, id, false, segs).parity == Odd(hops, Meant(m)) <==> !Odd(hops, Hidden(m)))
      && ((forall h | h in hops :: Get(m, h).kind != Alias) ==> Follow(m, id, false, segs).parity == Odd(hops, Meant(m)))
  {
    hide Member;
    ParityOfTrail(m, id, false, segs);
    var hops := Hops(m, id, segs);
    OddSplits(m, hops);
    if forall h | h in hops :: Get(m, h).kind != Alias { NothingHidden(m, hops); }
  }

  lemma {:induction false} NothingHidden(m: Model, ids: seq<Id>)
    requires forall h | h in ids :: Get(m, h).kind != Alias
    ensures !Odd(ids, Hidden(m))
  {
    if ids != [] { NothingHidden(m, ids[1..]); }
  }
}
