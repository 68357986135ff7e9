/** The clauses after a name may stand in any order. */
module ClauseOrder {
  import opened Basics
  import opened Tokens
  import opened Outline
  import opened Pratt
  import opened DeclGrammar
  import opened DeclSpelling
  import opened DeclReading

  /** One clause as written, with the word that introduces it. */
  datatype Clause =
    | Typed(names: seq<QName>)
    | Specialized(word: Kind, names: seq<QName>)
    | Redefined(word: Kind, names: seq<QName>)
    | Multiple(m: Multiplicity)

  predicate WellWritten(c: Clause) {
    match c
    case Typed(names) => names != [] && Nonempty(names)
    case Specialized(w, names) => names != [] && Nonempty(names) && w in {COLON_GREATER, KW_SPECIALIZES, KW_SUBSETS}
    case Redefined(w, names) => names != [] && Nonempty(names) && w in {COLON_GREATER_GREATER, KW_REDEFINES}
    case Multiple(m) => PrintableMultiplicity(Some(m))
  }

  function OneClause(c: Clause, rest: seq<Token>): seq<Token> {
    match c
    case Typed(names) => ClauseToks(COLON, names, rest)
    case Specialized(w, names) => ClauseToks(w, names, rest)
    case Redefined(w, names) => ClauseToks(w, names, rest)
    case Multiple(m) => MultiplicityToks(Some(m), rest)
  }

  function ManyClauses(cs: seq<Clause>, rest: seq<Token>): seq<Token> {
    if cs == [] then rest else OneClause(cs[0], ManyClauses(cs[1..], rest))
  }

  /** The clause has not been given yet. */
  predicate Vacant(f: Features, c: Clause) {
    match c
    case Typed(_) => f.types == []
    case Specialized(_, _) => f.supers == []
    case Redefined(_, _) => f.redefines == []
    case Multiple(_) => f.multiplicity == None
  }

  predicate SameSort(a: Clause, b: Clause) {
    a.Typed? == b.Typed? && a.Specialized? == b.Specialized? && a.Redefined? == b.Redefined?
  }

  predicate NoRepeats(cs: seq<Clause>) {
    forall i, j | 0 <= i < j < |cs| :: !SameSort(cs[i], cs[j])
  }

  function With(f: Features, c: Clause): Features {
    match c
    case Typed(names) => f.(types := names)
    case Specialized(_, names) => f.(supers := names)
    case Redefined(_, names) => f.(redefines := names)
    case Multiple(m) => f.(multiplicity := Some(m))
  }

  function WithAll(f: Features, cs: seq<Clause>): Features
    decreases |cs|
  {
    if cs == [] then f else WithAll(With(f, cs[0]), cs[1..])
  }

  lemma ClauseHead(cs: seq<Clause>, rest: seq<Token>)
    requires forall i | 0 <= i < |cs| :: WellWritten(cs[i])
    requires EndsClauses(Head(rest))
    ensures EndsName(Head(ManyClauses(cs, rest)))
    ensures SkipOrdering(ManyClauses(cs, rest)) == ManyClauses(cs, rest)
  {
    hide QNamesToks;
    if cs != [] && cs[0].Multiple? {
      assert Head(ManyClauses(cs, rest)) == Sym(LEFT_BRACKET);
    }
  }

  /** Reading one clause fills its place, or fails when it is already taken. */
  lemma ReadOneClause(f: Features, c: Clause, rest: seq<Token>)
    requires WellWritten(c) && EndsName(Head(rest)) && SkipOrdering(rest) == rest
    ensures Relationships(f, OneClause(c, rest)) == if Vacant(f, c) then Relationships(With(f, c), rest) else Fail
  {
    hide NameList, QNamesToks, MultiplicityOf;
    match c
    case Multiple(m) => ReadMultiplicity(m, rest);
    case _ =>
      ReadNames([], c.names, rest);
      assert [] + c.names == c.names;
      assert OneClause(c, rest)[1..] == QNamesToks(c.names, rest);
  }

  predicate AllVacant(f: Features, cs: seq<Clause>) { forall i | 0 <= i < |cs| :: Vacant(f, cs[i]) }

  lemma VacantAfter(f: Features, c: Clause, b: Clause)
    requires WellWritten(c)
    ensures Vacant(With(f, c), b) <==> Vacant(f, b) && !SameSort(c, b)
  {
  }

  lemma FirstRepeats(f: Features, cs: seq<Clause>)
    requires cs != [] && WellWritten(cs[0])
    ensures NoRepeats(cs) && AllVacant(f, cs)
       <==> Vacant(f, cs[0]) && NoRepeats(cs[1..]) && AllVacant(With(f, cs[0]), cs[1..])
  {
    hide Vacant, SameSort;
    var c, more := cs[0], cs[1..];
    forall i | 0 <= i < |more| ensures Vacant(With(f, c), more[i]) <==> Vacant(f, cs[i + 1]) && !SameSort(c, cs[i + 1]) {
      VacantAfter(f, c, more[i]);
    }
    if Vacant(f, c) && NoRepeats(more) && AllVacant(With(f, c), more) {
      forall i, j | 0 <= i < j < |cs| ensures !SameSort(cs[i], cs[j]) && Vacant(f, cs[j]) {
        assert cs[j] == more[j - 1] && (i > 0 ==> cs[i] == more[i - 1]);
      }
    }
  }

  /** Clauses of different sorts are read, in whatever order, and repeated ones are refused. */
  lemma {:induction false} ReadClauses(f: Features, cs: seq<Clause>, rest: seq<Token>)
    requires forall i | 0 <= i < |cs| :: WellWritten(cs[i])
    requires EndsClauses(Head(rest))
    ensures Relationships(f, ManyClauses(cs, rest))
      == if NoRepeats(cs) && AllVacant(f, cs) then Ok(WithAll(f, cs), rest) else Fail
    decreases |cs|
  {
    hide OneClause, WellWritten, NoRepeats, AllVacant, Vacant, With;
    if cs == [] {
      NoClauses(f, rest);
    } else {
      ClauseHead(cs[1..], rest);
      ReadOneClause(f, cs[0], ManyClauses(cs[1..], rest));
      FirstRepeats(f, cs);
      if Vacant(f, cs[0]) {
        ReadClauses(With(f, cs[0]), cs[1..], rest);
      }
    }
  }

  lemma NoClauses(f: Features, rest: seq<Token>)
    requires EndsClauses(Head(rest))
    ensures NoRepeats([]) && AllVacant(f, []) && Relationships(f, rest) == Ok(f, rest)
  {
  }

  // ---- the order does not matter ------------------------------------------------------------

  /** The clause is what `f` records of its sort. */
  predicate Holds(f: Features, c: Clause) { With(f, c) == f }

  predicate SameAt(f: Features, g: Features, c: Clause) {
    match c
    case Typed(_) => f.types == g.types
    case Specialized(_, _) => f.supers == g.supers
    case Redefined(_, _) => f.redefines == g.redefines
    case Multiple(_) => f.multiplicity == g.multiplicity
  }

  /** What the clauses leave in each place, without regard to their order. */
  lemma {:induction false} WithAllAt(f: Features, cs: seq<Clause>, c: Clause)
    requires NoRepeats(cs)
    ensures c in cs ==> Holds(WithAll(f, cs), c)
    ensures (forall i | 0 <= i < |cs| :: !SameSort(cs[i], c)) ==> SameAt(WithAll(f, cs), f, c)
    decreases |cs|
  {
    if cs != [] {
      WithAllAt(With(f, cs[0]), cs[1..], c);
    }
  }

  lemma TwiceCounted(s: seq<Clause>, i: nat, j: nat)
    requires i < j < |s| && s[i] == s[j]
    ensures multiset(s)[s[i]] >= 2
  {
    assert s == s[..j] + s[j..];
    assert s[i] in s[..j] && s[j] in s[j..];
    assert multiset(s) == multiset(s[..j]) + multiset(s[j..]);
  }

  lemma OnlyHere(s: seq<Clause>, p: nat)
    requires p < |s| && forall k | 0 <= k < |s| && k != p :: s[k] != s[p]
    ensures multiset(s)[s[p]] == 1
  {
    var front, back := s[..p], s[p + 1..];
    assert s == front + ([s[p]] + back);
    assert s[p] !in front;
    assert s[p] !in back;
    assert multiset(s) == multiset(front) + multiset([s[p]] + back);
    assert multiset([s[p]] + back) == multiset{s[p]} + multiset(back);
  }

  lemma CountedOnce(s: seq<Clause>, c: Clause)
    requires NoRepeats(s)
    ensures multiset(s)[c] <= 1
  {
    if p :| 0 <= p < |s| && s[p] == c {
      forall k | 0 <= k < |s| && k != p ensures s[k] != s[p] {
        assert SameSort(c, c);
        assert if k < p then !SameSort(s[k], s[p]) else !SameSort(s[p], s[k]);
      }
      OnlyHere(s, p);
    } else {
      assert c !in s;
    }
  }

  lemma RepeatsIgnoreOrder(cs: seq<Clause>, ds: seq<Clause>)
    requires NoRepeats(cs) && multiset(cs) == multiset(ds)
    ensures NoRepeats(ds)
  {
    forall i, j | 0 <= i < j < |ds| ensures !SameSort(ds[i], ds[j]) {
      assert ds[i] in multiset(cs) && ds[j] in multiset(cs);
      if ds[i] == ds[j] {
        TwiceCounted(ds, i, j);
        CountedOnce(cs, ds[i]);
        assert false;
      }
      var p :| 0 <= p < |cs| && cs[p] == ds[i];
      var q :| 0 <= q < |cs| && cs[q] == ds[j];
      assert p < q || q < p;
    }
  }

  lemma SamePlace(f: Features, cs: seq<Clause>, ds: seq<Clause>, c: Clause)
    requires NoRepeats(cs) && NoRepeats(ds) && multiset(cs) == multiset(ds)
    ensures SameAt(WithAll(f, cs), WithAll(f, ds), c)
  {
    hide WithAll, NoRepeats;
    if i :| 0 <= i < |cs| && SameSort(cs[i], c) {
      assert cs[i] in multiset(ds);
      WithAllAt(f, cs, cs[i]);
      WithAllAt(f, ds, cs[i]);
    } else {
      forall i | 0 <= i < |ds| ensures !SameSort(ds[i], c) {
        assert ds[i] in multiset(cs);
      }
      WithAllAt(f, cs, c);
      WithAllAt(f, ds, c);
    }
  }

  /** Rearranged clauses are read as the same features, or refused in the same way. */
  lemma ClauseOrderIsFree(cs: seq<Clause>, ds: seq<Clause>, rest: seq<Token>)
    requires forall i | 0 <= i < |cs| :: WellWritten(cs[i])
    requires multiset(cs) == multiset(ds) && EndsClauses(Head(rest))
    ensures Relationships(BARE, ManyClauses(cs, rest)) == Relationships(BARE, ManyClauses(ds, rest))
  {
    hide WellWritten, NoRepeats, ManyClauses, WithAll;
    forall i | 0 <= i < |ds| ensures WellWritten(ds[i]) {
      assert ds[i] in multiset(cs);
    }
    ReadClauses(BARE, cs, rest);
    ReadClauses(BARE, ds, rest);
    if NoRepeats(cs) { RepeatsIgnoreOrder(cs, ds); }
    if NoRepeats(ds) { RepeatsIgnoreOrder(ds, cs); }
    if NoRepeats(cs) {
      SamePlace(BARE, cs, ds, Typed([]));
      SamePlace(BARE, cs, ds, Specialized(COLON_GREATER, []));
      SamePlace(BARE, cs, ds, Redefined(COLON_GREATER_GREATER, []));
      SamePlace(BARE, cs, ds, Multiple(Multiplicity(Star, None)));
    }
  }
}
