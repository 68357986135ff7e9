/** The canonical form of a program: what survives printing and parsing, and how many rounds
    of it lead there. */
module Canonical {
  import opened Basics
  import opened Tokens
  import opened Scanning
  import opened Syntax
  import opened Outline
  import opened Printing
  import opened Rereading
  import opened Settling
  import opened DeclReading
  import opened DeclPrinting
  import opened ProgramRoundTrip

  /** The expressions a declaration carries itself: its value or guard. */
  function OwnExpr(d: Decl): Option<Expr> {
    match d
    case Usage(_, _, _, _, _, _, _, value, _) => value
    case Attribute(_, _, _, _, value) => value
    case EnumValue(_, value) => value
    case Transition(_, _, _, guard, _, _) => guard
    case _ => None
  }

  /** The declarations directly inside a declaration. */
  function Inner(d: Decl): (r: seq<Decl>)
    ensures forall i | 0 <= i < |r| :: r[i] < d
    ensures r != [] ==> (d decreases to r)
  {
    match d
    case Package(_, _, members) => members
    case Definition(_, _, _, _, _, _, members) => members
    case Usage(_, _, _, _, _, _, _, _, members) => members
    case Succession(_, _, steps) => steps
    case _ => []
  }

  /** No unary node is directly a left operand of `**`, a callee or a dot target, anywhere. */
  predicate IsCanonical(d: Decl) {
    && (OwnExpr(d).Some? ==> Stable(OwnExpr(d).value))
    && forall i | 0 <= i < |Inner(d)| :: IsCanonical(Inner(d)[i])
  }

  predicate AllCanonical(ds: seq<Decl>) { forall i | 0 <= i < |ds| :: IsCanonical(ds[i]) }

  /** The pairs of a unary node and an operator that would capture it, in all expressions. */
  function DeclPairs(d: Decl): nat
    decreases d, 1
  {
    (if OwnExpr(d).Some? then Pairs(OwnExpr(d).value) else 0) + (if Inner(d) == [] then 0 else AllPairs(Inner(d)))
  }

  function AllPairs(ds: seq<Decl>): nat
    decreases ds, 0
  {
    if ds == [] then 0 else DeclPairs(ds[0]) + AllPairs(ds[1..])
  }

  /** Every expression is one that printing can write. */
  ghost predicate Expressible(d: Decl) {
    && GoodValue(OwnExpr(d))
    && forall i | 0 <= i < |Inner(d)| :: Expressible(Inner(d)[i])
  }

  // ---- one round ---------------------------------------------------------------------------

  lemma ReparsedParts(d: Decl)
    ensures Inner(Reparsed(d)) == ReparsedAll(Inner(d)) && OwnExpr(Reparsed(d)) == ReparsedValue(OwnExpr(d))
    ensures Reparsed(d) == d <==> ReparsedAll(Inner(d)) == Inner(d) && ReparsedValue(OwnExpr(d)) == OwnExpr(d)
  {
  }

  lemma {:induction false} ReparsedAt(ds: seq<Decl>)
    ensures forall i | 0 <= i < |ds| :: ReparsedAll(ds)[i] == Reparsed(ds[i])
  {
    hide Reparsed;
    if ds != [] { ReparsedAt(ds[1..]); }
  }

  /** Printing and parsing leave exactly the canonical declarations as they are. */
  lemma {:induction false} CanonicalIsFixed(d: Decl)
    requires Expressible(d)
    ensures Reparsed(d) == d <==> IsCanonical(d)
    decreases d
  {
    hide Reparsed, Stable, Inner, OwnExpr, ReparsedAll;
    ReparsedParts(d);
    if OwnExpr(d).Some? { RereadIdentity(OwnExpr(d).value); }
    forall i | 0 <= i < |Inner(d)| ensures Reparsed(Inner(d)[i]) == Inner(d)[i] <==> IsCanonical(Inner(d)[i]) {
      CanonicalIsFixed(Inner(d)[i]);
    }
    ReparsedAt(Inner(d));
    assert ReparsedAll(Inner(d)) == Inner(d) <==> forall i | 0 <= i < |Inner(d)| :: ReparsedAll(Inner(d))[i] == Inner(d)[i];
  }

  lemma {:induction false} AllCanonicalFixed(ds: seq<Decl>)
    requires forall i | 0 <= i < |ds| :: Expressible(ds[i])
    ensures ReparsedAll(ds) == ds <==> AllCanonical(ds)
  {
    hide Reparsed, IsCanonical, ReparsedAll, Expressible;
    forall i | 0 <= i < |ds| ensures Reparsed(ds[i]) == ds[i] <==> IsCanonical(ds[i]) {
      CanonicalIsFixed(ds[i]);
    }
    ReparsedAt(ds);
    assert ReparsedAll(ds) == ds <==> forall i | 0 <= i < |ds| :: ReparsedAll(ds)[i] == ds[i];
  }

  /** A round that changes a declaration removes at least one pair. */
  lemma {:induction false} DeclProgress(d: Decl)
    requires Expressible(d)
    ensures DeclPairs(Reparsed(d)) <= DeclPairs(d)
    ensures Reparsed(d) != d ==> DeclPairs(Reparsed(d)) < DeclPairs(d)
    decreases d, 1
  {
    hide Reparsed, Inner, OwnExpr, Pairs, AllPairs, ReparsedAll;
    ReparsedParts(d);
    if OwnExpr(d).Some? { RereadProgress(OwnExpr(d).value); }
    if Inner(d) == [] {
      ReparsedNone();
    } else {
      AllProgress(Inner(d));
    }
  }

  lemma ReparsedNone()
    ensures ReparsedAll([]) == []
  {
  }

  lemma {:induction false} AllProgress(ds: seq<Decl>)
    requires forall i | 0 <= i < |ds| :: Expressible(ds[i])
    ensures AllPairs(ReparsedAll(ds)) <= AllPairs(ds)
    ensures ReparsedAll(ds) != ds ==> AllPairs(ReparsedAll(ds)) < AllPairs(ds)
    decreases ds, 0
  {
    hide Reparsed, DeclPairs, Expressible;
    if ds != [] {
      DeclProgress(ds[0]);
      AllProgress(ds[1..]);
      assert [Reparsed(ds[0])] + ReparsedAll(ds[1..]) == ReparsedAll(ds);
      assert [ds[0]] + ds[1..] == ds;
    }
  }

  // ---- printable programs stay printable ------------------------------------------------------

  ghost predicate PrintableTarget(s: Decl) { GoodStepHead(s) && PrintableStep(s) }

  lemma {:induction false} PrintableExpressible(d: Decl)
    requires Printable(d) || PrintableTarget(d)
    ensures Expressible(d)
    decreases d
  {
    forall i | 0 <= i < |Inner(d)| ensures Expressible(Inner(d)[i]) {
      PrintableExpressible(Inner(d)[i]);
    }
  }

  lemma SameConstructor(d: Decl)
    ensures IsMember(Reparsed(d)) == IsMember(d) && Reparsed(d).EnumValue? == d.EnumValue?
  {
  }

  /** Rereading keeps an expression printable. */
  lemma ValueKeeps(v: Option<Expr>)
    requires GoodValue(v)
    ensures GoodValue(ReparsedValue(v))
  {
    if v.Some? { ChainKeeps(v.value, []); }
  }

  lemma {:induction false} PrintableKeeps(d: Decl)
    requires Printable(d)
    ensures Printable(Reparsed(d))
    decreases d, 1
  {
    hide Printable, Reparsed, GoodValue, PrintableTarget;
    var members := Inner(d);
    ReparsedAt(members);
    if d.Succession? {
      StepsAreTargets(d);
      forall i | 0 <= i < |members| ensures PrintableTarget(Reparsed(members[i])) {
        TargetKeeps(members[i]);
      }
    } else {
      InnerPrintable(d);
      forall i | 0 <= i < |members| ensures Printable(Reparsed(members[i])) {
        PrintableKeeps(members[i]);
      }
    }
    KeepsGiven(d);
  }

  lemma StepsAreTargets(d: Decl)
    requires d.Succession? && Printable(d)
    ensures forall i | 0 <= i < |d.steps| :: PrintableTarget(d.steps[i])
  {
  }

  lemma InnerPrintable(d: Decl)
    requires !d.Succession? && Printable(d)
    ensures forall i | 0 <= i < |Inner(d)| :: Printable(Inner(d)[i])
  {
  }

  /** What a declaration has directly stays printable when everything inside does. */
  lemma KeepsGiven(d: Decl)
    requires Printable(d)
    requires forall i | 0 <= i < |Inner(d)| ::
      if d.Succession? then PrintableTarget(Reparsed(Inner(d)[i])) else Printable(Reparsed(Inner(d)[i]))
    ensures Printable(Reparsed(d))
  {
    hide Shaped, Named, GoodQName, GoodFeatures, GoodQNames, PrintableName, Reread, GoodAction, GoodDoc,
         GoodTransition, GoodUsage;
    ReparsedAt(Inner(d));
    if d.Usage? { UsageKeeps(d); } else { ValueKeeps(OwnExpr(d)); }
    forall i | 0 <= i < |Inner(d)| ensures IsMember(Reparsed(Inner(d)[i])) == IsMember(Inner(d)[i])
      && Reparsed(Inner(d)[i]).EnumValue? == Inner(d)[i].EnumValue?
    {
      SameConstructor(Inner(d)[i]);
    }
    if d.Transition? { TransitionKeeps(d); }
  }

  lemma UsageKeeps(d: Decl)
    requires d.Usage? && GoodUsage(d)
    ensures Reparsed(d).Usage? && GoodUsage(Reparsed(d))
  {
    hide Shaped, Named, GoodQName, GoodFeatures, PrintableName, Reread;
    ValueKeeps(d.value);
  }

  lemma TransitionKeeps(d: Decl)
    requires d.Transition? && GoodTransition(d)
    ensures Reparsed(d).Transition? && GoodTransition(Reparsed(d)) && HasMiddle(Reparsed(d)) == HasMiddle(d)
  {
  }

  lemma {:induction false} TargetKeeps(s: Decl)
    requires PrintableTarget(s)
    ensures PrintableTarget(Reparsed(s))
    decreases s, 1
  {
    hide Printable, GoodQNames, GoodAction;
    if s.Usage? {
      ReparsedAt(s.members);
      forall i | 0 <= i < |s.members| ensures IsMember(Reparsed(s.members[i])) && Printable(Reparsed(s.members[i])) {
        PrintableKeeps(s.members[i]);
        SameConstructor(s.members[i]);
      }
    }
  }

  // ---- rounds -----------------------------------------------------------------------------------

  ghost predicate PrintableProgram(ds: seq<Decl>) {
    forall i | 0 <= i < |ds| :: IsMember(ds[i]) && Printable(ds[i])
  }

  lemma ProgramKeeps(ds: seq<Decl>)
    requires PrintableProgram(ds)
    ensures PrintableProgram(ReparsedAll(ds)) && forall i | 0 <= i < |ds| :: Expressible(ds[i])
  {
    hide Reparsed, Printable, IsMember, Expressible;
    ReparsedAt(ds);
    forall i | 0 <= i < |ds|
      ensures IsMember(Reparsed(ds[i])) && Printable(Reparsed(ds[i])) && Expressible(ds[i])
    {
      MemberKeeps(ds[i]);
    }
  }

  lemma MemberKeeps(d: Decl)
    requires IsMember(d) && Printable(d)
    ensures IsMember(Reparsed(d)) && Printable(Reparsed(d)) && Expressible(d)
  {
    hide Reparsed, Printable, Expressible;
    SameConstructor(d);
    PrintableKeeps(d);
    PrintableExpressible(d);
  }

  /** `n` rounds of printing and parsing. */
  function ProgramRounds(ds: seq<Decl>, n: nat): seq<Decl>
    decreases n
  {
    if n == 0 then ds else ProgramRounds(ReparsedAll(ds), n - 1)
  }

  lemma {:induction false} RoundsOfFixed(ds: seq<Decl>, n: nat)
    requires ReparsedAll(ds) == ds
    ensures ProgramRounds(ds, n) == ds
    decreases n
  {
    if n > 0 { RoundsOfFixed(ds, n - 1); }
  }

  /** After at most `AllPairs(ds)` rounds a program is canonical and no longer changes. */
  lemma {:induction false} ProgramSettles(ds: seq<Decl>, n: nat)
    requires PrintableProgram(ds) && n >= AllPairs(ds)
    ensures PrintableProgram(ProgramRounds(ds, n)) && AllCanonical(ProgramRounds(ds, n))
    ensures ReparsedAll(ProgramRounds(ds, n)) == ProgramRounds(ds, n)
    decreases n
  {
    hide PrintableProgram, ReparsedAll, AllCanonical, AllPairs;
    ProgramKeeps(ds);
    AllCanonicalFixed(ds);
    AllProgress(ds);
    if ReparsedAll(ds) == ds {
      RoundsOfFixed(ds, n);
    } else {
      ProgramSettles(ReparsedAll(ds), n - 1);
    }
  }

  /** Printing and parsing give back the very program exactly when it is canonical. */
  method RoundTripExactly(ds: seq<Decl>) returns (back: seq<Decl>, clean: bool)
    requires PrintableProgram(ds) && IsSource(ProgramText(ds))
    ensures clean && (back == ds <==> AllCanonical(ds))
    ensures PrintableProgram(back) && back == ReparsedAll(ds)
  {
    hide ReparsedAll, AllCanonical, Printable, IsMember, ProgramText, IsSource;
    ProgramKeeps(ds);
    AllCanonicalFixed(ds);
    back, clean := PrintAndParseProgram(ds);
  }
}
