/** Paths, values and prefixes of declarations as they may be written, and what is passed over without a trace. */
module PassedOver {
  import opened Basics
  import opened Tokens
  import opened Syntax
  import opened Outline
  import opened Pratt
  import opened DeclGrammar
  import opened DeclSpelling
  import opened DeclReading
  import opened Beginnings
  import opened KeywordForms

  // ---- brackets -------------------------------------------------------------------------------------------------

  /** Opening minus closing brackets. */
  ghost function Nesting(open: Kind, close: Kind, ts: seq<Token>): int {
    multiset(ts)[Sym(open)] as int - multiset(ts)[Sym(close)] as int
  }

  /** After `n` tokens, and not before, `depth` more brackets are closed than opened. */
  ghost predicate ClosesAfter(open: Kind, close: Kind, ts: seq<Token>, depth: nat, n: nat) {
    && n <= |ts| && Nesting(open, close, ts[..n]) + depth == 0
    && forall j | 0 <= j < n :: Nesting(open, close, ts[..j]) + depth > 0
  }

  lemma NestingStep(open: Kind, close: Kind, ts: seq<Token>, n: nat)
    requires open != close && 0 < n <= |ts|
    ensures Nesting(open, close, ts[..n]) == Nesting(open, close, ts[1..][..n - 1])
      + (if ts[0] == Sym(open) then 1 else if ts[0] == Sym(close) then -1 else 0)
  {
    assert ts[..n] == [ts[0]] + ts[1..][..n - 1];
  }

  /** A skipped block ends at its matching bracket, or with the input where there is none. */
  lemma {:induction false} ClosedRule(open: Kind, close: Kind, ts: seq<Token>, depth: nat, n: nat)
    requires open != close
    ensures ClosesAfter(open, close, ts, depth, n) ==> Closed(open, close, ts, depth) == ts[n..]
    decreases |ts|
  {
    hide Nesting;
    if ClosesAfter(open, close, ts, depth, n) && n > 0 {
      assert Nesting(open, close, ts[..0]) == 0 by { EmptyNesting(open, close, ts); }
      NestingStep(open, close, ts, n);
      var d := if ts[0] == Sym(open) then depth + 1 else if ts[0] == Sym(close) then depth - 1 else depth;
      forall j | 0 <= j < n - 1 ensures Nesting(open, close, ts[1..][..j]) + d > 0 {
        NestingStep(open, close, ts, j + 1);
      }
      ClosedRule(open, close, ts[1..], d, n - 1);
      assert ts[1..][n - 1..] == ts[n..];
    } else if n == 0 && ClosesAfter(open, close, ts, depth, n) {
      EmptyNesting(open, close, ts);
    }
  }

  lemma EmptyNesting(open: Kind, close: Kind, ts: seq<Token>)
    ensures Nesting(open, close, ts[..0]) == 0
  {
    assert ts[..0] == [];
  }

  lemma {:induction false} UnclosedRule(open: Kind, close: Kind, ts: seq<Token>, depth: nat)
    requires open != close
    ensures (exists n: nat :: ClosesAfter(open, close, ts, depth, n)) || Closed(open, close, ts, depth) == []
    decreases |ts|
  {
    hide Nesting;
    EmptyNesting(open, close, ts);
    if depth == 0 {
      assert ClosesAfter(open, close, ts, depth, 0);
    } else if ts != [] {
      var d := if ts[0] == Sym(open) then depth + 1 else if ts[0] == Sym(close) then depth - 1 else depth;
      UnclosedRule(open, close, ts[1..], d);
      if n: nat :| ClosesAfter(open, close, ts[1..], d, n) {
        NestingStep(open, close, ts, n + 1);
        forall j | 0 <= j < n + 1 ensures Nesting(open, close, ts[..j]) + depth > 0 {
          if j > 0 { NestingStep(open, close, ts, j); }
        }
        assert ClosesAfter(open, close, ts, depth, n + 1);
      }
    }
  }

  // ---- paths ----------------------------------------------------------------------------------------------------

  predicate IsDot(t: Token) { t == Sym(COLON_COLON) || t == Sym(PERIOD) }

  /** Further segments of a path, each behind its separator. */
  function Segments(seps: seq<Kind>, names: seq<string>, rest: seq<Token>): seq<Token>
    requires |seps| == |names|
  {
    if names == [] then rest else [Sym(seps[0]), Name(names[0])] + Segments(seps[1..], names[1..], rest)
  }

  /** Segments may be separated by dots and double colons alike. */
  lemma {:induction false} PathRule(q: QName, seps: seq<Kind>, names: seq<string>, rest: seq<Token>)
    requires |seps| == |names| && (forall i | 0 <= i < |seps| :: seps[i] in {COLON_COLON, PERIOD}) && !IsDot(Head(rest))
    ensures MoreParts(q, Segments(seps, names, rest)) == Ok(QName(q.conjugated, q.parts + names), rest)
    decreases |names|
  {
    if names == [] {
      assert q.parts + names == q.parts;
    } else {
      var ts := Segments(seps, names, rest);
      assert ts[1] == Name(names[0]) && ts[2..] == Segments(seps[1..], names[1..], rest);
      var next := QName(q.conjugated, q.parts + [names[0]]);
      PathRule(next, seps[1..], names[1..], rest);
      assert next.parts + names[1..] == q.parts + names;
    }
  }

  /** Behind `~` a name is conjugated. */
  lemma QualifiedRule(w: string, seps: seq<Kind>, names: seq<string>, rest: seq<Token>)
    requires |seps| == |names| && (forall i | 0 <= i < |seps| :: seps[i] in {COLON_COLON, PERIOD}) && !IsDot(Head(rest))
    ensures var ts := [Name(w)] + Segments(seps, names, rest);
      && QualifiedName(ts) == Ok(QName(false, [w] + names), rest)
      && QualifiedName([Sym(TILDE)] + ts) == Ok(QName(true, [w] + names), rest)
  {
    hide MoreParts, Segments;
    var ts := [Name(w)] + Segments(seps, names, rest);
    assert ts[1..] == Segments(seps, names, rest) && ([Sym(TILDE)] + ts)[1..] == ts;
    PathRule(QName(false, [w]), seps, names, rest);
    PathRule(QName(true, [w]), seps, names, rest);
  }

  /** A bracket before a reference and a refinement after it leave no trace. */
  lemma ReferenceRule(w: string, seps: seq<Kind>, names: seq<string>, rest: seq<Token>, inner: seq<Token>)
    requires |seps| == |names| && (forall i | 0 <= i < |seps| :: seps[i] in {COLON_COLON, PERIOD}) && !IsDot(Head(rest))
    requires ClosesAfter(LEFT_BRACKET, RIGHT_BRACKET, inner, 1, |inner|)
    ensures var ts := [Name(w)] + Segments(seps, names, rest);
      && Reference(ts) == Ok(QName(false, [w] + names), AfterRefinement(rest))
      && Reference([Sym(LEFT_BRACKET)] + (inner + ts)) == Reference(ts)
  {
    hide MoreParts, Segments, AfterRefinement, Nesting;
    var ts := [Name(w)] + Segments(seps, names, rest);
    assert ts[1..] == Segments(seps, names, rest);
    PathRule(QName(false, [w]), seps, names, rest);
    var all := [Sym(LEFT_BRACKET)] + (inner + ts);
    assert all[1..] == inner + ts && (inner + ts)[|inner|..] == ts;
    ClosesPrefix(inner, ts);
    ClosedRule(LEFT_BRACKET, RIGHT_BRACKET, inner + ts, 1, |inner|);
  }

  lemma ClosesPrefix(inner: seq<Token>, ts: seq<Token>)
    requires ClosesAfter(LEFT_BRACKET, RIGHT_BRACKET, inner, 1, |inner|)
    ensures ClosesAfter(LEFT_BRACKET, RIGHT_BRACKET, inner + ts, 1, |inner|)
  {
    hide Nesting;
    assert forall j | 0 <= j <= |inner| :: (inner + ts)[..j] == inner[..j];
  }

  /** The five words of a refinement, with the path behind them. */
  lemma RefinementRule(t: Token, w: string, seps: seq<Kind>, names: seq<string>, rest: seq<Token>)
    requires |seps| == |names| && (forall i | 0 <= i < |seps| :: seps[i] in {COLON_COLON, PERIOD}) && !IsDot(Head(rest))
    ensures AfterRefinement([t, Name(w)] + Segments(seps, names, rest)) ==
      if t in {Sym(COLON_GREATER), Sym(COLON_GREATER_GREATER), Sym(KW_REDEFINES), Sym(KW_SUBSETS), Sym(KW_SPECIALIZES)}
      then rest else [t, Name(w)] + Segments(seps, names, rest)
  {
    hide Segments, AfterPath;
    var ts := [t, Name(w)] + Segments(seps, names, rest);
    assert ts[1..] == [Name(w)] + Segments(seps, names, rest) && ts[2..] == Segments(seps, names, rest);
    SegmentsPassed(seps, names, rest);
  }

  lemma {:induction false} SegmentsPassed(seps: seq<Kind>, names: seq<string>, rest: seq<Token>)
    requires |seps| == |names| && (forall i | 0 <= i < |seps| :: seps[i] in {COLON_COLON, PERIOD}) && !IsDot(Head(rest))
    ensures AfterPath(Segments(seps, names, rest)) == rest
    decreases |names|
  {
    if names != [] {
      var ts := Segments(seps, names, rest);
      assert ts[1..] == [Name(names[0])] + Segments(seps[1..], names[1..], rest);
      assert ts[1..][1..] == Segments(seps[1..], names[1..], rest);
      SegmentsPassed(seps[1..], names[1..], rest);
    }
  }

  /** The source of a flow or message may be written where its name would be; it then is a path of dots. */
  lemma FlowSourceRule(k: Kind, w: string, rest: seq<Token>)
    ensures var ts := [Name(w), Sym(KW_TO)] + rest;
      UsageName(k, ts) == if k == KW_FLOW || k == KW_MESSAGE then Ok(("", Some(QName(false, [w]))), [Sym(KW_TO)] + rest)
                          else Ok((w, None), [Sym(KW_TO)] + rest)
  {
    var ts := [Name(w), Sym(KW_TO)] + rest;
    var to := [Sym(KW_TO)] + rest;
    assert ts[1..] == to;
    assert Metadata(false, ts) == (false, ts) && ShortName(ts) == Ok((), ts);
    assert PartsBy(PERIOD, QName(false, [w]), to) == Ok(QName(false, [w]), to);
  }

  // ---- names and values -----------------------------------------------------------------------------------------

  /** A short name in angle brackets is passed over. */
  lemma ShortNameRule(k: Kind, v: Visibility, isAbstract: bool, short: string, w: string, rest: seq<Token>)
    ensures var ts := [Name(w)] + rest;
      && DefinitionRest(k, v, isAbstract, [Sym(LESS), Name(short), Sym(GREATER)] + ts) == DefinitionRest(k, v, isAbstract, ts)
      && UsageName(k, [Sym(LESS), Name(short), Sym(GREATER)] + ts) == UsageName(k, ts)
  {
    hide Relationships, DefinitionBody, PartsBy;
    var ts := [Name(w)] + rest;
    var all := [Sym(LESS), Name(short), Sym(GREATER)] + ts;
    assert all[1..] == [Name(short), Sym(GREATER)] + ts && all[1..][1..] == [Sym(GREATER)] + ts;
    assert ([Sym(GREATER)] + ts)[1..] == ts;
    assert ShortName(all) == Ok((), ts) && ShortName(ts) == Ok((), ts);
    assert Metadata(false, all) == (false, all) && Metadata(false, ts) == (false, ts);
  }

  /** Attributes and nameless features take `default` for `=`; other usages do not. */
  lemma DefaultRule(ts: seq<Token>)
    ensures Value([Sym(KW_DEFAULT)] + ts, true) == Value([Sym(EQUAL)] + ts, true) == Value([Sym(EQUAL)] + ts, false)
    ensures Value([Sym(KW_DEFAULT)] + ts, false) == Ok(None, [Sym(KW_DEFAULT)] + ts)
  {
    hide DeclGrammar.Expression;
    assert ([Sym(KW_DEFAULT)] + ts)[1..] == ts && ([Sym(EQUAL)] + ts)[1..] == ts;
  }

  /** `::*` and `::**` at the end of an import mean the same. */
  lemma ImportAllRule(parts: seq<string>, k: Kind, rest: seq<Token>)
    requires k == STAR || k == STAR_STAR
    ensures ImportPath(parts, [Sym(COLON_COLON), Sym(k)] + rest) == Ok((parts, true), rest)
  {
    var ts := [Sym(COLON_COLON), Sym(k)] + rest;
    assert ts[1..] == [Sym(k)] + rest && ts[2..] == rest;
  }

  /** A bound is the number its leading digits write, or the largest one of 63 bits if that is larger; a fraction is
      ignored. */
  lemma BoundRule(n: nat, tail: string)
    requires tail == "" || tail[0] == '.'
    ensures LongOf(Decimal(n) + tail) == if n < 9223372036854775807 then n else 9223372036854775807
  {
    hide Digits, LeadingDigits, Decimal;
    var w := Decimal(n) + tail;
    if |Decimal(n)| < 63 {
      var read := if |w| < 63 then w else w[..63];
      assert read == Decimal(n) + read[|Decimal(n)|..] && (read[|Decimal(n)|..] == "" || read[|Decimal(n)|] == '.');
      DigitsLead(n, read[|Decimal(n)|..]);
    } else {
      var m := DecimalPrefix(n, 63);
      assert w[..63] == Decimal(m) && |w| >= 63;
      DigitsLead(m, "");
      assert Decimal(m) + "" == Decimal(m);
      ManyDigits(n);
      ManyDigits(m);
    }
  }

  lemma DigitsLead(n: nat, tail: string)
    requires tail == "" || tail[0] == '.'
    ensures LeadingDigits(Decimal(n) + tail) == Decimal(n) && Digits(Decimal(n)) == n
  {
    DecimalDigits(n);
    LeadStops(Decimal(n), tail);
  }

  lemma {:induction false} LeadStops(w: string, tail: string)
    requires (forall i | 0 <= i < |w| :: IsDigit(w[i])) && (tail == "" || tail[0] == '.')
    ensures LeadingDigits(w + tail) == w
    decreases |w|
  {
    if w == "" {
      assert w + tail == tail;
    } else {
      assert (w + tail)[1..] == w[1..] + tail;
      LeadStops(w[1..], tail);
    }
  }

  lemma {:induction false} DecimalPrefix(n: nat, k: nat) returns (m: nat)
    requires 0 < k <= |Decimal(n)|
    ensures Decimal(n)[..k] == Decimal(m)
    decreases n
  {
    if k == |Decimal(n)| {
      m := n;
      assert Decimal(n)[..k] == Decimal(n);
    } else {
      m := DecimalPrefix(n / 10, k);
      assert Decimal(n)[..k] == Decimal(n / 10)[..k];
    }
  }

  lemma ManyDigits(n: nat)
    requires |Decimal(n)| >= 63
    ensures n > LONG_MAX
  {
    hide Decimal;
    LongIsShort();
    if n <= LONG_MAX { DecimalLength(n, 19); }
  }

  // ---- expressions ----------------------------------------------------------------------------------------------

  /** The literals. */
  lemma LiteralRule(w: string, rest: seq<Token>)
    requires Head(rest) == Sym(SEMICOLON)
    ensures DeclGrammar.Expression([Number(w)] + rest) == Ok(Literal(if '.' in w then RealLit else IntLit, w), rest)
    ensures DeclGrammar.Expression([Text(w)] + rest) == Ok(Literal(StringLit, w), rest)
    ensures DeclGrammar.Expression([Sym(KW_TRUE)] + rest) == Ok(Literal(BoolLit, "true"), rest)
    ensures DeclGrammar.Expression([Sym(KW_FALSE)] + rest) == Ok(Literal(BoolLit, "false"), rest)
  {
    LeafRead(Number(w), rest);
    LeafRead(Text(w), rest);
    LeafRead(Sym(KW_TRUE), rest);
    LeafRead(Sym(KW_FALSE), rest);
  }

  lemma LeafRead(t: Token, rest: seq<Token>)
    requires Head(rest) == Sym(SEMICOLON) && (t.Number? || t.Text? || t in {Sym(KW_TRUE), Sym(KW_FALSE)})
    ensures DeclGrammar.Expression([t] + rest) == Ok(LeafLiteral(t), rest)
  {
    hide Step, Operand, LeafLiteral;
    var ts := [t] + rest;
    PlainOperand(t, rest);
    assert UnitsLength(rest, 0) == 0 && rest[0..] == rest;
    assert Precedence(Head(rest)) == PREC_NONE;
    assert Extend(Leaf(t), rest, PREC_ASSIGNMENT) == Ok(Leaf(t), rest);
    assert Level(ts, PREC_ASSIGNMENT) == Ok(Leaf(t), rest);
  }

  /** A unit in brackets after a literal or name leaves no trace, whatever it contains. */
  lemma UnitRule(t: Token, inner: seq<Token>, rest: seq<Token>, p: nat)
    requires p > 0 && (t.Number? || t.Text? || t.Name? || t in {Sym(KW_TRUE), Sym(KW_FALSE)})
    requires Head(rest) != Sym(LEFT_BRACKET) && Head(rest) != Sym(COLON_COLON)
    requires ClosesAfter(LEFT_BRACKET, RIGHT_BRACKET, inner, 1, |inner|)
    ensures SameOutcome(Level([t, Sym(LEFT_BRACKET)] + (inner + rest), p), Level([t] + rest, p))
  {
    hide Level, Nesting, Extend, SameOutcome;
    var units := [Sym(LEFT_BRACKET)] + inner;
    var all := units + rest;
    var left := if t.Name? then Names([t.text]) else Leaf(t);
    UnitsAre(inner, rest);
    assert [t, Sym(LEFT_BRACKET)] + (inner + rest) == [t] + all;
    LevelAfter(t, all, p);
    LevelAfter(t, rest, p);
    assert all[1 + |inner|..] == rest && all[..1 + |inner|] == units && rest[0..] == rest;
    SameExtension(Measured(left, units), left, rest, p);
  }

  lemma UnitsAre(inner: seq<Token>, rest: seq<Token>)
    requires Head(rest) != Sym(LEFT_BRACKET) && ClosesAfter(LEFT_BRACKET, RIGHT_BRACKET, inner, 1, |inner|)
    ensures UnitsLength([Sym(LEFT_BRACKET)] + inner + rest, 0) == 1 + |inner| && UnitsLength(rest, 0) == 0
  {
    hide Nesting;
    ClosesPrefix(inner, rest);
    UnitsEnd(inner + rest, 1, |inner|);
    assert (inner + rest)[|inner|..] == rest;
    assert ([Sym(LEFT_BRACKET)] + inner + rest)[1..] == inner + rest;
  }

  lemma LevelAfter(t: Token, ts: seq<Token>, p: nat)
    requires p > 0 && (t.Number? || t.Text? || t.Name? || t in {Sym(KW_TRUE), Sym(KW_FALSE)})
    requires Head(ts) != Sym(COLON_COLON)
    ensures var left, n := if t.Name? then Names([t.text]) else Leaf(t), UnitsLength(ts, 0);
      Level([t] + ts, p) == Extend(if n == 0 then left else Measured(left, ts[..n]), ts[n..], p)
  {
    hide Operand, Extend;
    PlainOperand(t, ts);
  }

  lemma PlainOperand(t: Token, rest: seq<Token>)
    requires t.Number? || t.Text? || t.Name? || t in {Sym(KW_TRUE), Sym(KW_FALSE)}
    requires Head(rest) != Sym(COLON_COLON)
    ensures Operand([t] + rest) == Ok(if t.Name? then Names([t.text]) else Leaf(t), rest)
  {
    hide Grouping;
    assert ([t] + rest)[1..] == rest;
  }

  /** Both fail, or both read the same syntax tree and leave the same tokens. */
  predicate SameOutcome(a: Result<Tree>, b: Result<Tree>) {
    a.Ok? == b.Ok? && (a.Ok? ==> a.rest == b.rest && Erase(a.value) == Erase(b.value))
  }

  lemma {:induction false} SameExtension(a: Tree, b: Tree, ts: seq<Token>, p: nat)
    requires p > 0 && Erase(a) == Erase(b)
    ensures SameOutcome(Extend(a, ts, p), Extend(b, ts, p))
    decreases |ts|
  {
    hide Step, Erase;
    if Precedence(Head(ts)) >= p {
      SameStep(a, b, ts);
      var ra, rb := Step(a, ts), Step(b, ts);
      if ra.Ok? { SameExtension(ra.value, rb.value, ra.rest, p); }
    }
  }

  lemma SameStep(a: Tree, b: Tree, ts: seq<Token>)
    requires Precedence(Head(ts)) > 0 && Erase(a) == Erase(b)
    ensures SameOutcome(Step(a, ts), Step(b, ts))
  {
    hide Level, Arguments, Precedence;
  }

  /** The run of brackets ends where the first one is closed, unless another one follows. */
  lemma {:induction false} UnitsEnd(ts: seq<Token>, depth: nat, n: nat)
    requires ClosesAfter(LEFT_BRACKET, RIGHT_BRACKET, ts, depth, n)
    ensures UnitsLength(ts, depth) == n + UnitsLength(ts[n..], 0)
    decreases |ts|
  {
    hide Nesting;
    EmptyNesting(LEFT_BRACKET, RIGHT_BRACKET, ts);
    if n > 0 {
      NestingStep(LEFT_BRACKET, RIGHT_BRACKET, ts, n);
      forall j | 0 <= j < n - 1 ensures Nesting(LEFT_BRACKET, RIGHT_BRACKET, ts[1..][..j]) + Deeper(ts[0], depth) > 0 {
        NestingStep(LEFT_BRACKET, RIGHT_BRACKET, ts, j + 1);
      }
      assert Nesting(LEFT_BRACKET, RIGHT_BRACKET, ts[..0]) + depth > 0;
      UnitsEnd(ts[1..], Deeper(ts[0], depth), n - 1);
      assert ts[1..][n - 1..] == ts[n..];
    } else {
      assert ts[0..] == ts;
    }
  }

  // ---- metadata and prefixes ------------------------------------------------------------------------------------

  /** A metadata application before a declaration leaves no trace. */
  lemma MetadataRule(mark: Kind, w: string, ts: seq<Token>)
    requires mark == HASH || mark == AT_SIGN
    requires !StartsMetadata(Head(ts)) && Head(ts) != Sym(COLON_COLON)
    requires mark == AT_SIGN ==> Head(ts) !in {Sym(KW_ABOUT), Sym(LEFT_BRACE), Sym(SEMICOLON)}
    ensures Declaration([Sym(mark), Name(w)] + ts) == Declaration(ts)
  {
    hide Declaration;
    var all := [Sym(mark), Name(w)] + ts;
    assert all[1..] == [Name(w)] + ts && all[1..][1..] == ts;
    assert OneMetadata(all) == (false, ts);
    assert Metadata(false, ts) == (false, ts) == Metadata(false, all);
    SameDeclaration(all, ts);
  }

  /** With a semicolon it may also stand alone at the end of a body. */
  lemma MetadataStatementRule(w: string, ts: seq<Token>)
    requires !StartsMetadata(Head(ts))
    ensures Declaration([Sym(AT_SIGN), Name(w), Sym(SEMICOLON)] + ts) ==
      if ts == [] || ts[0] == Sym(RIGHT_BRACE) then Ok(None, ts) else Declaration(ts)
  {
    hide Prefixed, DocRest;
    var all := [Sym(AT_SIGN), Name(w), Sym(SEMICOLON)] + ts;
    assert all[1..] == [Name(w), Sym(SEMICOLON)] + ts && all[1..][1..] == [Sym(SEMICOLON)] + ts;
    assert ([Sym(SEMICOLON)] + ts)[1..] == ts;
    assert OneMetadata(all) == (true, ts);
    assert Metadata(true, ts) == (true, ts) && Metadata(false, ts) == (false, ts) && Metadata(false, all) == (true, ts);
  }

  /** Only features take directions and modifiers; of the statements `include`, `variant`, `variation` and `constraint`
      do too, and attributes take modifiers. */
  lemma StatementPrefixes(k: Kind, v: Visibility, d: Direction, m: Modifiers, ts: seq<Token>)
    requires IsStatement(k) && k !in {KW_DOC, KW_INCLUDE, KW_VARIANT, KW_VARIATION, KW_CONSTRAINT}
    requires d != Undirected || (m != PLAIN && k != KW_ATTRIBUTE) || (v != DefaultVisibility && k == KW_COMMENT)
    ensures Body(v, d, m, [Sym(k)] + ts) == Fail
  {
    hide Modelled, AttributeOrDef, NamedBody, DefinitionOrUsage, AttributeRest, UnmodelledRest;
    NotPlain(k);
    if !IsModelled(k) && k != KW_ATTRIBUTE { PrefixlessPrefixes(k, v, d, m, ([Sym(k)] + ts)[1..]); }
  }

  lemma PrefixlessPrefixes(k: Kind, v: Visibility, d: Direction, m: Modifiers, ts: seq<Token>)
    requires IsStatement(k) && !IsModelled(k)
    requires k !in {KW_DOC, KW_INCLUDE, KW_VARIANT, KW_VARIATION, KW_CONSTRAINT, KW_ATTRIBUTE}
    requires d != Undirected || m != PLAIN || (v != DefaultVisibility && k == KW_COMMENT)
    ensures UnmodelledRest(k, v, d, m, ts) == Fail
  {
    hide PrefixlessRest;
    IsOneOfThem(k);
    hide IsPrefixless;
  }

  lemma IsOneOfThem(k: Kind)
    requires IsStatement(k) && !IsModelled(k)
    requires k !in {KW_DOC, KW_INCLUDE, KW_VARIANT, KW_VARIATION, KW_CONSTRAINT, KW_ATTRIBUTE}
    ensures IsPrefixless(k)
  {
  }

  /** Of the modifiers only `abstract` may stand before a definition. */
  lemma DefinitionPrefixes(k: Kind, v: Visibility, d: Direction, m: Modifiers, ts: seq<Token>)
    requires d != Undirected || m !in {PLAIN, Modifiers(false, true, false, false)}
    ensures DefinitionOrUsage(k, v, d, m, [Sym(KW_DEF)] + ts) == Fail
  {
    hide UsageRest, DefinitionRest;
  }

  // ---- transitions and targets ----------------------------------------------------------------------------------

  /** The event a transition accepts: its type and its port are passed over, and so is everything behind `at`, `when` or
      a word that is no name. */
  lemma AcceptRule(w: string, t: string, p: string, rest: seq<Token>)
    requires w != "at" && w != "when" && Head(rest) in {Sym(KW_IF), Sym(KW_DO), Sym(KW_THEN)}
    ensures var q := Some(QName(false, [w]));
      && Accept([Sym(KW_ACCEPT), Name(w)] + rest) == Ok(q, rest)
      && Accept([Sym(KW_ACCEPT), Name(w), Sym(COLON), Name(t)] + rest) == Ok(q, rest)
      && Accept([Sym(KW_ACCEPT), Name(w), Name("via"), Name(p)] + rest) == Ok(q, rest)
      && Accept([Sym(KW_ACCEPT), Name(w), Sym(COLON), Name(t), Name("via"), Name(p)] + rest) == Ok(q, rest)
  {
    hide Accept, QualifiedName;
    var via := [Name("via"), Name(p)] + rest;
    PlainName(p, rest);
    assert via[1..] == [Name(p)] + rest;
    assert PortOf(via).Ok? && PortOf(via).rest == rest && PortOf(rest) == Ok(None, rest);
    AcceptTyped(w, t, rest);
    AcceptTyped(w, t, via);
    assert [Sym(KW_ACCEPT), Name(w), Name("via"), Name(p)] + rest == [Sym(KW_ACCEPT), Name(w)] + via;
    assert [Sym(KW_ACCEPT), Name(w), Sym(COLON), Name(t), Name("via"), Name(p)] + rest
      == [Sym(KW_ACCEPT), Name(w), Sym(COLON), Name(t)] + via;
  }

  lemma PlainName(w: string, ts: seq<Token>)
    requires !IsDot(Head(ts))
    ensures QualifiedName([Name(w)] + ts) == Ok(QName(false, [w]), ts)
  {
    assert ([Name(w)] + ts)[1..] == ts;
  }

  lemma AcceptTyped(w: string, t: string, ts: seq<Token>)
    requires w != "at" && w != "when" && !IsDot(Head(ts)) && Head(ts) != Sym(COLON) && PortOf(ts).Ok?
    ensures Accept([Sym(KW_ACCEPT), Name(w)] + ts) == Ok(Some(QName(false, [w])), PortOf(ts).rest)
    ensures Accept([Sym(KW_ACCEPT), Name(w), Sym(COLON), Name(t)] + ts) == Ok(Some(QName(false, [w])), PortOf(ts).rest)
  {
    hide QualifiedName, PortOf;
    var typed := [Sym(COLON), Name(t)] + ts;
    PlainName(t, ts);
    PlainName(w, ts);
    PlainName(w, typed);
    assert typed[1..] == [Name(t)] + ts;
    assert ([Sym(KW_ACCEPT), Name(w)] + ts)[1..] == [Name(w)] + ts;
    var all := [Sym(KW_ACCEPT), Name(w), Sym(COLON), Name(t)] + ts;
    assert all[1..] == [Name(w)] + typed;
  }

  lemma TriggerRule(t: Token, ts: seq<Token>)
    requires t in {Name("at"), Name("when")} || !(t.Name? || t == Sym(KW_START) || t == Sym(KW_DONE))
    ensures var r, all := Accept([Sym(KW_ACCEPT), t] + ts), [t] + ts;
      r.Ok? && r.value == None && IsFirstStop(all, {KW_IF, KW_DO, KW_THEN, SEMICOLON}, 0, r.rest)
  {
    var all := [t] + ts;
    assert ([Sym(KW_ACCEPT), t] + ts)[1..] == all;
    FromRule({KW_IF, KW_DO, KW_THEN, SEMICOLON}, all, 0);
    assert all[0..] == all;
  }

  /** An effect that sends something is passed over. */
  lemma SendRule(ts: seq<Token>)
    ensures var r, all := Effect([Sym(KW_DO), Name("send")] + ts), [Name("send")] + ts;
      r.Ok? && r.value == None && IsFirstStop(all, {KW_THEN, SEMICOLON}, 0, r.rest)
  {
    var all := [Name("send")] + ts;
    assert ([Sym(KW_DO), Name("send")] + ts)[1..] == all;
    FromRule({KW_THEN, SEMICOLON}, all, 0);
    assert all[0..] == all;
  }

  /** Targets of `then`: the built-in steps, and forks and joins, whose name makes them actions. */
  lemma TargetRule(w: string, x: string, rest: seq<Token>)
    requires w == "fork" || w == "join"
    ensures ThenTarget([Sym(KW_START)] + rest) == Ok(Link(QName(false, ["start"])), rest)
    ensures ThenTarget([Sym(KW_DONE)] + rest) == Ok(Link(QName(false, ["done"])), rest)
    ensures ThenTarget([Name(w), Name(x)] + rest)
      == Ok(Usage(DefaultVisibility, KW_ACTION, Undirected, PLAIN, x, BARE, [], None, []), rest)
    ensures !Head(rest).Name? ==> ThenTarget([Name(w)] + rest) == Ok(Link(QName(false, [w])), rest)
  {
    hide InlineRest, Reference;
    assert ([Sym(KW_START)] + rest)[1..] == rest && ([Sym(KW_DONE)] + rest)[1..] == rest && ([Name(w)] + rest)[1..] == rest;
    var named := [Name(w), Name(x)] + rest;
    assert named[1..] == [Name(x)] + rest && named[2..] == rest;
    assert BARE.(types := []) == BARE;
  }
}
