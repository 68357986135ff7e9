/** What the same words mean behind different keywords of the declaration grammar. */
module KeywordForms {
  import opened Basics
  import opened Tokens
  import opened Outline
  import opened Pratt
  import opened DeclGrammar
  import opened Beginnings

  /** A direction may stand before parts, ports and items, and before a name without a keyword. */
  lemma DirectionRule(k: Kind, v: Visibility, d: Direction, m: Modifiers, w: string)
    requires IsFeature(k) && d != Undirected
    ensures Body(v, d, m, Short(k, w))
      == if k in {KW_PART, KW_PORT, KW_ITEM} then Ok(Some(Usage(v, k, d, m, w, BARE, [], None, [])), []) else Fail
  {
    hide UsageRest, DefinitionOf;
    var ts := [Name(w)] + [Sym(SEMICOLON)];
    assert Short(k, w)[1..] == ts && [Sym(SEMICOLON)][1..] == [];
    NamedUsage(k, v, d, m, w, [Sym(SEMICOLON)]);
    PlainKind(k);
  }

  lemma PlainKind(k: Kind)
    ensures IsFeature(k) <==> k in PLAIN_KINDS
  {
  }

  lemma NamedDirection(v: Visibility, d: Direction, m: Modifiers, w: string)
    requires d != Undirected && w != "fork" && w != "join"
    ensures Body(v, d, m, [Name(w), Sym(SEMICOLON)]) == Ok(Some(Usage(v, KW_REF, d, m, w, BARE, [], None, [])), [])
  {
    hide UsageRest;
    assert [Name(w)] + [Sym(SEMICOLON)] == [Name(w), Sym(SEMICOLON)] && [Sym(SEMICOLON)][1..] == [];
    NamedUsage(KW_REF, v, d, m, w, [Sym(SEMICOLON)]);
  }

  // ---- ends -----------------------------------------------------------------------------------------------------

  function AToB(a: string, b: string): seq<Token> { [Name(a), Sym(KW_TO), Name(b), Sym(SEMICOLON)] }

  lemma TwoNames(a: string, b: string)
    ensures TwoEnds(AToB(a, b)) == Ok([QName(false, [a]), QName(false, [b])], [Sym(SEMICOLON)])
  {
    hide Reference;
    var end := [Sym(SEMICOLON)];
    var to := [Sym(KW_TO)] + ([Name(b)] + end);
    OneName(b, end);
    OneName(a, to);
    assert AToB(a, b) == [Name(a)] + to && to[1..] == [Name(b)] + end;
  }

  /** The word that introduces the two ends of a feature. */
  predicate Connects(k: Kind, t: Kind) {
    || (t == KW_CONNECT && (k == KW_CONNECTION || k == KW_INTERFACE))
    || (t == KW_FROM && (k == KW_FLOW || k == KW_MESSAGE))
    || (t == KW_ALLOCATE && k == KW_ALLOCATION)
  }

  /** `t a to b` behind a named feature are its ends exactly for the word that goes with its keyword. */
  lemma EndsRule(k: Kind, w: string, t: Kind, a: string, b: string)
    requires IsFeature(k) && w != ""
    ensures var r := Ends(k, w, None, BARE, [Sym(t)] + AToB(a, b));
      if Connects(k, t) then r == Ok([QName(false, [a]), QName(false, [b])], [Sym(SEMICOLON)])
      else r == Ok([], [Sym(t)] + AToB(a, b))
  {
    hide TwoEnds, Reference;
    assert ([Sym(t)] + AToB(a, b))[1..] == AToB(a, b);
    TwoNames(a, b);
  }

  /** A flow or message with a name is read with its item, and no other feature has one. */
  lemma ItemRule(k: Kind, a: string, f: Features)
    requires IsFeature(k)
    ensures var ts := [Sym(KW_OF), Name(a), Sym(SEMICOLON)];
      OfClause(k, f, ts) == if k == KW_FLOW || k == KW_MESSAGE then Ok(f.(types := f.types + [QName(false, [a])]), [Sym(SEMICOLON)])
                            else Ok(f, ts)
  {
    var ts := [Sym(KW_OF), Name(a), Sym(SEMICOLON)];
    var end := [Sym(SEMICOLON)];
    assert ts[1..] == [Name(a)] + end && ([Name(a)] + end)[1..] == end && ts[2..] == end;
    assert MoreParts(QName(false, [a]), end) == Ok(QName(false, [a]), end);
    assert PartsBy(COLON_COLON, QName(false, [a]), end) == Ok(QName(false, [a]), end);
  }

  // ---- names ----------------------------------------------------------------------------------------------------

  /** What can stand where the name of a usage is missing. */
  lemma AnonymousRule(k: Kind, t: Kind, ts: seq<Token>)
    requires t != HASH && t != AT_SIGN && t != LESS
    ensures UsageName(k, [Sym(t)] + ts).Ok? <==>
      || t == COLON || t == LEFT_BRACKET || t == COLON_GREATER || t == KW_SPECIALIZES || t == KW_SUBSETS
      || t == COLON_GREATER_GREATER || t == KW_REDEFINES || t == EQUAL || t == KW_DEFAULT
      || (t == KW_CONNECT && k == KW_CONNECTION)
      || ((t == KW_FROM || t == KW_OF) && (k == KW_FLOW || k == KW_MESSAGE))
      || k == KW_OBJECTIVE || k == KW_CONSTRAINT
  {
    var all := [Sym(t)] + ts;
    assert Metadata(false, all) == (false, all) && ShortName(all) == Ok((), all);
  }

  // ---- words that leave no trace ------------------------------------------------------------------------------

  /** After the closing bracket of a multiplicity exactly these two words are passed. */
  lemma {:induction false} OrderingRule(ts: seq<Token>)
    ensures var rest := SkipOrdering(ts);
      && Pratt.Head(rest) !in {Sym(KW_ORDERED), Sym(KW_NONUNIQUE)}
      && |rest| <= |ts| && rest == ts[|ts| - |rest|..]
      && forall i | 0 <= i < |ts| - |rest| :: ts[i] in {Sym(KW_ORDERED), Sym(KW_NONUNIQUE)}
    decreases |ts|
  {
    if ts != [] && ts[0] in {Sym(KW_ORDERED), Sym(KW_NONUNIQUE)} { OrderingRule(ts[1..]); }
  }

  /** Only actions and states have a tail, which one of three words introduces. */
  lemma TailRule(k: Kind, ts: seq<Token>)
    ensures var rest := AfterTail(k, ts);
      if k in {KW_ACTION, KW_STATE} && Head(ts) in {Sym(KW_ACCEPT), Name("send"), Name("parallel")}
      then IsFirstStop(ts, {SEMICOLON, LEFT_BRACE}, 1, rest) else rest == ts
  {
    if ts != [] { FromRule({SEMICOLON, LEFT_BRACE}, ts, 1); }
  }

  predicate StopsAt(stops: set<Kind>, t: Token) { t.Sym? && t.kind in stops }

  /** `rest` is what is left of `ts` from the first of the tokens `stops` on, not before position `low`. */
  ghost predicate IsFirstStop(ts: seq<Token>, stops: set<Kind>, low: nat, rest: seq<Token>) {
    && low <= |ts| && |rest| <= |ts| - low && rest == ts[|ts| - |rest|..]
    && (rest != [] ==> StopsAt(stops, rest[0]))
    && forall i | low <= i < |ts| - |rest| :: !StopsAt(stops, ts[i])
  }

  lemma {:induction false} FromRule(stops: set<Kind>, ts: seq<Token>, low: nat)
    requires low <= |ts|
    ensures IsFirstStop(ts, stops, low, From(stops, ts[low..]))
    decreases |ts| - low
  {
    if low < |ts| && !StopsAt(stops, ts[low]) {
      assert ts[low..][1..] == ts[low + 1..];
      FromRule(stops, ts, low + 1);
    }
  }

  // ---- other keywords -------------------------------------------------------------------------------------------

  /** Behind `variant` these keywords declare their own kind. */
  lemma VariantRule(k: Kind, w: string)
    requires IsFeature(k)
    ensures Declaration([Sym(KW_VARIANT)] + Short(k, w)) == Ok(Some(UsageNamed(k, w)), []) <==>
      k in {KW_PART, KW_PORT, KW_ITEM, KW_ACTION, KW_STATE}
  {
    hide Declaration, DefinitionOrUsage, UnmodelledRest;
    ByKeyword(KW_VARIANT, Short(k, w));
    assert UnmodelledRest(KW_VARIANT, DefaultVisibility, Undirected, PLAIN, Short(k, w))
      == VariantRest(KW_VARIANT, DefaultVisibility, Undirected, PLAIN, Short(k, w)) by { VariantIs(Short(k, w)); }
    UsageRule(k, w);
    assert Head(Short(k, w)) == Sym(k);
  }

  lemma VariantIs(ts: seq<Token>)
    ensures UnmodelledRest(KW_VARIANT, DefaultVisibility, Undirected, PLAIN, ts)
      == VariantRest(KW_VARIANT, DefaultVisibility, Undirected, PLAIN, ts)
  {
    hide VariantRest;
  }

  /** The keywords that `return` passes over. */
  lemma ReturnRule(k: Kind, w: string)
    requires IsFeature(k) || IsStatement(k) || IsModifier(k) || IsPrefix(k)
    ensures ReturnRest(Short(k, w)).Ok? <==> k in {KW_ATTRIBUTE, KW_PART, KW_ITEM, KW_PORT, KW_REF}
  {
    hide ReturnRest;
    if k in {KW_ATTRIBUTE, KW_PART, KW_ITEM, KW_PORT, KW_REF} { ReturnsNamed(k, w); } else { NoReturn(k, Short(k, w)); }
  }

  lemma ReturnsNamed(k: Kind, w: string)
    requires k in {KW_ATTRIBUTE, KW_PART, KW_ITEM, KW_PORT, KW_REF}
    ensures ReturnRest(Short(k, w)).Ok?
  {
    hide NameList, Expression;
    var end := [Sym(SEMICOLON)];
    assert Short(k, w)[1..] == [Name(w)] + end && ([Name(w)] + end)[1..] == end;
    assert OptionalTypes(end) == Ok([], end) && ReturnSupers(end) == Ok([], end) && Value(end, false) == Ok(None, end);
  }

  lemma NoReturn(k: Kind, ts: seq<Token>)
    requires k != COLON && k != COLON_GREATER && k != KW_SPECIALIZES && k != COLON_GREATER_GREATER && k != KW_REDEFINES
    requires k != EQUAL && k != SEMICOLON
    requires k !in {KW_ATTRIBUTE, KW_PART, KW_ITEM, KW_PORT, KW_REF} && Head(ts) == Sym(k)
    ensures !ReturnRest(ts).Ok?
  {
    hide NameList, Expression;
    assert OptionalTypes(ts) == Ok([], ts) && ReturnSupers(ts) == Ok([], ts) && Value(ts, false) == Ok(None, ts);
  }

  /** The tokens that begin a parameter, documentation or a comment in the body of a constraint. */
  predicate IsParameter(t: Token) {
    || t.DocBody?
    || (t.Sym? && (t.kind in {KW_ATTRIBUTE, KW_DOC, KW_COMMENT} || IsPrefix(t.kind) || IsModifier(t.kind)))
  }

  function Parameter(ms: seq<Decl>, hasBody: bool, r: Result<Option<Decl>>): Result<seq<Decl>> {
    match r
    case Fail => Fail
    case Ok(d, rest) => ConstraintMembers(Append(ms, d), hasBody, rest)
  }

  /** In the body of a constraint these are read as declarations; once its expression is read, nothing else may come
      before the closing brace. */
  lemma ParameterRule(ms: seq<Decl>, hasBody: bool, t: Token, ts: seq<Token>)
    requires t != Sym(RIGHT_BRACE)
    ensures IsParameter(t) ==> ConstraintMembers(ms, hasBody, [t] + ts) == Parameter(ms, hasBody, Declaration([t] + ts))
    ensures !IsParameter(t) ==> !ConstraintMembers(ms, true, [t] + ts).Ok?
  {
    hide Declaration, Expression;
  }
}
