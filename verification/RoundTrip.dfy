/** Printing an expression with the emitter and reading the text back with the scanner and
    the parser. */
module RoundTrip {
  import opened Tokens
  import opened Lexical
  import opened Scanning
  import opened Syntax
  import opened Pratt
  import opened Printing
  import opened Rereading
  import opened Settling
  import opened TextLexing
  import opened ParserCommon
  import opened ExprParser
  import opened Emitter

  lemma CleanConcat(a: seq<Token>, b: seq<Token>)
    requires Clean(a) && Clean(b)
    ensures Clean(a + b)
  {
  }

  lemma CleanNames(parts: seq<string>)
    ensures Clean(NamesYield(parts)) && Commentless(NamesYield(parts))
  {
  }

  /** Printing never produces a scanner error. */
  lemma {:induction false} SpellClean(e: Expr)
    ensures Clean(Spell(e))
    ensures Shaped(e) ==> Commentless(Spell(e))
    decreases e, 1
  {
    hide Clean;
    match e
    case Literal(kind, lexeme) => CleanOne(LiteralToken(kind, lexeme));
    case Path(parts) => CleanNames(parts);
    case Binary(op, l, r) =>
      SpellClean(l);
      SpellClean(r);
      CleanOne(Sym(LEFT_PAREN));
      CleanOne(Sym(op));
      CleanOne(Sym(RIGHT_PAREN));
      CleanConcat([Sym(LEFT_PAREN)], Spell(l));
      CleanConcat([Sym(LEFT_PAREN)] + Spell(l), [Sym(op)]);
      CleanConcat([Sym(LEFT_PAREN)] + Spell(l) + [Sym(op)], Spell(r));
      CleanConcat([Sym(LEFT_PAREN)] + Spell(l) + [Sym(op)] + Spell(r), [Sym(RIGHT_PAREN)]);
    case Unary(op, x) =>
      SpellClean(x);
      CleanOne(Sym(op));
      CleanConcat([Sym(op)], Spell(x));
    case Call(f, args) =>
      SpellClean(f);
      SpellListClean(e, args);
      CleanOne(Sym(LEFT_PAREN));
      CleanOne(Sym(RIGHT_PAREN));
      CleanConcat(Spell(f), [Sym(LEFT_PAREN)]);
      CleanConcat(Spell(f) + [Sym(LEFT_PAREN)], SpellList(args));
      CleanConcat(Spell(f) + [Sym(LEFT_PAREN)] + SpellList(args), [Sym(RIGHT_PAREN)]);
    case Tuple(items) =>
      SpellListClean(e, items);
      CleanOne(Sym(LEFT_PAREN));
      CleanOne(Sym(RIGHT_PAREN));
      CleanConcat([Sym(LEFT_PAREN)], SpellList(items));
      CleanConcat([Sym(LEFT_PAREN)] + SpellList(items), [Sym(RIGHT_PAREN)]);
    case Member(x, m) =>
      SpellClean(x);
      CleanOne(Sym(PERIOD));
      CleanOne(Name(m));
      CleanConcat([Sym(PERIOD)], [Name(m)]);
      assert [Sym(PERIOD)] + [Name(m)] == [Sym(PERIOD), Name(m)];
      CleanConcat(Spell(x), [Sym(PERIOD), Name(m)]);
  }

  lemma {:induction false} SpellListClean(e: Expr, items: seq<Expr>)
    requires forall i | 0 <= i < |items| :: items[i] < e
    ensures Clean(SpellList(items))
    ensures (forall i | 0 <= i < |items| :: Shaped(items[i])) ==> Commentless(SpellList(items))
    decreases e, 0, |items|
  {
    hide Clean;
    if items == [] {
      CleanNone();
    } else {
      var front, last := items[..|items| - 1], items[|items| - 1];
      SpellClean(last);
      SpellListClean(e, front);
      CleanOne(Sym(COMMA));
      CleanConcat(SpellList(front), [Sym(COMMA)]);
      CleanConcat(SpellList(front) + [Sym(COMMA)], Spell(last));
    }
  }

  lemma CleanOne(t: Token)
    requires !t.Bad?
    ensures Clean([t])
  {
  }

  lemma CleanNone()
    ensures Clean([])
  {
  }

  /** The whole trip through characters: what comes back is the tree `Reread` computes,
      with no error and nothing left over, and it is the tree that was printed exactly when
      no unary node is directly a left operand of `**`, a callee or a dot target. */
  method PrintAndParse(e: Expr) returns (back: Expr, clean: bool)
    requires Shaped(e) && Named(e) && IsSource(ExprText(e))
    ensures clean && back == Reread(e)
    ensures back == e <==> Stable(e)
  {
    hide Clean, IsSuffix, Lookahead, Lex, Level, ExprText, Spell, Shaped, Named, Stable, IsSource;
    var printer := new Printer();
    printer.EmitExpression(e);
    var text := printer.out;
    assert text == ExprText(e);
    LexWhole(e);
    SpellClean(e);
    SpellReadsBack(e, []);
    assert Spell(e) + [] == Spell(e);
    var p := new Parser(text);
    ghost var t;
    back, t := Expression(p);
    clean := !p.hadError && p.current == Sym(EOF);
    RereadIdentity(e);
  }
}
