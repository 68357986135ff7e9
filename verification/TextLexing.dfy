/** Scanning the printed form of an expression gives back the tokens it was printed from. */
module TextLexing {
  import opened Tokens
  import opened Lexical
  import opened Syntax
  import opened Pratt
  import opened Printing
  import opened Sequences

  /** The text `x` stands at position `i` of `s`. */
  predicate Occurs(s: string, i: nat, x: string) {
    i + |x| <= |s| && s[i..i + |x|] == x
  }

  lemma OccursChars(s: string, i: nat, x: string)
    requires Occurs(s, i, x)
    ensures forall k | 0 <= k < |x| :: s[i + k] == x[k]
  {
    forall k | 0 <= k < |x| ensures s[i + k] == x[k] {
      assert s[i..i + |x|][k] == x[k];
    }
  }

  lemma OccursSplit(s: string, i: nat, a: string, b: string)
    requires Occurs(s, i, a + b)
    ensures Occurs(s, i, a) && Occurs(s, i + |a|, b)
  {
    OccursChars(s, i, a + b);
    assert forall k | 0 <= k < |a| :: (a + b)[k] == a[k];
    assert forall k | 0 <= k < |b| :: (a + b)[|a| + k] == b[k];
  }

  /** `b` follows `a`, and its first characters can be read off. */
  lemma OccursNext(s: string, i: nat, a: string, b: string)
    requires Occurs(s, i, a + b) && b != ""
    ensures Occurs(s, i, a) && Occurs(s, i + |a|, b)
    ensures i + |a| < |s| && At(s, i + |a|) == s[i + |a|] == b[0]
    ensures |b| > 1 ==> i + |a| + 1 < |s| && At(s, i + |a| + 1) == s[i + |a| + 1] == b[1]
  {
    OccursSplit(s, i, a, b);
    OccursChars(s, i + |a|, b);
  }

  /** The tokens between positions `i` and `j` are `ts`. */
  predicate Lexes(s: string, i: nat, j: nat, ts: seq<Token>) {
    i <= j <= |s| && Lex(s, i, false) == ts + Lex(s, j, false)
  }

  lemma LexesJoin(s: string, i: nat, j: nat, k: nat, a: seq<Token>, b: seq<Token>)
    requires Lexes(s, i, j, a) && Lexes(s, j, k, b)
    ensures Lexes(s, i, k, a + b)
  {
  }

  lemma LexOne(s: string, i: nat, t: Token)
    requires i < |s| && TriviaUnit(s, i) == i && ScanOne(s, i).token == t != Sym(KW_DOC)
    ensures Lexes(s, i, ScanOne(s, i).end, [t])
  {
    hide ScanOne, TriviaUnit;
  }

  /** Which scanner arm reads the token at `i`, by its first character. */
  lemma FirstCharacter(s: string, i: nat)
    requires i < |s| && !IsBlank(s[i]) && s[i] != '/'
    ensures TriviaUnit(s, i) == i
    ensures ScanOne(s, i) == ScanArm(s, i)
  {
    hide WordToken, NumberEnd, ScanPunctuation;
  }

  function ScanArm(s: string, i: nat): Scan
    requires i < |s|
  {
    if IsAlpha(s[i]) then Scan(WordToken(s[i..SpanEnd(s, i, IsWordChar)]), SpanEnd(s, i, IsWordChar))
    else if IsDigit(s[i]) then Scan(Number(s[i..NumberEnd(s, i)]), NumberEnd(s, i))
    else ScanPunctuation(s, i)
  }

  lemma LexBlank(s: string, i: nat)
    requires i < |s| && s[i] == ' '
    ensures Lexes(s, i, i + 1, [])
  {
    hide ScanOne;
    assert TriviaEnd(s, i) == TriviaEnd(s, i + 1);
    assert [] + Lex(s, i + 1, false) == Lex(s, i + 1, false);
  }

  /** A character that is a token wherever it stands. */
  lemma LexChar(s: string, i: nat, c: char)
    requires Occurs(s, i, [c]) && c in "(),;{}[]~+-"
    ensures Lexes(s, i, i + 1, [SingleToken(c)])
  {
    hide ScanOne, TriviaUnit;
    OccursChars(s, i, [c]);
    assert s[i] == c;
    FirstCharacter(s, i);
    LexOne(s, i, SingleToken(c));
  }

  /** Nothing at `j` continues a name or a number that ends there. */
  predicate SafeEnd(s: string, j: nat) {
    !IsWordChar(At(s, j)) && !(At(s, j) == '.' && IsDigit(At(s, j + 1)))
  }

  lemma SeparatorIsSafe(s: string, j: nat)
    requires At(s, j) == ' ' || At(s, j) == ',' || At(s, j) == ')' || At(s, j) == '(' || At(s, j) == ':'
    ensures SafeEnd(s, j) && !IsWordChar(At(s, j))
  {
  }

  // ---- names and literals ------------------------------------------------------------

  lemma LexBareWord(s: string, i: nat, w: string)
    requires Occurs(s, i, w) && IsBareIdentifier(w) && !IsWordChar(At(s, i + |w|))
    requires WordToken(w) != Sym(KW_DOC)
    ensures Lexes(s, i, i + |w|, [WordToken(w)])
  {
    hide ScanOne, TriviaUnit, WordToken;
    OccursChars(s, i, w);
    assert forall k | i <= k < i + |w| :: s[k] == w[k - i];
    SpanExact(s, i, i + |w|, IsWordChar);
    FirstCharacter(s, i);
    LexOne(s, i, WordToken(w));
  }

  lemma LexQuotedName(s: string, i: nat, w: string)
    requires Occurs(s, i, "'" + w + "'") && '\'' !in w
    ensures Lexes(s, i, i + |w| + 2, [Name(w)])
  {
    hide ScanOne, TriviaUnit, WordToken;
    var x := "'" + w + "'";
    var j := i + 1 + |w|;
    OccursChars(s, i, x);
    assert s[i] == x[0] && s[j] == x[|w| + 1];
    assert forall k | i + 1 <= k < j :: s[k] == x[k - i] == w[k - i - 1];
    SpanExact(s, i + 1, j, NotApostrophe);
    assert s[i + 1..j] == w;
    FirstCharacter(s, i);
    LexOne(s, i, Name(w));
  }

  lemma LexName(s: string, i: nat, w: string)
    requires Occurs(s, i, NameText(w)) && PrintableName(w)
    requires !IsWordChar(At(s, i + |NameText(w)|))
    ensures Lexes(s, i, i + |NameText(w)|, [Name(w)])
  {
    hide KeywordKind, Lex;
    if IsBareIdentifier(w) { LexBareWord(s, i, w); } else { LexQuotedName(s, i, w); }
  }

  /** Printing a name and scanning it gives the name back exactly when it is printable. */
  lemma NameRoundTrip(w: string)
    requires '\'' !in w && '\0' !in w
    ensures Lex(NameText(w), 0, false) == [Name(w)] <==> PrintableName(w)
  {
    hide KeywordKind, ScanOne;
    var s := NameText(w);
    assert s[0..|s|] == s;
    if PrintableName(w) {
      LexName(s, 0, w);
      assert Lex(s, |s|, false) == [];
    } else if w != "" {
      assert forall k | 0 <= k < |s| :: IsWordChar(s[k]);
      SpanExact(s, 0, |s|, IsWordChar);
      FirstCharacter(s, 0);
      assert Lex(s, 0, false)[0] == WordToken(w);
    }
  }

  lemma LexDigits(s: string, i: nat, x: string)
    requires Occurs(s, i, x) && x != "" && AllDigits(x) && SafeEnd(s, i + |x|)
    ensures Lexes(s, i, i + |x|, [Number(x)])
  {
    hide ScanOne, TriviaUnit, WordToken;
    OccursChars(s, i, x);
    assert forall k | i <= k < i + |x| :: s[k] == x[k - i];
    assert s[i] == x[0];
    SpanExact(s, i, i + |x|, IsDigit);
    FirstCharacter(s, i);
    LexOne(s, i, Number(x));
  }

  lemma LexReal(s: string, i: nat, x: string, d: nat)
    requires Occurs(s, i, x) && IsRealText(x, d) && SafeEnd(s, i + |x|)
    ensures Lexes(s, i, i + |x|, [Number(x)])
  {
    hide ScanOne, TriviaUnit, WordToken, NumberEnd, IsRealText;
    OccursChars(s, i, x);
    RealDigits(s, i, x, d);
    RealEnd(s, i, d, i + |x|);
    FirstCharacter(s, i);
    LexOne(s, i, Number(x));
  }

  /** Where the digits of a real stand in the text. */
  lemma RealDigits(s: string, i: nat, x: string, d: nat)
    requires Occurs(s, i, x) && IsRealText(x, d)
    ensures d + 1 < |x| && i + |x| <= |s| && s[i + d] == '.'
    ensures forall k | i <= k < i + d || i + d < k < i + |x| :: IsDigit(s[k])
  {
    OccursChars(s, i, x);
    assert forall k | i <= k < i + |x| :: s[k] == x[k - i];
    assert forall k | 0 <= k < d :: x[k] == x[..d][k];
    assert forall k | d < k < |x| :: x[k] == x[d + 1..][k - d - 1];
  }

  /** Digits before and after a point are one number. */
  lemma RealEnd(s: string, i: nat, d: nat, j: nat)
    requires i + d + 1 < j <= |s| && s[i + d] == '.' && (j < |s| ==> !IsDigit(s[j]))
    requires forall k | i <= k < i + d || i + d < k < j :: IsDigit(s[k])
    ensures NumberEnd(s, i) == j == SpanEnd(s, i + d + 1, IsDigit)
  {
    SpanExact(s, i + d + 1, j, IsDigit);
    SpanExact(s, i, i + d, IsDigit);
  }

  lemma LexString(s: string, i: nat, x: string)
    requires Occurs(s, i, x) && IsLiteral(StringLit, x)
    ensures Lexes(s, i, i + |x|, [Text(x)])
  {
    hide ScanOne, TriviaUnit, WordToken;
    OccursChars(s, i, x);
    var j := i + |x| - 1;
    assert s[i] == x[0] && s[j] == x[|x| - 1];
    assert forall k | i < k < j :: s[k] == x[k - i] == x[1..|x| - 1][k - i - 1];
    SpanExact(s, i + 1, j, NotQuote);
    FirstCharacter(s, i);
    LexOne(s, i, Text(x));
  }

  lemma TruthWords()
    ensures WordToken("true") == Sym(KW_TRUE) && WordToken("false") == Sym(KW_FALSE)
    ensures IsBareIdentifier("true") && IsBareIdentifier("false")
  {
  }

  lemma LexLiteral(s: string, i: nat, kind: LiteralKind, x: string)
    requires Occurs(s, i, x) && IsLiteral(kind, x) && SafeEnd(s, i + |x|)
    ensures Lexes(s, i, i + |x|, [LiteralToken(kind, x)])
  {
    hide Lex, KeywordKind;
    match kind {
      case IntLit => LexDigits(s, i, x);
      case RealLit =>
        var d: nat :| IsRealText(x, d);
        LexReal(s, i, x, d);
      case StringLit => LexString(s, i, x);
      case BoolLit =>
        TruthWords();
        LexBareWord(s, i, x);
    }
  }

  // ---- operators and separators ------------------------------------------------------

  lemma OperatorWords()
    ensures WordToken("and") == Sym(KW_AND) && WordToken("or") == Sym(KW_OR)
    ensures WordToken("xor") == Sym(KW_XOR) && WordToken("meta") == Sym(KW_META)
  {
  }

  lemma LexOperator(s: string, i: nat, k: Kind)
    requires IsBinaryOp(k) && Occurs(s, i, OperatorText(k)) && At(s, i + |OperatorText(k)|) == ' '
    ensures Lexes(s, i, i + |OperatorText(k)|, [Sym(k)])
  {
    hide ScanOne, TriviaUnit, WordToken, Lex;
    if k == KW_AND || k == KW_OR || k == KW_XOR || k == KW_META {
      OperatorWords();
      LexBareWord(s, i, OperatorText(k));
    } else if k == SLASH {
      LexSlash(s, i);
    } else {
      OperatorArm(s, i, k);
      LexOne(s, i, Sym(k));
    }
  }

  /** An operator of one or two characters is scanned whole. */
  lemma OperatorArm(s: string, i: nat, k: Kind)
    requires k in {PLUS, MINUS, STAR, STAR_STAR, EQUAL_EQUAL, BANG_EQUAL, LESS, LESS_EQUAL, GREATER, GREATER_EQUAL}
    requires Occurs(s, i, OperatorText(k)) && At(s, i + |OperatorText(k)|) == ' '
    ensures TriviaUnit(s, i) == i < |s| && ScanOne(s, i) == Scan(Sym(k), i + |OperatorText(k)|)
  {
    hide ScanOne, TriviaUnit, WordToken, ScanArm;
    var w := OperatorText(k);
    OccursChars(s, i, w);
    assert s[i] == w[0];
    FirstCharacter(s, i);
    if k == PLUS || k == MINUS { SignArm(s, i, k); } else { PairArm(s, i, k); }
  }

  lemma SignArm(s: string, i: nat, k: Kind)
    requires i < |s| && ((k == PLUS && s[i] == '+') || (k == MINUS && s[i] == '-'))
    ensures ScanArm(s, i) == Scan(Sym(k), i + 1)
  {
    hide WordToken, NumberEnd;
  }

  lemma PairArm(s: string, i: nat, k: Kind)
    requires k in {STAR, STAR_STAR, EQUAL_EQUAL, BANG_EQUAL, LESS, LESS_EQUAL, GREATER, GREATER_EQUAL}
    requires var w := OperatorText(k);
      i + |w| <= |s| && s[i] == w[0] && (|w| == 2 ==> s[i + 1] == w[1]) && (|w| == 1 ==> At(s, i + 1) == ' ')
    ensures ScanArm(s, i) == Scan(Sym(k), i + |OperatorText(k)|)
  {
    hide WordToken, NumberEnd, OperatorText;
    PairText(k);
  }

  lemma PairText(k: Kind)
    requires k in {STAR, STAR_STAR, EQUAL_EQUAL, BANG_EQUAL, LESS, LESS_EQUAL, GREATER, GREATER_EQUAL}
    ensures OperatorText(k) ==
      if k == STAR then "*" else if k == STAR_STAR then "**" else if k == EQUAL_EQUAL then "==" else if k == BANG_EQUAL then "!="
      else if k == LESS then "<" else if k == LESS_EQUAL then "<=" else if k == GREATER then ">" else ">="
  {
  }

  lemma LexSlash(s: string, i: nat)
    requires Occurs(s, i, "/") && At(s, i + 1) == ' '
    ensures Lexes(s, i, i + 1, [Sym(SLASH)])
  {
    hide WordToken, Lex;
    OccursChars(s, i, "/");
    LexOne(s, i, Sym(SLASH));
  }

  lemma LexPrefix(s: string, i: nat, k: Kind)
    requires IsPrefixOp(k) && Occurs(s, i, OperatorText(k)) && At(s, i + 1) != '='
    ensures Lexes(s, i, i + 1, [Sym(k)])
  {
    hide ScanOne, TriviaUnit, WordToken, Lex;
    OccursChars(s, i, OperatorText(k));
    FirstCharacter(s, i);
    LexOne(s, i, Sym(k));
  }

  lemma LexPeriod(s: string, i: nat)
    requires Occurs(s, i, ".") && At(s, i + 1) != '.' && !IsDigit(At(s, i + 1))
    ensures Lexes(s, i, i + 1, [Sym(PERIOD)])
  {
    hide ScanOne, TriviaUnit, WordToken, Lex;
    OccursChars(s, i, ".");
    FirstCharacter(s, i);
    LexOne(s, i, Sym(PERIOD));
  }

  lemma LexColons(s: string, i: nat)
    requires Occurs(s, i, "::") && At(s, i + 2) != '>'
    ensures Lexes(s, i, i + 2, [Sym(COLON_COLON)])
  {
    hide ScanOne, TriviaUnit, WordToken, Lex;
    OccursChars(s, i, "::");
    FirstCharacter(s, i);
    LexOne(s, i, Sym(COLON_COLON));
  }

  /** A printed name starts with a letter, an underscore or an apostrophe. */
  lemma NameOpens(w: string)
    requires PrintableName(w)
    ensures NameText(w) != "" && (IsAlpha(NameText(w)[0]) || NameText(w)[0] == '\'')
  {
  }

  lemma {:induction false} LexPath(s: string, i: nat, parts: seq<string>)
    requires Occurs(s, i, PathText(parts)) && parts != []
    requires forall k | 0 <= k < |parts| :: PrintableName(parts[k])
    requires !IsWordChar(At(s, i + |PathText(parts)|))
    ensures Lexes(s, i, i + |PathText(parts)|, NamesYield(parts))
    decreases |parts|, 1
  {
    hide KeywordKind, Lex, Occurs, Lexes, IsWordChar;
    if |parts| == 1 {
      LexName(s, i, parts[0]);
    } else {
      LexPathMore(s, i, parts);
    }
  }

  lemma {:induction false} LexPathMore(s: string, i: nat, parts: seq<string>)
    requires Occurs(s, i, PathText(parts)) && |parts| > 1
    requires forall k | 0 <= k < |parts| :: PrintableName(parts[k])
    requires !IsWordChar(At(s, i + |PathText(parts)|))
    ensures Lexes(s, i, i + |PathText(parts)|, NamesYield(parts))
    decreases |parts|, 0
  {
    hide Lex, Occurs, Lexes, IsWordChar, PrintableName, NameText;
    var init, last := parts[..|parts| - 1], parts[|parts| - 1];
    var a, c := PathText(init), NameText(last);
    var j := i + |a|;
    NameOpens(last);
    OccursNext(s, i, a + "::", c);
    OccursNext(s, i, a, "::");
    SeparatorIsSafe(s, j);
    LexPath(s, i, init);
    LexColons(s, j);
    LexName(s, j + 2, last);
    LexesJoin(s, i, j, j + 2, NamesYield(init), [Sym(COLON_COLON)]);
    LexesJoin(s, i, j + 2, j + 2 + |c|, NamesYield(init) + [Sym(COLON_COLON)], [Name(last)]);
    Regroup3(NamesYield(init), [Sym(COLON_COLON)], [Name(last)]);
    assert [Sym(COLON_COLON)] + [Name(last)] == [Sym(COLON_COLON), Name(last)];
  }

  // ---- expressions -------------------------------------------------------------------

  lemma {:induction false} PathOpens(parts: seq<string>)
    requires parts != [] && PrintableName(parts[0])
    ensures PathText(parts) != "" && PathText(parts)[0] != '='
    decreases |parts|
  {
    if |parts| == 1 {
      NameOpens(parts[0]);
    } else {
      PathOpens(parts[..|parts| - 1]);
    }
  }

  /** No printed expression starts with `=`, so none runs on from a prefix operator. */
  lemma {:induction false} ExprOpens(e: Expr)
    requires Shaped(e) && Named(e)
    ensures ExprText(e) != "" && ExprText(e)[0] != '='
  {
    match e {
      case Literal(kind, x) =>
        if kind == RealLit {
          var d: nat :| IsRealText(x, d);
          assert d > 0 ==> x[0] == x[..d][0];
        }
      case Path(parts) => PathOpens(parts);
      case Unary(op, x) => ExprOpens(x);
      case Call(f, _) => ExprOpens(f);
      case Member(x, _) => ExprOpens(x);
      case _ =>
    }
  }

  /** The printed form of `e` at `i` scans to the tokens of `e`. */
  lemma {:induction false} LexExpr(s: string, i: nat, e: Expr)
    requires Shaped(e) && Named(e)
    requires Occurs(s, i, ExprText(e)) && SafeEnd(s, i + |ExprText(e)|)
    ensures Lexes(s, i, i + |ExprText(e)|, Spell(e))
    decreases e, 1
  {
    hide Lex, KeywordKind, Occurs, Lexes;
    match e {
      case Literal(kind, x) => LexLiteral(s, i, kind, x);
      case Path(parts) => LexPath(s, i, parts);
      case Unary(_, _) => LexUnary(s, i, e);
      case Binary(_, _, _) => LexBinary(s, i, e);
      case Call(f, args) => LexCall(s, i, e);
      case Tuple(items) => LexParens(s, i, e, items);
      case Member(_, _) => LexMember(s, i, e);
    }
  }

  lemma {:induction false} LexUnary(s: string, i: nat, e: Expr)
    requires e.Unary? && Shaped(e) && Named(e)
    requires Occurs(s, i, ExprText(e)) && SafeEnd(s, i + |ExprText(e)|)
    ensures Lexes(s, i, i + |ExprText(e)|, Spell(e))
    decreases e, 0
  {
    hide Lex, KeywordKind, Occurs, Lexes, SafeEnd;
    var a, b := OperatorText(e.op), ExprText(e.operand);
    ExprOpens(e.operand);
    OccursNext(s, i, a, b);
    LexPrefix(s, i, e.op);
    LexExpr(s, i + 1, e.operand);
    LexesJoin(s, i, i + 1, i + 1 + |b|, [Sym(e.op)], Spell(e.operand));
  }

  lemma {:induction false} LexMember(s: string, i: nat, e: Expr)
    requires e.Member? && Shaped(e) && Named(e)
    requires Occurs(s, i, ExprText(e)) && SafeEnd(s, i + |ExprText(e)|)
    ensures Lexes(s, i, i + |ExprText(e)|, Spell(e))
    decreases e, 0
  {
    hide Lex, KeywordKind, Occurs, Lexes;
    var a, c := ExprText(e.target), NameText(e.member);
    var j := i + |a|;
    NameOpens(e.member);
    OccursNext(s, i, a + ".", c);
    OccursNext(s, i, a, ".");
    LexExpr(s, i, e.target);
    LexPeriod(s, j);
    LexName(s, j + 1, e.member);
    LexesJoin(s, j, j + 1, j + 1 + |c|, [Sym(PERIOD)], [Name(e.member)]);
    assert [Sym(PERIOD)] + [Name(e.member)] == [Sym(PERIOD), Name(e.member)];
    LexesJoin(s, i, j, j + 1 + |c|, Spell(e.target), [Sym(PERIOD)] + [Name(e.member)]);
  }

  lemma {:induction false} LexBinary(s: string, i: nat, e: Expr)
    requires e.Binary? && Shaped(e) && Named(e)
    requires Occurs(s, i, ExprText(e))
    ensures Lexes(s, i, i + |ExprText(e)|, Spell(e))
    decreases e, 0
  {
    hide Lex, KeywordKind, Occurs, Lexes, SafeEnd, OperatorText;
    var l, o, r := ExprText(e.left), OperatorText(e.op), ExprText(e.right);
    var j := i + 1 + |l|;
    var k := j + 1 + |o|;
    var m := k + 1 + |r|;
    BinaryParts(s, i, l, o, r);
    SeparatorIsSafe(s, j);
    SeparatorIsSafe(s, m);
    LexChar(s, i, '(');
    LexExpr(s, i + 1, e.left);
    LexBlank(s, j);
    LexOperator(s, j + 1, e.op);
    LexBlank(s, k);
    LexExpr(s, k + 1, e.right);
    LexChar(s, m, ')');
    JoinBinary(s, i, j, k, m, Spell(e.left), [Sym(e.op)], Spell(e.right));
  }

  lemma BinaryParts(s: string, i: nat, l: string, o: string, r: string)
    requires Occurs(s, i, "(" + l + " " + o + " " + r + ")")
    ensures var j := i + 1 + |l|; var k := j + 1 + |o|; var m := k + 1 + |r|;
      && Occurs(s, i, "(") && Occurs(s, i + 1, l) && Occurs(s, j + 1, o) && Occurs(s, k + 1, r)
      && Occurs(s, m, ")") && m < |s|
      && At(s, j) == s[j] == ' ' && At(s, k) == s[k] == ' ' && At(s, m) == ')'
  {
    hide Occurs;
    OccursNext(s, i, "(" + l + " " + o + " " + r, ")");
    OccursSplit(s, i, "(" + l + " " + o + " ", r);
    OccursNext(s, i, "(" + l + " " + o, " ");
    OccursSplit(s, i, "(" + l + " ", o);
    OccursNext(s, i, "(" + l, " ");
    OccursSplit(s, i, "(", l);
  }

  /** The pieces of a parenthesised binary expression, blanks included. */
  lemma JoinBinary(s: string, i: nat, j: nat, k: nat, m: nat,
                   l: seq<Token>, o: seq<Token>, r: seq<Token>)
    requires Lexes(s, i, i + 1, [Sym(LEFT_PAREN)]) && Lexes(s, i + 1, j, l)
    requires Lexes(s, j, j + 1, []) && Lexes(s, j + 1, k, o)
    requires Lexes(s, k, k + 1, []) && Lexes(s, k + 1, m, r)
    requires Lexes(s, m, m + 1, [Sym(RIGHT_PAREN)])
    ensures Lexes(s, i, m + 1, [Sym(LEFT_PAREN)] + l + o + r + [Sym(RIGHT_PAREN)])
  {
    hide Lex;
    var p, q := [Sym(LEFT_PAREN)], [Sym(RIGHT_PAREN)];
    LexesJoin(s, i, i + 1, j, p, l);
    LexesJoin(s, i, j, j + 1, p + l, []);
    assert p + l + [] == p + l;
    LexesJoin(s, i, j + 1, k, p + l, o);
    LexesJoin(s, i, k, k + 1, p + l + o, []);
    assert p + l + o + [] == p + l + o;
    LexesJoin(s, i, k + 1, m, p + l + o, r);
    LexesJoin(s, i, m, m + 1, p + l + o + r, q);
  }

  lemma {:induction false} LexCall(s: string, i: nat, e: Expr)
    requires e.Call? && Shaped(e) && Named(e)
    requires Occurs(s, i, ExprText(e))
    ensures Lexes(s, i, i + |ExprText(e)|, Spell(e))
    decreases e, 0, |e.args| + 2
  {
    hide Lex, KeywordKind, Occurs, Lexes, SafeEnd;
    var f, a := ExprText(e.callee), ListText(e.args);
    var j := i + |f|;
    Regroup4(f, "(", a, ")");
    OccursNext(s, i, f, "(" + a + ")");
    SeparatorIsSafe(s, j);
    LexExpr(s, i, e.callee);
    LexParens(s, j, e, e.args);
    LexesJoin(s, i, j, j + |a| + 2, Spell(e.callee), [Sym(LEFT_PAREN)] + SpellList(e.args) + [Sym(RIGHT_PAREN)]);
    Regroup4(Spell(e.callee), [Sym(LEFT_PAREN)], SpellList(e.args), [Sym(RIGHT_PAREN)]);
  }

  /** A parenthesised list of parts of `e`. */
  lemma {:induction false} LexParens(s: string, i: nat, e: Expr, items: seq<Expr>)
    requires Occurs(s, i, "(" + ListText(items) + ")")
    requires forall k | 0 <= k < |items| :: items[k] < e && Shaped(items[k]) && Named(items[k])
    ensures Lexes(s, i, i + |ListText(items)| + 2, [Sym(LEFT_PAREN)] + SpellList(items) + [Sym(RIGHT_PAREN)])
    decreases e, 0, |items| + 1, 1
  {
    hide Lex, KeywordKind, Occurs, Lexes, SafeEnd;
    var a := ListText(items);
    var j := i + 1 + |a|;
    OccursNext(s, i, "(" + a, ")");
    OccursSplit(s, i, "(", a);
    SeparatorIsSafe(s, j);
    LexChar(s, i, '(');
    LexList(s, i + 1, e, items);
    LexChar(s, j, ')');
    LexesJoin(s, i, i + 1, j, [Sym(LEFT_PAREN)], SpellList(items));
    LexesJoin(s, i, j, j + 1, [Sym(LEFT_PAREN)] + SpellList(items), [Sym(RIGHT_PAREN)]);
  }

  lemma {:induction false} LexList(s: string, i: nat, e: Expr, items: seq<Expr>)
    requires Occurs(s, i, ListText(items)) && SafeEnd(s, i + |ListText(items)|)
    requires forall k | 0 <= k < |items| :: items[k] < e && Shaped(items[k]) && Named(items[k])
    ensures Lexes(s, i, i + |ListText(items)|, SpellList(items))
    decreases e, 0, |items|, 1
  {
    if items == [] {
      assert [] + Lex(s, i, false) == Lex(s, i, false);
    } else if |items| == 1 {
      LexExpr(s, i, items[0]);
    } else {
      LexListMore(s, i, e, items);
    }
  }

  lemma {:induction false} LexListMore(s: string, i: nat, e: Expr, items: seq<Expr>)
    requires |items| > 1
    requires Occurs(s, i, ListText(items)) && SafeEnd(s, i + |ListText(items)|)
    requires forall k | 0 <= k < |items| :: items[k] < e && Shaped(items[k]) && Named(items[k])
    ensures Lexes(s, i, i + |ListText(items)|, SpellList(items))
    decreases e, 0, |items|, 0
  {
    hide Lex, KeywordKind, Occurs, Lexes, SafeEnd, Shaped, Named, ExprText, Spell;
    var init, last := items[..|items| - 1], items[|items| - 1];
    var a, c := ListText(init), ExprText(last);
    var j := i + |a|;
    OccursSplit(s, i, a + ", ", c);
    OccursNext(s, i, a, ", ");
    SeparatorIsSafe(s, j);
    LexList(s, i, e, init);
    OccursSplit(s, j, ",", " ");
    LexChar(s, j, ',');
    LexBlank(s, j + 1);
    LexExpr(s, j + 2, last);
    LexesJoin(s, i, j, j + 1, SpellList(init), [Sym(COMMA)]);
    LexesJoin(s, j + 1, j + 2, j + 2 + |c|, [], Spell(last));
    assert [] + Spell(last) == Spell(last);
    LexesJoin(s, i, j + 1, j + 2 + |c|, SpellList(init) + [Sym(COMMA)], Spell(last));
  }

  /** The whole text of a printed expression scans to its tokens. */
  lemma LexWhole(e: Expr)
    requires Shaped(e) && Named(e)
    ensures Lex(ExprText(e), 0, false) == Spell(e)
  {
    hide ExprText, Spell, Shaped, Named, ScanOne, KeywordKind;
    var s := ExprText(e);
    assert s[0..|s|] == s;
    LexExpr(s, 0, e);
    assert Lex(s, |s|, false) == [];
  }
}
