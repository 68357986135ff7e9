/** The canonical text of names and expressions, and the tokens that text is made of. */
module Printing {
  import opened Tokens
  import opened Syntax
  import opened Pratt

  /** `emitToken`: names that are not bare identifiers get their apostrophes back. */
  function NameText(w: string): string {
    if w == "" then "" else if IsBareIdentifier(w) then w else "'" + w + "'"
  }

  /** The `::`-separated segments of a qualified name. */
  function PathText(parts: seq<string>): string {
    if parts == [] then ""
    else if |parts| == 1 then NameText(parts[0])
    else PathText(parts[..|parts| - 1]) + "::" + NameText(parts[|parts| - 1])
  }

  function OperatorText(k: Kind): string {
    if k == PLUS then "+"
    else if k == MINUS then "-"
    else if k == STAR then "*"
    else if k == STAR_STAR then "**"
    else if k == SLASH then "/"
    else if k == BANG then "!"
    else if k == EQUAL_EQUAL then "=="
    else if k == BANG_EQUAL then "!="
    else if k == LESS then "<"
    else if k == LESS_EQUAL then "<="
    else if k == GREATER then ">"
    else if k == GREATER_EQUAL then ">="
    else if k == KW_AND then "and"
    else if k == KW_OR then "or"
    else if k == KW_XOR then "xor"
    else if k == KW_META then "meta"
    else "?"
  }

  /** `emitExpression`: parentheses around every binary node, none around a unary one. */
  function ExprText(e: Expr): string {
    match e
    case Literal(_, lexeme) => lexeme
    case Path(parts) => PathText(parts)
    case Binary(op, l, r) => "(" + ExprText(l) + " " + OperatorText(op) + " " + ExprText(r) + ")"
    case Unary(op, x) => OperatorText(op) + ExprText(x)
    case Call(f, args) => ExprText(f) + "(" + ListText(args) + ")"
    case Tuple(items) => "(" + ListText(items) + ")"
    case Member(x, m) => ExprText(x) + "." + NameText(m)
  }

  function ListText(items: seq<Expr>): string {
    if items == [] then ""
    else if |items| == 1 then ExprText(items[0])
    else ListText(items[..|items| - 1]) + ", " + ExprText(items[|items| - 1])
  }

  function LiteralToken(kind: LiteralKind, lexeme: string): Token {
    match kind
    case StringLit => Text(lexeme)
    case BoolLit => Sym(if lexeme == "true" then KW_TRUE else KW_FALSE)
    case _ => Number(lexeme)
  }

  /** The tokens of `ExprText(e)`. */
  function Spell(e: Expr): seq<Token> {
    match e
    case Literal(kind, lexeme) => [LiteralToken(kind, lexeme)]
    case Path(parts) => NamesYield(parts)
    case Binary(op, l, r) => [Sym(LEFT_PAREN)] + Spell(l) + [Sym(op)] + Spell(r) + [Sym(RIGHT_PAREN)]
    case Unary(op, x) => [Sym(op)] + Spell(x)
    case Call(f, args) => Spell(f) + [Sym(LEFT_PAREN)] + SpellList(args) + [Sym(RIGHT_PAREN)]
    case Tuple(items) => [Sym(LEFT_PAREN)] + SpellList(items) + [Sym(RIGHT_PAREN)]
    case Member(x, m) => Spell(x) + [Sym(PERIOD), Name(m)]
  }

  function SpellList(items: seq<Expr>): seq<Token> {
    if items == [] then []
    else if |items| == 1 then Spell(items[0])
    else SpellList(items[..|items| - 1]) + [Sym(COMMA)] + Spell(items[|items| - 1])
  }

  // ---- which trees are printable ---------------------------------------------------

  predicate AllDigits(x: string) { forall i | 0 <= i < |x| :: IsDigit(x[i]) }

  /** Digits with a fraction, or a fraction alone, the point being at `d`. */
  predicate IsRealText(x: string, d: nat) {
    d + 1 < |x| && x[d] == '.' && AllDigits(x[..d]) && AllDigits(x[d + 1..])
  }

  /** A literal as the scanner and `numberLiteral` produce it. */
  ghost predicate IsLiteral(kind: LiteralKind, x: string) {
    match kind
    case IntLit => x != "" && AllDigits(x)
    case RealLit => exists d: nat :: IsRealText(x, d)
    case StringLit => |x| >= 2 && x[0] == '"' && x[|x| - 1] == '"' && '"' !in x[1..|x| - 1]
    case BoolLit => x == "true" || x == "false"
  }

  /** Operators and literals the parser can produce, and at least two items in a tuple. */
  ghost predicate Shaped(e: Expr) {
    match e
    case Literal(kind, x) => IsLiteral(kind, x)
    case Path(parts) => parts != []
    case Binary(op, l, r) => IsBinaryOp(op) && Shaped(l) && Shaped(r)
    case Unary(op, x) => IsPrefixOp(op) && Shaped(x)
    case Call(f, args) => Shaped(f) && forall i | 0 <= i < |args| :: Shaped(args[i])
    case Tuple(items) => |items| >= 2 && forall i | 0 <= i < |items| :: Shaped(items[i])
    case Member(x, _) => Shaped(x)
  }

  /** Every name of the tree is one that printing and scanning carry faithfully. */
  predicate Named(e: Expr) {
    match e
    case Literal(_, _) => true
    case Path(parts) => forall i | 0 <= i < |parts| :: PrintableName(parts[i])
    case Binary(_, l, r) => Named(l) && Named(r)
    case Unary(_, x) => Named(x)
    case Call(f, args) => Named(f) && forall i | 0 <= i < |args| :: Named(args[i])
    case Tuple(items) => forall i | 0 <= i < |items| :: Named(items[i])
    case Member(x, m) => Named(x) && PrintableName(m)
  }
}
