/** The expression grammar: the parse function the Pratt parser computes, and an independent
    characterisation of the parse trees it can return. */
module Pratt {
  import opened Tokens
  import opened Syntax

  const PREC_NONE: nat := 0
  const PREC_ASSIGNMENT: nat := 1
  const PREC_OR: nat := 2
  const PREC_XOR: nat := 3
  const PREC_AND: nat := 4
  const PREC_EQUALITY: nat := 5
  const PREC_COMPARISON: nat := 6
  const PREC_TERM: nat := 7
  const PREC_FACTOR: nat := 8
  const PREC_UNARY: nat := 9
  const PREC_POWER: nat := 10
  const PREC_CALL: nat := 11

  /** The infix column of the rules table. */
  function Precedence(t: Token): nat {
    if t.Sym? then KindPrecedence(t.kind) else PREC_NONE
  }

  function KindPrecedence(k: Kind): nat {
    if k == LEFT_PAREN || k == PERIOD then PREC_CALL
    else if k == STAR_STAR then PREC_POWER
    else if k == STAR || k == SLASH then PREC_FACTOR
    else if k == PLUS || k == MINUS then PREC_TERM
    else if k == LESS || k == LESS_EQUAL || k == GREATER || k == GREATER_EQUAL then PREC_COMPARISON
    else if k == EQUAL_EQUAL || k == BANG_EQUAL then PREC_EQUALITY
    else if k == KW_AND then PREC_AND
    else if k == KW_XOR then PREC_XOR
    else if k == KW_OR || k == KW_META then PREC_OR
    else PREC_NONE
  }

  predicate IsBinaryOp(k: Kind) { PREC_NONE < Precedence(Sym(k)) < PREC_CALL }

  predicate IsPrefixOp(k: Kind) { k == MINUS || k == BANG }

  /** Concrete parse trees: `Group` and `Measured` record the parentheses and the skipped
      unit brackets that leave no trace in the syntax tree. */
  datatype Tree =
    | Leaf(token: Token)
    | Names(parts: seq<string>)
    | Prefix(op: Kind, operand: Tree)
    | Group(inner: Tree)
    | List(items: seq<Tree>)
    | Infix(op: Kind, left: Tree, right: Tree)
    | Apply(callee: Tree, args: seq<Tree>)
    | Dot(target: Tree, member: string)
    | Measured(base: Tree, units: seq<Token>)

  /** Outcome of an error-free parse: the value and the tokens left over. */
  datatype Result<T> = Fail | Ok(value: T, rest: seq<Token>) {
    predicate IsFailure() { Fail? }

    function PropagateFailure<U>(): Result<U>
      requires Fail?
    {
      Fail
    }

    function Extract(): (T, seq<Token>)
      requires Ok?
    {
      (value, rest)
    }
  }

  function Head(ts: seq<Token>): Token {
    if ts == [] then Sym(EOF) else ts[0]
  }

  // ---- the parse function -------------------------------------------------------

  /** Bracket depth after reading `t` at depth `d`. */
  function Deeper(t: Token, d: nat): nat {
    if t == Sym(LEFT_BRACKET) then d + 1
    else if t == Sym(RIGHT_BRACKET) && d > 0 then d - 1
    else d
  }

  /** Length of the run of unit suffixes at the front of `ts`, `d` brackets being open. */
  function UnitsLength(ts: seq<Token>, d: nat): (n: nat)
    ensures n <= |ts|
  {
    if ts == [] || (d == 0 && ts[0] != Sym(LEFT_BRACKET)) then 0
    else 1 + UnitsLength(ts[1..], Deeper(ts[0], d))
  }

  /** `parsePrecedence`: an operand, its unit suffixes, and every infix part that binds at
      least as tightly as `p`. */
  function Level(ts: seq<Token>, p: nat): (r: Result<Tree>)
    requires p > 0
    ensures r.Ok? ==> |r.rest| < |ts|
    decreases |ts|, 3
  {
    match Operand(ts)
    case Fail => Fail
    case Ok(left, ts1) =>
      var n := UnitsLength(ts1, 0);
      Extend(if n == 0 then left else Measured(left, ts1[..n]), ts1[n..], p)
  }

  /** The prefix column of the rules table. */
  function Operand(ts: seq<Token>): (r: Result<Tree>)
    ensures r.Ok? ==> |r.rest| < |ts|
    decreases |ts|, 2
  {
    match Head(ts)
    case Number(_) => Ok(Leaf(ts[0]), ts[1..])
    case Text(_) => Ok(Leaf(ts[0]), ts[1..])
    case Name(w) => Segments([w], ts[1..])
    case Sym(k) =>
      if k == KW_TRUE || k == KW_FALSE then Ok(Leaf(ts[0]), ts[1..])
      else if k == LEFT_PAREN then Grouping(ts[1..])
      else if !IsPrefixOp(k) then Fail
      else (match Level(ts[1..], PREC_UNARY)
            case Fail => Fail
            case Ok(x, rest) => Ok(Prefix(k, x), rest))
    case _ => Fail
  }

  /** The `::` segments after the first one. */
  function Segments(parts: seq<string>, ts: seq<Token>): (r: Result<Tree>)
    ensures r.Ok? ==> |r.rest| <= |ts|
    decreases |ts|
  {
    if Head(ts) != Sym(COLON_COLON) then Ok(Names(parts), ts)
    else if |ts| > 1 && ts[1].Name? then Segments(parts + [ts[1].text], ts[2..])
    else Fail
  }

  /** What follows an opening parenthesis in operand position. */
  function Grouping(ts: seq<Token>): (r: Result<Tree>)
    ensures r.Ok? ==> |r.rest| < |ts|
    decreases |ts|, 4
  {
    match Level(ts, PREC_ASSIGNMENT)
    case Fail => Fail
    case Ok(first, ts1) =>
      match Items([first], ts1)
      case Fail => Fail
      case Ok(items, ts2) =>
        if Head(ts2) != Sym(RIGHT_PAREN) then Fail
        else Ok(if |items| == 1 then Group(first) else List(items), ts2[1..])
  }

  /** The expressions that follow `items`, each after a comma. */
  function Items(items: seq<Tree>, ts: seq<Token>): (r: Result<seq<Tree>>)
    ensures r.Ok? ==> |r.rest| <= |ts|
    decreases |ts|, 4
  {
    if Head(ts) != Sym(COMMA) then Ok(items, ts)
    else match Level(ts[1..], PREC_ASSIGNMENT)
      case Fail => Fail
      case Ok(e, ts1) => Items(items + [e], ts1)
  }

  /** What follows the opening parenthesis of a call. */
  function Arguments(ts: seq<Token>): (r: Result<seq<Tree>>)
    ensures r.Ok? ==> |r.rest| < |ts|
    decreases |ts|, 4
  {
    if Head(ts) == Sym(RIGHT_PAREN) then Ok([], ts[1..])
    else match Level(ts, PREC_ASSIGNMENT)
      case Fail => Fail
      case Ok(first, ts1) =>
        match Items([first], ts1)
        case Fail => Fail
        case Ok(items, ts2) =>
          if Head(ts2) != Sym(RIGHT_PAREN) then Fail else Ok(items, ts2[1..])
  }

  /** The infix column of the rules table: one operator, call or member access. */
  function Step(left: Tree, ts: seq<Token>): (r: Result<Tree>)
    requires Precedence(Head(ts)) > 0
    ensures r.Ok? ==> |r.rest| < |ts|
    decreases |ts|, 0
  {
    if ts[0] == Sym(LEFT_PAREN) then
      match Arguments(ts[1..])
      case Fail => Fail
      case Ok(args, rest) => Ok(Apply(left, args), rest)
    else if ts[0] == Sym(PERIOD) then
      if |ts| > 1 && ts[1].Name? then Ok(Dot(left, ts[1].text), ts[2..]) else Fail
    else
      match Level(ts[1..], Precedence(ts[0]) + 1)
      case Fail => Fail
      case Ok(right, rest) => Ok(Infix(ts[0].kind, left, right), rest)
  }

  function Extend(left: Tree, ts: seq<Token>, p: nat): (r: Result<Tree>)
    requires p > 0
    ensures r.Ok? ==> |r.rest| <= |ts|
    decreases |ts|, 1
  {
    if Precedence(Head(ts)) < p then Ok(left, ts)
    else match Step(left, ts)
      case Fail => Fail
      case Ok(left', rest) => Extend(left', rest, p)
  }

  // ---- trees, their tokens and their meaning ------------------------------------

  /** The tokens a parse tree is read from. */
  function Yield(t: Tree): seq<Token> {
    match t
    case Leaf(token) => [token]
    case Names(parts) => NamesYield(parts)
    case Prefix(op, x) => [Sym(op)] + Yield(x)
    case Group(x) => [Sym(LEFT_PAREN)] + Yield(x) + [Sym(RIGHT_PAREN)]
    case List(items) => [Sym(LEFT_PAREN)] + ItemsYield(items) + [Sym(RIGHT_PAREN)]
    case Infix(op, l, r) => Yield(l) + [Sym(op)] + Yield(r)
    case Apply(f, args) => Yield(f) + [Sym(LEFT_PAREN)] + ItemsYield(args) + [Sym(RIGHT_PAREN)]
    case Dot(x, m) => Yield(x) + [Sym(PERIOD), Name(m)]
    case Measured(x, units) => Yield(x) + units
  }

  function NamesYield(parts: seq<string>): seq<Token> {
    if parts == [] then []
    else if |parts| == 1 then [Name(parts[0])]
    else NamesYield(parts[..|parts| - 1]) + [Sym(COLON_COLON), Name(parts[|parts| - 1])]
  }

  function ItemsYield(items: seq<Tree>): seq<Token> {
    if items == [] then []
    else if |items| == 1 then Yield(items[0])
    else ItemsYield(items[..|items| - 1]) + [Sym(COMMA)] + Yield(items[|items| - 1])
  }

  function LeafLiteral(t: Token): Expr {
    match t
    case Number(w) => Literal(if '.' in w then RealLit else IntLit, w)
    case Text(w) => Literal(StringLit, w)
    case Sym(k) => Literal(BoolLit, if k == KW_TRUE then "true" else "false")
    case _ => Literal(IntLit, "")
  }

  /** The syntax tree built for a parse tree. */
  function Erase(t: Tree): Expr {
    match t
    case Leaf(token) => LeafLiteral(token)
    case Names(parts) => Path(parts)
    case Prefix(op, x) => Unary(op, Erase(x))
    case Group(x) => Erase(x)
    case List(items) => Tuple(EraseAll(items))
    case Infix(op, l, r) => Binary(op, Erase(l), Erase(r))
    case Apply(f, args) => Call(Erase(f), EraseAll(args))
    case Dot(x, m) => Member(Erase(x), m)
    case Measured(x, _) => Erase(x)
  }

  function EraseAll(items: seq<Tree>): (r: seq<Expr>)
    ensures |r| == |items|
    ensures forall i | 0 <= i < |items| :: r[i] == Erase(items[i])
  {
    if items == [] then [] else EraseAll(items[..|items| - 1]) + [Erase(items[|items| - 1])]
  }
}
