/** The SysML emitter: writes to a growing output, proved against `Printing`. */
module Emitter {
  import opened Tokens
  import opened Syntax
  import opened Printing
  import opened Sequences

  class Printer {
    var out: string
    var depth: nat

    constructor ()
      ensures out == "" && depth == 0
    {
      out, depth := "", 0;
    }

    method Put(text: string)
      modifies this`out
      ensures out == old(out) + text
    {
      out := out + text;
    }

    method EmitToken(w: string)
      modifies this`out
      ensures out == old(out) + NameText(w)
    {
      if |w| == 0 {
        return;
      }
      if IsBareIdentifier(w) {
        Put(w);
      } else {
        Put("'");
        Put(w);
        Put("'");
        Regroup4(old(out), "'", w, "'");
      }
    }

    method EmitPath(parts: seq<string>)
      modifies this`out
      ensures out == old(out) + PathText(parts)
    {
      var i := 0;
      while i < |parts|
        invariant i <= |parts|
        invariant out == old(out) + PathText(parts[..i])
      {
        assert parts[..i + 1][..i] == parts[..i];
        if i > 0 { Put("::"); }
        EmitToken(parts[i]);
        Regroup4(old(out), PathText(parts[..i]), "::", NameText(parts[i]));
        i := i + 1;
      }
      assert parts[..i] == parts;
    }

    method EmitExpression(e: Expr)
      modifies this`out
      ensures out == old(out) + ExprText(e)
      decreases e, 1
    {
      match e
      case Literal(_, lexeme) => Put(lexeme);
      case Path(parts) => EmitPath(parts);
      case Binary(op, l, r) => EmitBinary(e);
      case Unary(op, x) =>
        Put(OperatorText(op));
        EmitExpression(x);
        Regroup3(old(out), OperatorText(op), ExprText(x));
      case Call(f, args) =>
        EmitExpression(f);
        Put("(");
        EmitArguments(e, args);
        Put(")");
        Regroup5(old(out), ExprText(f), "(", ListText(args), ")");
        Regroup4(ExprText(f), "(", ListText(args), ")");
      case Tuple(items) =>
        Put("(");
        EmitArguments(e, items);
        Put(")");
        Regroup4(old(out), "(", ListText(items), ")");
      case Member(x, m) =>
        EmitExpression(x);
        Put(".");
        EmitToken(m);
        Regroup4(old(out), ExprText(x), ".", NameText(m));
    }

    method EmitBinary(e: Expr)
      requires e.Binary?
      modifies this`out
      ensures out == old(out) + ExprText(e)
      decreases e, 0
    {
      ghost var o, l, s, r := old(out), ExprText(e.left), OperatorText(e.op), ExprText(e.right);
      Put("(");
      EmitExpression(e.left);
      Put(" ");
      Put(OperatorText(e.op));
      Put(" ");
      EmitExpression(e.right);
      Put(")");
      Regroup5(o, "(", l, " ", s);
      Regroup4("(", l, " ", s);
      Regroup4(o, "(" + l + " " + s, " ", r);
      Regroup3(o, "(" + l + " " + s + " " + r, ")");
    }

    /** The comma-separated parts of `e`. */
    method EmitArguments(ghost e: Expr, items: seq<Expr>)
      requires forall i | 0 <= i < |items| :: items[i] < e
      modifies this`out
      ensures out == old(out) + ListText(items)
      decreases e, 0
    {
      var i := 0;
      while i < |items|
        invariant i <= |items|
        invariant out == old(out) + ListText(items[..i])
      {
        assert items[..i + 1][..i] == items[..i];
        if i > 0 { Put(", "); }
        EmitExpression(items[i]);
        Regroup4(old(out), ListText(items[..i]), ", ", ExprText(items[i]));
        i := i + 1;
      }
      assert items[..i] == items;
    }
  }
}
