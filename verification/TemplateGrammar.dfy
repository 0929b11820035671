/** Placeholder expressions as trees: what a tree evaluates to, and the tokens that spell it
    with no more parentheses than its shape needs. The code under study has no tree; this is
    the reference its one-pass parser is compared with. */
module TemplateGrammar {
  import opened Common
  import opened TemplateValues

  datatype Kind = Ident | String | Number | Op

  datatype Token = Token(kind: Kind, value: string)

  type Path = p: seq<string> | |p| > 0 witness ["x"]

  datatype BinaryOp = Or | And | Compare(op: CompareOp) | Plus

  datatype Expr =
    | Text(s: string)
    | Numeral(text: string)
    | Name(path: Path)
    | Call(fn: string, args: Args)
    | Group(inner: Expr)
    | Not(operand: Expr)
    | Binary(op: BinaryOp, left: Expr, right: Expr)

  datatype Args = NoArgs | More(head: Expr, tail: Args)

  // ----- meaning -----

  /** Left to right, every operand of || and && included; the first error ends it. */
  function Eval(c: Context, e: Expr, drawn: seq<nat>): Evaluated<Value> {
    match e
    case Text(s) => Evaluated(Ok(Str(s)), drawn)
    case Numeral(text) =>
      var parsed := c.host.parseFloat(text);
      Evaluated(if parsed.Some? then Ok(Num(parsed.value)) else Err(BadNumber(text)), drawn)
    case Name(path) => Evaluated(Ok(NameValue(c, path)), drawn)
    case Call(fn, args) =>
      var a := EvalArgs(c, args, drawn);
      if a.res.Err? then Evaluated(Err(a.res.error), a.drawn)
      else CallFunction(c.host, fn, a.res.value, a.drawn)
    case Group(inner) => Eval(c, inner, drawn)
    case Not(operand) =>
      var v := Eval(c, operand, drawn);
      if v.res.Err? then v else Evaluated(Ok(Bool(!Truthy(c.host, v.res.value))), v.drawn)
    case Binary(op, left, right) =>
      var l := Eval(c, left, drawn);
      if l.res.Err? then l else
      var r := Eval(c, right, l.drawn);
      if r.res.Err? then r else Evaluated(Ok(Combine(c.host, op, l.res.value, r.res.value)), r.drawn)
  }

  function Combine(h: Host, op: BinaryOp, left: Value, right: Value): Value {
    match op
    case Or => if Truthy(h, left) then left else right
    case And => if !Truthy(h, left) then left else right
    case Compare(cmp) => Bool(CompareValues(h, cmp, left, right))
    case Plus => AddValues(h, left, right)
  }

  function EvalArgs(c: Context, args: Args, drawn: seq<nat>): Evaluated<seq<Value>> {
    match args
    case NoArgs => Evaluated(Ok([]), drawn)
    case More(head, tail) =>
      var h := Eval(c, head, drawn);
      if h.res.Err? then Evaluated(Err(h.res.error), h.drawn) else
      var t := EvalArgs(c, tail, h.drawn);
      if t.res.Err? then t else Evaluated(Ok([h.res.value] + t.res.value), t.drawn)
  }

  // ----- spelling -----

  function OpToken(value: string): Token { Token(Op, value) }

  /** How tightly the outermost operator of a tree binds: || is 0, a primary is 5. */
  function Level(e: Expr): nat {
    match e
    case Binary(op, _, _) => BinaryLevel(op)
    case Not(_) => 4
    case _ => 5
  }

  function BinaryLevel(op: BinaryOp): nat {
    match op case Or => 0 case And => 1 case Compare(_) => 2 case Plus => 3
  }

  /** A comparison does not chain, so its left operand binds tighter than itself. */
  function LeftLevel(op: BinaryOp): nat {
    if op.Compare? then 3 else BinaryLevel(op)
  }

  function BinaryToken(op: BinaryOp): Token {
    OpToken(match op case Or => "||" case And => "&&" case Compare(cmp) => cmp case Plus => "+")
  }

  /** The tokens of e where an expression of at least the given level is wanted. */
  function Print(e: Expr, level: nat): seq<Token>
    decreases e, 1
  {
    if Level(e) < level then [OpToken("(")] + Body(e) + [OpToken(")")] else Body(e)
  }

  function Body(e: Expr): seq<Token>
    decreases e, 0
  {
    match e
    case Text(s) => [Token(String, s)]
    case Numeral(text) => [Token(Number, text)]
    case Name(path) => [Token(Ident, path[0])] + Dotted(path[1..])
    case Call(fn, NoArgs) => [Token(Ident, fn), OpToken("("), OpToken(")")]
    case Call(fn, More(head, tail)) =>
      [Token(Ident, fn), OpToken("(")] + Print(head, 0) + PrintTail(tail) + [OpToken(")")]
    case Group(inner) => [OpToken("(")] + Print(inner, 0) + [OpToken(")")]
    case Not(operand) => [OpToken("!")] + Print(operand, 4)
    case Binary(op, left, right) =>
      Print(left, LeftLevel(op)) + [BinaryToken(op)] + Print(right, BinaryLevel(op) + 1)
  }

  function Dotted(names: seq<string>): seq<Token> {
    if names == [] then [] else [OpToken("."), Token(Ident, names[0])] + Dotted(names[1..])
  }

  function PrintTail(args: Args): seq<Token>
    decreases args, 0
  {
    match args
    case NoArgs => []
    case More(head, tail) => [OpToken(",")] + Print(head, 0) + PrintTail(tail)
  }

  /** An expression as a whole. */
  function Tokens(e: Expr): seq<Token> { Print(e, 0) }

  // ----- how few parentheses that takes -----

  /** The tree without the parentheses an author put where none were needed. */
  function Ungroup(e: Expr): Expr {
    match e
    case Group(inner) => Ungroup(inner)
    case Not(operand) => Not(Ungroup(operand))
    case Binary(op, left, right) => Binary(op, Ungroup(left), Ungroup(right))
    case Call(fn, args) => Call(fn, UngroupArgs(args))
    case _ => e
  }

  function UngroupArgs(args: Args): Args {
    match args
    case NoArgs => NoArgs
    case More(head, tail) => More(Ungroup(head), UngroupArgs(tail))
  }

  /** Of all trees that are the same but for such parentheses, the one with none prints shortest. */
  lemma {:induction false} FewestParentheses(e: Expr, level: nat)
    requires level <= 5
    ensures |Print(Ungroup(e), level)| <= |Print(e, level)|
    decreases e
  {
    match e
    case Group(inner) =>
      FewestParentheses(inner, 0);
      assert |Print(Ungroup(inner), level)| <= |Print(Ungroup(inner), 0)| + 2;
    case Not(operand) => FewestParentheses(operand, 4);
    case Binary(op, left, right) =>
      FewestParentheses(left, LeftLevel(op));
      FewestParentheses(right, BinaryLevel(op) + 1);
    case Call(_, args) => FewestInArgs(args);
    case _ =>
  }

  lemma {:induction false} FewestInArgs(args: Args)
    ensures |PrintTail(UngroupArgs(args))| <= |PrintTail(args)|
    ensures args.More? ==> |Print(Ungroup(args.head), 0)| <= |Print(args.head, 0)|
                           && |PrintTail(UngroupArgs(args.tail))| <= |PrintTail(args.tail)|
    decreases args
  {
    if args.More? {
      FewestParentheses(args.head, 0);
      FewestInArgs(args.tail);
    }
  }

  /** And it evaluates the same. */
  lemma {:induction false} UngroupEvaluates(c: Context, e: Expr, drawn: seq<nat>)
    ensures Eval(c, Ungroup(e), drawn) == Eval(c, e, drawn)
    decreases e
  {
    match e
    case Group(inner) => UngroupEvaluates(c, inner, drawn);
    case Not(operand) => UngroupEvaluates(c, operand, drawn);
    case Binary(_, left, right) =>
      UngroupEvaluates(c, left, drawn);
      UngroupEvaluates(c, right, Eval(c, left, drawn).drawn);
    case Call(_, args) => UngroupArgsEvaluate(c, args, drawn);
    case _ =>
  }

  lemma {:induction false} UngroupArgsEvaluate(c: Context, args: Args, drawn: seq<nat>)
    ensures EvalArgs(c, UngroupArgs(args), drawn) == EvalArgs(c, args, drawn)
    decreases args
  {
    if args.More? {
      UngroupEvaluates(c, args.head, drawn);
      UngroupArgsEvaluate(c, args.tail, Eval(c, args.head, drawn).drawn);
    }
  }
}
