/** What expressions come to (controllers/template_expr.go), token by token and written out: each
    operator, each kind of name, each function, and how tightly the operators bind. */
module TemplateMeaning {
  import opened Common
  import opened TemplateValues
  import opened TemplateGrammar
  import opened TemplateParser
  import opened TemplateRoundTrip
  import opened TemplateTokenizer

  /** The tokens evaluate to x; the draws made are then those of after. */
  predicate Gives(c: Context, ts: seq<Token>, drawn: seq<nat>, x: Value, after: seq<nat>) {
    EvaluateTokens(c, ts, drawn) == Evaluated(Ok(x), after)
  }

  predicate Fails(c: Context, ts: seq<Token>, drawn: seq<nat>, error: Error, after: seq<nat>) {
    EvaluateTokens(c, ts, drawn) == Evaluated(Err(error), after)
  }

  /** An expression in parentheses, whatever it is. */
  function InParens(e: Expr): seq<Token> { [Token(Op, "(")] + Tokens(e) + [Token(Op, ")")] }

  function Between(l: Expr, operator: string, r: Expr): seq<Token> {
    InParens(l) + [Token(Op, operator)] + InParens(r)
  }

  // ----- values -----

  /** The values that count as false. */
  predicate CountsAsFalse(h: Host, x: Value) {
    x == Nil || x == Bool(false) || x == Str("") || x == Str("false") || (x.Num? && h.isZero(x.n))
  }

  predicate ReadsAs(h: Host, x: Value, n: Float64) {
    x == Num(n) || (x.Str? && h.parseFloat(x.s) == Some(n))
  }

  predicate IsNoNumber(x: Value, h: Host) {
    x == Nil || x.Bool? || (x.Str? && h.parseFloat(x.s) == None)
  }

  predicate WrittenAs(h: Host, x: Value, text: string) {
    || (x == Nil && text == "") || (x == Bool(true) && text == "true") || (x == Bool(false) && text == "false")
    || (x.Num? && text == h.formatFloat(x.n)) || x == Str(text)
  }

  // ----- two operands -----

  lemma {:induction false} TokensAreBody(e: Expr)
    ensures Tokens(e) == Body(e)
  {
  }

  lemma {:induction false} PrintsInParens(e: Expr, level: nat)
    requires level <= 5
    ensures Print(Group(e), level) == InParens(e)
  {
  }

  lemma {:induction false} Operands(c: Context, op: BinaryOp, l: Expr, r: Expr, drawn: seq<nat>)
    ensures var (x, ts) := (EvaluateTokens(c, Tokens(l), drawn), Between(l, BinaryToken(op).value, r));
            var y := EvaluateTokens(c, Tokens(r), x.drawn);
            EvaluateTokens(c, ts, drawn) == if x.res.Err? then x else Both(c.host, op, x, y)
  {
    var e := Binary(op, Group(l), Group(r));
    EvaluatesLikeTree(c, l, drawn);
    EvaluatesLikeTree(c, r, Eval(c, l, drawn).drawn);
    EvaluatesLikeTree(c, e, drawn);
    PrintsInParens(l, LeftLevel(op));
    PrintsInParens(r, BinaryLevel(op) + 1);
    TokensAreBody(e);
  }

  /** The operators of two operands. */
  const Operators2: set<string> := {"||", "&&", "+", "===", "!==", "==", "!=", ">=", "<=", ">", "<"}

  /** Operands are evaluated left to right, all of them whatever they come to, and the first error
      is the error of the whole. */
  lemma {:induction false} FirstErrorCounts(c: Context, l: Expr, operator: string, r: Expr, drawn: seq<nat>,
                                            error: Error, mid: seq<nat>, after: seq<nat>, x: Value)
    requires operator in Operators2
    ensures Fails(c, Tokens(l), drawn, error, mid) ==> Fails(c, Between(l, operator, r), drawn, error, mid)
    ensures Gives(c, Tokens(l), drawn, x, mid) && Fails(c, Tokens(r), mid, error, after) ==>
              Fails(c, Between(l, operator, r), drawn, error, after)
  {
    Operands(c, OpOf(operator), l, r, drawn);
  }

  function OpOf(operator: string): (op: BinaryOp)
    requires operator in Operators2
    ensures BinaryToken(op).value == operator
  {
    if operator == "||" then BinaryOp.Or else if operator == "&&" then BinaryOp.And
    else if operator == "+" then Plus else Compare(operator)
  }

  /** `l || r` is l's value if that counts as true, r's otherwise; `l && r` the other way round. */
  lemma {:induction false} OrAndGive(c: Context, l: Expr, r: Expr, drawn: seq<nat>, x: Value, mid: seq<nat>, y: Value,
                                     after: seq<nat>)
    requires Gives(c, Tokens(l), drawn, x, mid) && Gives(c, Tokens(r), mid, y, after)
    ensures Gives(c, Between(l, "||", r), drawn, if CountsAsFalse(c.host, x) then y else x, after)
    ensures Gives(c, Between(l, "&&", r), drawn, if CountsAsFalse(c.host, x) then x else y, after)
  {
    Operands(c, BinaryOp.Or, l, r, drawn);
    Operands(c, BinaryOp.And, l, r, drawn);
  }

  /** `l + r` adds two numbers, as numbers or as texts that read as numbers, and otherwise puts the
      texts one after the other. */
  lemma {:induction false} PlusGives(c: Context, l: Expr, r: Expr, drawn: seq<nat>, x: Value, mid: seq<nat>, y: Value,
                                     after: seq<nat>)
    requires Gives(c, Tokens(l), drawn, x, mid) && Gives(c, Tokens(r), mid, y, after)
    ensures forall m, n :: ReadsAs(c.host, x, m) && ReadsAs(c.host, y, n) ==>
              Gives(c, Between(l, "+", r), drawn, Num(c.host.addFloat(m, n)), after)
    ensures forall s, t :: (IsNoNumber(x, c.host) || IsNoNumber(y, c.host))
                           && WrittenAs(c.host, x, s) && WrittenAs(c.host, y, t) ==>
              Gives(c, Between(l, "+", r), drawn, Str(s + t), after)
  {
    Operands(c, Plus, l, r, drawn);
  }

  lemma {:induction false} Compared(c: Context, l: Expr, op: CompareOp, r: Expr, drawn: seq<nat>, x: Value,
                                    mid: seq<nat>, y: Value, after: seq<nat>)
    requires Gives(c, Tokens(l), drawn, x, mid) && Gives(c, Tokens(r), mid, y, after)
    ensures Gives(c, Between(l, op, r), drawn, Bool(CompareValues(c.host, op, x, y)), after)
  {
    Operands(c, Compare(op), l, r, drawn);
  }

  /** The order comparisons go by the host's order on two numbers. */
  lemma {:induction false} NumbersCompare(c: Context, l: Expr, r: Expr, drawn: seq<nat>, x: Value, mid: seq<nat>,
                                          y: Value, after: seq<nat>, m: Float64, n: Float64)
    requires Gives(c, Tokens(l), drawn, x, mid) && Gives(c, Tokens(r), mid, y, after)
    requires ReadsAs(c.host, x, m) && ReadsAs(c.host, y, n)
    ensures Gives(c, Between(l, "<", r), drawn, Bool(c.host.lessFloat(m, n)), after)
    ensures Gives(c, Between(l, ">", r), drawn, Bool(c.host.lessFloat(n, m)), after)
    ensures Gives(c, Between(l, "<=", r), drawn, Bool(c.host.atMostFloat(m, n)), after)
    ensures Gives(c, Between(l, ">=", r), drawn, Bool(c.host.atMostFloat(n, m)), after)
  {
    Compared(c, l, "<", r, drawn, x, mid, y, after);
    Compared(c, l, ">", r, drawn, x, mid, y, after);
    Compared(c, l, "<=", r, drawn, x, mid, y, after);
    Compared(c, l, ">=", r, drawn, x, mid, y, after);
  }

  /** The order on texts: the first place where they differ decides, and nothing comes before something. */
  ghost predicate Precedes(s: string, t: string) { exists k: nat :: PrecedesAt(s, t, k) }

  predicate PrecedesAt(s: string, t: string, k: nat) {
    k <= |s| && k < |t| && (forall i :: 0 <= i < k ==> s[i] == t[i]) && (k < |s| ==> s[k] < t[k])
  }

  lemma {:induction false} LessIsPrecedes(s: string, t: string)
    ensures StringLess(s, t) <==> Precedes(s, t)
    decreases |s|
  {
    if t != "" && (s == "" || s[0] < t[0]) { assert PrecedesAt(s, t, 0); }
    if s != "" && t != "" && s[0] == t[0] {
      LessIsPrecedes(s[1..], t[1..]);
      if k: nat :| PrecedesAt(s[1..], t[1..], k) { assert PrecedesAt(s, t, k + 1); }
      if k: nat :| PrecedesAt(s, t, k) { assert PrecedesAt(s[1..], t[1..], k - 1); }
    }
  }

  /** When one of them is no number they go by the texts; equality always does. */
  lemma {:induction false} TextsCompare(c: Context, l: Expr, r: Expr, drawn: seq<nat>, x: Value, mid: seq<nat>,
                                        y: Value, after: seq<nat>, s: string, t: string)
    requires Gives(c, Tokens(l), drawn, x, mid) && Gives(c, Tokens(r), mid, y, after)
    requires WrittenAs(c.host, x, s) && WrittenAs(c.host, y, t)
    ensures Gives(c, Between(l, "==", r), drawn, Bool(s == t), after)
    ensures Gives(c, Between(l, "===", r), drawn, Bool(s == t), after)
    ensures Gives(c, Between(l, "!=", r), drawn, Bool(s != t), after)
    ensures Gives(c, Between(l, "!==", r), drawn, Bool(s != t), after)
    ensures IsNoNumber(x, c.host) || IsNoNumber(y, c.host) ==>
              && Gives(c, Between(l, "<", r), drawn, Bool(Precedes(s, t)), after)
              && Gives(c, Between(l, ">", r), drawn, Bool(Precedes(t, s)), after)
              && Gives(c, Between(l, "<=", r), drawn, Bool(!Precedes(t, s)), after)
              && Gives(c, Between(l, ">=", r), drawn, Bool(!Precedes(s, t)), after)
  {
    SameTexts(c, l, r, drawn, x, mid, y, after, s, t);
    if IsNoNumber(x, c.host) || IsNoNumber(y, c.host) { OrderedTexts(c, l, r, drawn, x, mid, y, after, s, t); }
  }

  lemma {:induction false} OrderedTexts(c: Context, l: Expr, r: Expr, drawn: seq<nat>, x: Value, mid: seq<nat>,
                                        y: Value, after: seq<nat>, s: string, t: string)
    requires Gives(c, Tokens(l), drawn, x, mid) && Gives(c, Tokens(r), mid, y, after)
    requires WrittenAs(c.host, x, s) && WrittenAs(c.host, y, t) && (IsNoNumber(x, c.host) || IsNoNumber(y, c.host))
    ensures Gives(c, Between(l, "<", r), drawn, Bool(Precedes(s, t)), after)
    ensures Gives(c, Between(l, ">", r), drawn, Bool(Precedes(t, s)), after)
    ensures Gives(c, Between(l, "<=", r), drawn, Bool(!Precedes(t, s)), after)
    ensures Gives(c, Between(l, ">=", r), drawn, Bool(!Precedes(s, t)), after)
  {
    TextOrder(c.host, x, y, s, t);
    Compared(c, l, "<", r, drawn, x, mid, y, after);
    Compared(c, l, ">", r, drawn, x, mid, y, after);
    Compared(c, l, "<=", r, drawn, x, mid, y, after);
    Compared(c, l, ">=", r, drawn, x, mid, y, after);
  }

  lemma {:induction false} TextOrder(h: Host, x: Value, y: Value, s: string, t: string)
    requires WrittenAs(h, x, s) && WrittenAs(h, y, t) && (IsNoNumber(x, h) || IsNoNumber(y, h))
    ensures CompareValues(h, "<", x, y) == Precedes(s, t) && CompareValues(h, ">", x, y) == Precedes(t, s)
    ensures CompareValues(h, "<=", x, y) == !Precedes(t, s) && CompareValues(h, ">=", x, y) == !Precedes(s, t)
  {
    LessIsPrecedes(s, t);
    LessIsPrecedes(t, s);
  }

  lemma {:induction false} SameTexts(c: Context, l: Expr, r: Expr, drawn: seq<nat>, x: Value, mid: seq<nat>,
                                     y: Value, after: seq<nat>, s: string, t: string)
    requires Gives(c, Tokens(l), drawn, x, mid) && Gives(c, Tokens(r), mid, y, after)
    requires WrittenAs(c.host, x, s) && WrittenAs(c.host, y, t)
    ensures Gives(c, Between(l, "==", r), drawn, Bool(s == t), after)
    ensures Gives(c, Between(l, "===", r), drawn, Bool(s == t), after)
    ensures Gives(c, Between(l, "!=", r), drawn, Bool(s != t), after)
    ensures Gives(c, Between(l, "!==", r), drawn, Bool(s != t), after)
  {
    Compared(c, l, "==", r, drawn, x, mid, y, after);
    Compared(c, l, "===", r, drawn, x, mid, y, after);
    Compared(c, l, "!=", r, drawn, x, mid, y, after);
    Compared(c, l, "!==", r, drawn, x, mid, y, after);
  }

  // ----- one operand, parentheses, literals -----

  lemma {:induction false} NotGives(c: Context, e: Expr, drawn: seq<nat>, x: Value, after: seq<nat>, error: Error)
    ensures Gives(c, Tokens(e), drawn, x, after) ==>
              Gives(c, [Token(Op, "!")] + InParens(e), drawn, Bool(CountsAsFalse(c.host, x)), after)
    ensures Fails(c, Tokens(e), drawn, error, after) ==>
              Fails(c, [Token(Op, "!")] + InParens(e), drawn, error, after)
  {
    EvaluatesLikeTree(c, e, drawn);
    EvaluatesLikeTree(c, Not(Group(e)), drawn);
    TokensAreBody(Not(Group(e)));
    PrintsInParens(e, 4);
  }

  lemma {:induction false} ParensGive(c: Context, e: Expr, drawn: seq<nat>)
    ensures EvaluateTokens(c, InParens(e), drawn) == EvaluateTokens(c, Tokens(e), drawn)
  {
    EvaluatesLikeTree(c, e, drawn);
    EvaluatesLikeTree(c, Group(e), drawn);
    PrintsInParens(e, 0);
  }

  /** Strings stand for themselves, numbers for what the host reads them as, nothing at all for nil. */
  lemma {:induction false} LiteralsGive(c: Context, s: string, n: Float64, drawn: seq<nat>)
    ensures Gives(c, [], drawn, Nil, drawn) && Gives(c, [Token(String, s)], drawn, Str(s), drawn)
    ensures c.host.parseFloat(s) == Some(n) ==> Gives(c, [Token(Number, s)], drawn, Num(n), drawn)
    ensures c.host.parseFloat(s) == None ==> Fails(c, [Token(Number, s)], drawn, BadNumber(s), drawn)
  {
    EvaluatesLikeTree(c, Text(s), drawn);
    EvaluatesLikeTree(c, Numeral(s), drawn);
    TokensAreBody(Text(s));
    TokensAreBody(Numeral(s));
  }

  // ----- names -----

  function Named(parts: Path): seq<Token> { Tokens(Name(parts)) }

  /** A bare name is true or false, or else the variable of the environment, the template's own value
      or the field of the form of that name, whichever there is first, and empty if there is none. */
  lemma {:induction false} BareNameGives(c: Context, name: string, drawn: seq<nat>)
    ensures Named([name]) == [Token(Ident, name)]
    ensures var d := c.data;
            var x := if name == "true" then Bool(true) else if name == "false" then Bool(false)
                     else if name in d.env then Str(d.env[name])
                     else if name in d.defaults then Str(d.defaults[name])
                     else if name in d.inputs then Str(d.inputs[name])
                     else Str("");
            Gives(c, [Token(Ident, name)], drawn, x, drawn)
  {
    EvaluatesLikeTree(c, Name([name]), drawn);
    TokensAreBody(Name([name]));
    assert [name][1..] == [] && Join([name], ".") == name;
  }

  /** A dotted name is a value of the template itself or of its form; any other is empty. */
  lemma {:induction false} DottedNameGives(c: Context, first: string, second: string, drawn: seq<nat>)
    ensures Named([first, second]) == [Token(Ident, first), Token(Op, "."), Token(Ident, second)]
    ensures first + "." + second != "true" && first + "." + second != "false" ==>
              var x := if first == "defaults" then
                         if second in c.data.defaults then Str(c.data.defaults[second]) else Str("")
                       else if first == "inputs" then
                         if second in c.data.inputs then Str(c.data.inputs[second]) else Str("")
                       else Str("");
              Gives(c, Named([first, second]), drawn, x, drawn)
  {
    EvaluatesLikeTree(c, Name([first, second]), drawn);
    assert [first, second][1..] == [second];
    TokensAreBody(Name([first, second]));
    assert Dotted([second]) == [Token(Op, "."), Token(Ident, second)] + Dotted([]);
    assert Join([first, second], ".") == first + "." + second;
  }

  // ----- functions -----

  function CallOf(fn: string, args: seq<Expr>): seq<Token>
    requires |args| <= 1
  {
    [Token(Ident, fn), Token(Op, "(")] + (if args == [] then [] else Tokens(args[0])) + [Token(Op, ")")]
  }

  lemma {:induction false} CallEvaluates(c: Context, fn: string, e: Expr, drawn: seq<nat>, x: Value, mid: seq<nat>)
    requires Gives(c, Tokens(e), drawn, x, mid)
    ensures EvaluateTokens(c, CallOf(fn, [e]), drawn) == CallFunction(c.host, fn, [x], mid)
    ensures EvaluateTokens(c, CallOf(fn, []), drawn) == CallFunction(c.host, fn, [], drawn)
  {
    EvaluatesLikeTree(c, e, drawn);
    EvaluatesLikeTree(c, Call(fn, More(e, NoArgs)), drawn);
    EvaluatesLikeTree(c, Call(fn, NoArgs), drawn);
    CallPrints(fn, e);
    assert EvalArgs(c, NoArgs, mid) == Evaluated(Ok([]), mid) && [x] + [] == [x];
    assert EvalArgs(c, More(e, NoArgs), drawn) == Evaluated(Ok([x]), mid);
  }

  lemma {:induction false} CallPrints(fn: string, e: Expr)
    ensures Tokens(Call(fn, More(e, NoArgs))) == CallOf(fn, [e]) && Tokens(Call(fn, NoArgs)) == CallOf(fn, [])
  {
    TokensAreBody(Call(fn, More(e, NoArgs)));
    TokensAreBody(Call(fn, NoArgs));
    assert Body(Call(fn, NoArgs)) == [Token(Ident, fn), Token(Op, "("), Token(Op, ")")];
    var (open, close) := ([Token(Ident, fn), Token(Op, "(")], [Token(Op, ")")]);
    assert Body(Call(fn, More(e, NoArgs))) == open + Print(e, 0) + PrintTail(NoArgs) + close;
    assert open + Print(e, 0) + [] == open + Print(e, 0);
  }

  /** random() draws 8 characters, random(n) n of them, but 8 for none and never more than 64. */
  lemma {:induction false} RandomGives(c: Context, e: Expr, drawn: seq<nat>, x: Value, mid: seq<nat>, n: Float64)
    requires Gives(c, Tokens(e), drawn, x, mid)
    ensures Gives(c, CallOf("random", []), drawn, Str(c.host.random(|drawn|, 8)), drawn + [8])
    ensures IsNoNumber(x, c.host) ==>
              Gives(c, CallOf("random", [e]), drawn, Str(c.host.random(|mid|, 8)), mid + [8])
    ensures ReadsAs(c.host, x, n) && 0 < c.host.toInt(n) <= 64 ==>
              var k: nat := c.host.toInt(n);
              Gives(c, CallOf("random", [e]), drawn, Str(c.host.random(|mid|, k)), mid + [k])
    ensures ReadsAs(c.host, x, n) && c.host.toInt(n) <= 0 ==>
              Gives(c, CallOf("random", [e]), drawn, Str(c.host.random(|mid|, 8)), mid + [8])
    ensures ReadsAs(c.host, x, n) && c.host.toInt(n) > 64 ==>
              Gives(c, CallOf("random", [e]), drawn, Str(c.host.random(|mid|, 64)), mid + [64])
  {
    CallEvaluates(c, "random", e, drawn, x, mid);
  }

  /** base64 encodes the text of its argument and base64Decode takes it apart again, both empty for
      no argument, the second also for one it cannot decode. Any other function is an error. */
  lemma {:induction false} Base64Gives(c: Context, fn: string, e: Expr, drawn: seq<nat>, x: Value, mid: seq<nat>,
                                       s: string)
    requires Gives(c, Tokens(e), drawn, x, mid) && WrittenAs(c.host, x, s)
    ensures Gives(c, CallOf("base64", []), drawn, Str(""), drawn)
    ensures Gives(c, CallOf("base64", [e]), drawn, Str(c.host.encode64(s)), mid)
    ensures Gives(c, CallOf("base64Decode", []), drawn, Str(""), drawn)
    ensures var plain := c.host.decode64(s);
            Gives(c, CallOf("base64Decode", [e]), drawn, Str(if plain.Some? then plain.value else ""), mid)
    ensures fn !in {"random", "base64", "base64Decode"} ==>
              Fails(c, CallOf(fn, [e]), drawn, UnknownFunction(fn), mid)
  {
    CallEvaluates(c, "base64", e, drawn, x, mid);
    CallEvaluates(c, "base64Decode", e, drawn, x, mid);
    CallEvaluates(c, fn, e, drawn, x, mid);
  }

  // ----- how tightly operators bind -----

  /** Two operators without parentheses between three operands. */
  function Three(a: Expr, f: string, b: Expr, g: string, d: Expr): seq<Token> {
    InParens(a) + [Token(Op, f)] + InParens(b) + [Token(Op, g)] + InParens(d)
  }

  predicate BindsBefore(f: string, g: string) {
    || (f == "||" && g in Operators2 && g != "||")
    || (f == "&&" && g in Operators2 && g !in {"||", "&&"})
    || (f in CompareOps && g == "+")
  }

  /** The part of an expression that goes first, in parentheses of its own. */
  function Inner(ts: seq<Token>): seq<Token> { [Token(Op, "(")] + ts + [Token(Op, ")")] }

  /** + binds tightest, then the comparisons, then &&, then ||. */
  lemma {:induction false} TighterFirst(c: Context, a: Expr, f: string, b: Expr, g: string, d: Expr, drawn: seq<nat>)
    requires f in Operators2 && g in Operators2 && BindsBefore(f, g)
    ensures EvaluateTokens(c, Three(a, f, b, g, d), drawn)
          == EvaluateTokens(c, InParens(a) + [Token(Op, f)] + Inner(Between(b, g, d)), drawn)
    ensures EvaluateTokens(c, Three(a, g, b, f, d), drawn)
          == EvaluateTokens(c, Inner(Between(a, g, b)) + [Token(Op, f)] + InParens(d), drawn)
  {
    RightInner(c, a, OpOf(f), b, OpOf(g), d, f, g, drawn);
    LeftInner(c, a, OpOf(g), b, OpOf(f), d, g, f, drawn);
  }

  lemma {:induction false} RightInner(c: Context, a: Expr, f: BinaryOp, b: Expr, g: BinaryOp, d: Expr, x: string,
                                      y: string, drawn: seq<nat>)
    requires BinaryLevel(f) < BinaryLevel(g) && BinaryToken(f).value == x && BinaryToken(g).value == y
    ensures EvaluateTokens(c, Three(a, x, b, y, d), drawn)
         == EvaluateTokens(c, InParens(a) + [Token(Op, x)] + Inner(Between(b, y, d)), drawn)
  {
    var inner := Binary(g, Group(b), Group(d));
    PrintsBetween(b, g, d);
    PrintsInParens(a, LeftLevel(f));
    PrintsInParens(inner, BinaryLevel(f) + 1);
    TokensAreBody(inner);
    TokensAreBody(Binary(f, Group(a), inner));
    TokensAreBody(Binary(f, Group(a), Group(inner)));
    assert Print(inner, BinaryLevel(f) + 1) == Body(inner);
    assert Tokens(Binary(f, Group(a), inner)) == Three(a, x, b, y, d);
    SameUpToParens(c, Binary(f, Group(a), inner), Binary(f, Group(a), Group(inner)), drawn);
  }

  lemma {:induction false} LeftInner(c: Context, a: Expr, g: BinaryOp, b: Expr, f: BinaryOp, d: Expr, y: string,
                                     x: string, drawn: seq<nat>)
    requires LeftLevel(f) <= BinaryLevel(g) && BinaryToken(f).value == x && BinaryToken(g).value == y
    ensures EvaluateTokens(c, Three(a, y, b, x, d), drawn)
         == EvaluateTokens(c, Inner(Between(a, y, b)) + [Token(Op, x)] + InParens(d), drawn)
  {
    var inner := Binary(g, Group(a), Group(b));
    PrintsBetween(a, g, b);
    PrintsInParens(d, BinaryLevel(f) + 1);
    PrintsInParens(inner, LeftLevel(f));
    TokensAreBody(inner);
    TokensAreBody(Binary(f, inner, Group(d)));
    TokensAreBody(Binary(f, Group(inner), Group(d)));
    assert Print(inner, LeftLevel(f)) == Body(inner);
    assert Tokens(Binary(f, inner, Group(d))) == Three(a, y, b, x, d);
    SameUpToParens(c, Binary(f, inner, Group(d)), Binary(f, Group(inner), Group(d)), drawn);
  }

  /** Trees that are the same but for parentheses evaluate alike. */
  lemma {:induction false} SameUpToParens(c: Context, e: Expr, f: Expr, drawn: seq<nat>)
    requires Ungroup(e) == Ungroup(f)
    ensures EvaluateTokens(c, Tokens(e), drawn) == EvaluateTokens(c, Tokens(f), drawn)
  {
    EvaluatesLikeTree(c, e, drawn);
    EvaluatesLikeTree(c, f, drawn);
    UngroupEvaluates(c, e, drawn);
    UngroupEvaluates(c, f, drawn);
  }

  lemma {:induction false} PrintsBetween(b: Expr, g: BinaryOp, d: Expr)
    ensures Body(Binary(g, Group(b), Group(d))) == Between(b, BinaryToken(g).value, d)
  {
    PrintsInParens(b, LeftLevel(g));
    PrintsInParens(d, BinaryLevel(g) + 1);
  }

  /** Of operators that bind alike the left one goes first. */
  lemma {:induction false} LeftFirst(c: Context, a: Expr, f: string, b: Expr, d: Expr, drawn: seq<nat>)
    requires f in {"||", "&&", "+"}
    ensures EvaluateTokens(c, Three(a, f, b, f, d), drawn)
          == EvaluateTokens(c, Inner(Between(a, f, b)) + [Token(Op, f)] + InParens(d), drawn)
  {
    LeftInner(c, a, OpOf(f), b, OpOf(f), d, f, f, drawn);
  }

  /** ! binds tighter than any of them. */
  lemma {:induction false} NotFirst(c: Context, a: Expr, f: string, b: Expr, drawn: seq<nat>)
    requires f in Operators2
    ensures EvaluateTokens(c, [Token(Op, "!")] + Between(a, f, b), drawn)
          == EvaluateTokens(c, Inner([Token(Op, "!")] + InParens(a)) + [Token(Op, f)] + InParens(b), drawn)
  {
    var (op, no) := (OpOf(f), Not(Group(a)));
    NotPrints(a);
    PrintsInParens(b, BinaryLevel(op) + 1);
    PrintsInParens(no, LeftLevel(op));
    TokensAreBody(no);
    TokensAreBody(Binary(op, no, Group(b)));
    TokensAreBody(Binary(op, Group(no), Group(b)));
    assert Print(no, LeftLevel(op)) == Body(no);
    assert Tokens(Binary(op, no, Group(b))) == [Token(Op, "!")] + Between(a, f, b);
    SameUpToParens(c, Binary(op, no, Group(b)), Binary(op, Group(no), Group(b)), drawn);
  }

  lemma {:induction false} NotPrints(a: Expr)
    ensures Body(Not(Group(a))) == [Token(Op, "!")] + InParens(a)
  {
    PrintsInParens(a, 4);
  }

  // ----- as text -----

  /** The characters of each kind of token. */
  lemma RunesAre(c: char)
    ensures IsBlank(c) <==> c in {' ', '\t', '\n'}
    ensures IsQuote(c) <==> c in {'\'', '"'}
    ensures IsDigit(c) <==> c in {'0', '1', '2', '3', '4', '5', '6', '7', '8', '9'}
    ensures IsNumberRune(c) <==> IsDigit(c) || c == '.'
    ensures IsNameRune(c) <==> IsIdentifierRune(c) || IsDigit(c)
    ensures IsIdentifierRune(c) <==>
              c in {'a', 'b', 'c', 'd', 'e', 'f', 'g', 'h', 'i', 'j', 'k', 'l', 'm', 'n', 'o', 'p', 'q', 'r', 's', 't',
                    'u', 'v', 'w', 'x', 'y', 'z', 'A', 'B', 'C', 'D', 'E', 'F', 'G', 'H', 'I', 'J', 'K', 'L', 'M', 'N',
                    'O', 'P', 'Q', 'R', 'S', 'T', 'U', 'V', 'W', 'X', 'Y', 'Z', '_', '$', '-'}
  {
  }

  lemma OperatorsAre(o: string)
    ensures o in Operators <==> o in Operators2 || o in {"!", "(", ")", ",", "."}
  {
  }

  predicate IsWord(s: string) {
    s != "" && IsIdentifierRune(s[0]) && forall i :: 0 <= i < |s| ==> IsIdentifierRune(s[i]) || IsDigit(s[i])
  }

  predicate IsNumeral(s: string) {
    s != "" && IsDigit(s[0]) && forall i :: 0 <= i < |s| ==> IsDigit(s[i]) || s[i] == '.'
  }

  /** Names and functions are words, numbers numerals, and no string holds both quotes. */
  predicate Spellable(e: Expr) {
    match e
    case Text(s) => '\'' !in s || '"' !in s
    case Numeral(text) => IsNumeral(text)
    case Name(path) => forall i :: 0 <= i < |path| ==> IsWord(path[i])
    case Call(fn, args) => IsWord(fn) && SpellableArgs(args)
    case Group(inner) => Spellable(inner)
    case Not(operand) => Spellable(operand)
    case Binary(_, left, right) => Spellable(left) && Spellable(right)
  }

  predicate SpellableArgs(args: Args) {
    match args case NoArgs => true case More(head, tail) => Spellable(head) && SpellableArgs(tail)
  }

  ghost predicate AllLexable(ts: seq<Token>) { forall i :: 0 <= i < |ts| ==> Lexable(Operators, ts[i]) }

  lemma {:induction false} SpellableIsLexable(e: Expr, level: nat)
    requires Spellable(e)
    ensures AllLexable(Print(e, level)) && AllLexable(Body(e))
    decreases e, 2
  {
    OperatorsAre("(");
    OperatorsAre(")");
    BodyIsLexable(e);
  }

  lemma {:induction false} BodyIsLexable(e: Expr)
    requires Spellable(e)
    ensures AllLexable(Body(e))
    decreases e, 1
  {
    match e
    case Name(path) => DottedIsLexable(path[1..]);
    case Call(fn, args) => CallIsLexable(fn, args);
    case Group(inner) => BracketIsLexable(inner);
    case Not(operand) =>
      OperatorsAre("!");
      SpellableIsLexable(operand, 4);
    case Binary(_, _, _) => BinaryIsLexable(e);
    case _ =>
  }

  lemma {:induction false} BracketIsLexable(inner: Expr)
    requires Spellable(inner)
    ensures AllLexable([OpToken("(")] + Print(inner, 0) + [OpToken(")")])
    decreases inner, 3
  {
    OperatorsAre("(");
    OperatorsAre(")");
    SpellableIsLexable(inner, 0);
  }

  lemma {:induction false} BinaryIsLexable(e: Expr)
    requires e.Binary? && Spellable(e)
    ensures AllLexable(Body(e))
    decreases e, 0
  {
    var (l, r) := (Print(e.left, LeftLevel(e.op)), Print(e.right, BinaryLevel(e.op) + 1));
    SpellableIsLexable(e.left, LeftLevel(e.op));
    SpellableIsLexable(e.right, BinaryLevel(e.op) + 1);
    OperatorsAre(BinaryToken(e.op).value);
    assert AllLexable(l + [BinaryToken(e.op)] + r);
  }

  lemma {:induction false} CallIsLexable(fn: string, args: Args)
    requires IsWord(fn) && SpellableArgs(args)
    ensures AllLexable(Body(Call(fn, args)))
    decreases args, 1
  {
    OperatorsAre("(");
    OperatorsAre(")");
    if args.More? {
      SpellableIsLexable(args.head, 0);
      TailIsLexable(args.tail);
      var (open, close) := ([Token(Ident, fn), OpToken("(")], [OpToken(")")]);
      assert AllLexable(open) && AllLexable(close);
      assert AllLexable(open + Print(args.head, 0) + PrintTail(args.tail) + close);
    }
  }

  lemma {:induction false} TailIsLexable(args: Args)
    requires SpellableArgs(args)
    ensures AllLexable(PrintTail(args))
    decreases args, 0
  {
    OperatorsAre(",");
    if args.More? { SpellableIsLexable(args.head, 0); TailIsLexable(args.tail); }
  }

  lemma {:induction false} DottedIsLexable(names: seq<string>)
    requires forall i :: 0 <= i < |names| ==> IsWord(names[i])
    ensures AllLexable(Dotted(names))
    decreases |names|
  {
    OperatorsAre(".");
    if names != [] { DottedIsLexable(names[1..]); }
  }

  /** Any expression, spelled with blanks between its tokens, comes to what its tokens come to. */
  lemma {:induction false} SpelledEvaluates(c: Context, e: Expr, blanks: seq<string>, drawn: seq<nat>)
    requires Spellable(e) && |blanks| == |Tokens(e)|
    requires forall i :: 0 <= i < |blanks| ==>
                 blanks[i] != "" && forall k :: 0 <= k < |blanks[i]| ==> blanks[i][k] in " \t\n"
    ensures EvaluateText(c, Render(blanks, Tokens(e)), drawn) == EvaluateTokens(c, Tokens(e), drawn)
  {
    SpellableIsLexable(e, 0);
    forall i | 0 <= i < |blanks| ensures AllBlank(blanks[i]) {
      forall k | 0 <= k < |blanks[i]| ensures IsBlank(blanks[i][k]) { RunesAre(blanks[i][k]); }
    }
    LexRender(Operators, blanks, Tokens(e));
  }
}
