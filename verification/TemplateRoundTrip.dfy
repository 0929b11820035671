/** Printing a tree and parsing the tokens is evaluating the tree. */
module TemplateRoundTrip {
  import opened Common
  import opened TemplateValues
  import opened TemplateGrammar
  import opened TemplateParser

  /** toks are the tokens from pos on. */
  ghost predicate Spans(ts: seq<Token>, pos: nat, toks: seq<Token>) {
    pos + |toks| <= |ts| && ts[pos..pos + |toks|] == toks
  }

  lemma Split(ts: seq<Token>, pos: nat, a: seq<Token>, b: seq<Token>)
    requires Spans(ts, pos, a + b)
    ensures Spans(ts, pos, a) && Spans(ts, pos + |a|, b)
  {
    assert (a + b)[..|a|] == a && (a + b)[|a|..] == b;
  }

  /** The level at which the token at i makes an expression go on; -1 if it never does. */
  function Grip(ts: seq<Token>, i: nat): int {
    if IsOp(ts, i, "(") || IsOp(ts, i, ".") then 6
    else if IsOp(ts, i, "||") then 0
    else if IsOp(ts, i, "&&") then 1
    else if IsCompareOp(ts, i) then 2
    else if IsOp(ts, i, "+") then 3
    else -1
  }

  /** Nothing at i makes an expression of the given level, or a tighter one, go on. */
  predicate Stops(ts: seq<Token>, i: nat, level: nat) { Grip(ts, i) < level }

  /** Step s has read all of a tree worth v, up to end. */
  predicate Reads(s: Step<Value>, v: Evaluated<Value>, end: nat) {
    s.res == v.res && s.drawn == v.drawn && (s.res.Ok? ==> s.pos == end)
  }

  /** As Reads, for a repeating level, which is then in its loop with that value in hand. */
  predicate Enters(c: Context, ts: seq<Token>, s: Step<Value>, level: nat, v: Evaluated<Value>, end: nat)
    requires Chains(level) && end <= |ts|
  {
    if v.res.Ok? then s == RestAt(c, ts, end, v.drawn, level, v.res.value)
    else s.res == v.res && s.drawn == v.drawn
  }

  lemma {:induction false} ReadBack(c: Context, ts: seq<Token>, pos: nat, drawn: seq<nat>, e: Expr, level: nat)
    requires level <= 5 && Spans(ts, pos, Print(e, level)) && Stops(ts, pos + |Print(e, level)|, level)
    ensures Reads(LevelAt(c, ts, pos, drawn, level), Eval(c, e, drawn), pos + |Print(e, level)|)
    decreases e, (if Level(e) < level then 20 - level else 10 - level), 2
  {
    if Chains(level) { ReadLoop(c, ts, pos, drawn, e, level); }
    else if level == 2 && Level(e) == 2 { ReadCompare(c, ts, pos, drawn, e); }
    else if level == 4 && Level(e) == 4 { ReadNot(c, ts, pos, drawn, e); }
    else if level < 5 { ReadThrough(c, ts, pos, drawn, e, level); }
    else if Level(e) < 5 { ReadParens(c, ts, pos, drawn, e); }
    else { ReadPrimary(c, ts, pos, drawn, e); }
  }

  lemma {:induction false} ReadLoop(c: Context, ts: seq<Token>, pos: nat, drawn: seq<nat>, e: Expr, level: nat)
    requires Chains(level) && Spans(ts, pos, Print(e, level)) && Stops(ts, pos + |Print(e, level)|, level)
    ensures Reads(LevelAt(c, ts, pos, drawn, level), Eval(c, e, drawn), pos + |Print(e, level)|)
    decreases e, (if Level(e) < level then 20 - level else 10 - level), 1
  {
    var (s, v, end) := (LevelAt(c, ts, pos, drawn, level), Eval(c, e, drawn), pos + |Print(e, level)|);
    ReadChain(c, ts, pos, drawn, e, level, s, v, end);
    if v.res.Ok? { LoopEnds(c, ts, end, level, v); }
  }

  /** A level that does not repeat, when its operator is not there. */
  lemma {:induction false} ReadThrough(c: Context, ts: seq<Token>, pos: nat, drawn: seq<nat>, e: Expr, level: nat)
    requires (level == 2 || level == 4) && Level(e) != level
    requires Spans(ts, pos, Print(e, level)) && Stops(ts, pos + |Print(e, level)|, level)
    ensures Reads(LevelAt(c, ts, pos, drawn, level), Eval(c, e, drawn), pos + |Print(e, level)|)
    decreases e, (if Level(e) < level then 20 - level else 10 - level), 1
  {
    var (v, end) := (Eval(c, e, drawn), pos + |Print(e, level)|);
    if level == 4 {
      PrintTighter(e, level);
      HeadOfPrimary(ts, pos, e);
    }
    ReadAbove(c, ts, pos, drawn, e, level);
    NoOperator(c, ts, pos, drawn, level);
    assert Reads(LevelAt(c, ts, pos, drawn, level), v, end);
  }

  lemma LoopEnds(c: Context, ts: seq<Token>, end: nat, level: nat, v: Evaluated<Value>)
    requires Chains(level) && end <= |ts| && Stops(ts, end, level) && v.res.Ok?
    ensures RestAt(c, ts, end, v.drawn, level, v.res.value) == Step(v.res, end, v.drawn)
  {
  }

  lemma {:induction false} ReadChain(c: Context, ts: seq<Token>, pos: nat, drawn: seq<nat>, e: Expr, level: nat,
                                     s: Step<Value>, v: Evaluated<Value>, end: nat)
    requires Chains(level) && Spans(ts, pos, Print(e, level)) && Stops(ts, end, level + 1)
    requires s == LevelAt(c, ts, pos, drawn, level) && v == Eval(c, e, drawn) && end == pos + |Print(e, level)|
    ensures Enters(c, ts, s, level, v, end)
    decreases e, (if Level(e) < level then 20 - level else 10 - level), 0
  {
    if Level(e) == level {
      ReadRounds(c, ts, pos, drawn, e, level, s, v, end);
    } else {
      ReadAbove(c, ts, pos, drawn, e, level);
      EnterLoop(c, ts, pos, drawn, level, v, end);
    }
  }

  lemma {:induction false} ReadAbove(c: Context, ts: seq<Token>, pos: nat, drawn: seq<nat>, e: Expr, level: nat)
    requires level < 5 && Level(e) != level
    requires Spans(ts, pos, Print(e, level)) && Stops(ts, pos + |Print(e, level)|, level + 1)
    ensures Reads(LevelAt(c, ts, pos, drawn, level + 1), Eval(c, e, drawn), pos + |Print(e, level)|)
    decreases e, (if Level(e) < level then 19 - level else 9 - level), 3
  {
    PrintTighter(e, level);
    ReadBack(c, ts, pos, drawn, e, level + 1);
  }

  lemma PrintTighter(e: Expr, level: nat)
    requires Level(e) != level
    ensures Print(e, level + 1) == Print(e, level)
  {
  }

  lemma {:induction false} ReadRounds(c: Context, ts: seq<Token>, pos: nat, drawn: seq<nat>, e: Expr, level: nat,
                                      s: Step<Value>, v: Evaluated<Value>, end: nat)
    requires e.Binary? && Chains(level) && Level(e) == level && Spans(ts, pos, Body(e)) && Stops(ts, end, level + 1)
    requires s == LevelAt(c, ts, pos, drawn, level) && v == Eval(c, e, drawn) && end == pos + |Body(e)|
    ensures Enters(c, ts, s, level, v, end)
    decreases e, 1
  {
    var l := Eval(c, e.left, drawn);
    var i := SplitChain(ts, pos, e, level);
    ReadChain(c, ts, pos, drawn, e.left, level, s, l, i);
    EvalBinary(c, e, drawn);
    if l.res.Ok? { ReadRight(c, ts, pos, i, e, level, l, s, end); }
  }

  /** The last operator of a chain stands at i. */
  lemma SplitChain(ts: seq<Token>, pos: nat, e: Expr, level: nat) returns (i: nat)
    requires e.Binary? && Chains(level) && Level(e) == level && Spans(ts, pos, Body(e))
    ensures i == pos + |Print(e.left, level)| && i < |ts| && ts[i] == BinaryToken(e.op)
    ensures Spans(ts, pos, Print(e.left, level)) && Stops(ts, i, level + 1)
    ensures Spans(ts, i + 1, Print(e.right, level + 1)) && i + 1 + |Print(e.right, level + 1)| == pos + |Body(e)|
  {
    i := SplitBinary(ts, pos, e);
  }

  /** The loop, with l in hand, goes once round the operator at i. */
  lemma {:induction false} ReadRight(c: Context, ts: seq<Token>, pos: nat, i: nat, e: Expr, level: nat,
                                     l: Evaluated<Value>, s: Step<Value>, end: nat)
    requires e.Binary? && Chains(level) && Level(e) == level && Spans(ts, pos, Body(e))
    requires i == pos + |Print(e.left, level)| <= |ts| && end == pos + |Body(e)|
    requires Stops(ts, end, level + 1) && l.res.Ok? && Enters(c, ts, s, level, l, i)
    ensures Enters(c, ts, s, level, Both(c.host, e.op, l, Eval(c, e.right, l.drawn)), end)
    decreases e, 0
  {
    var r := Eval(c, e.right, l.drawn);
    ReadAfter(c, ts, pos, i, l.drawn, e, level, end);
    OneRound(c, ts, s, i, e.op, l, r, end);
    assert Enters(c, ts, s, level, Both(c.host, e.op, l, r), end);
  }

  /** The operator at i, and what stands after it. */
  lemma {:induction false} ReadAfter(c: Context, ts: seq<Token>, pos: nat, i: nat, drawn: seq<nat>, e: Expr,
                                     level: nat, end: nat)
    requires e.Binary? && Level(e) == level && Spans(ts, pos, Body(e)) && Stops(ts, end, level + 1)
    requires i == pos + |Print(e.left, LeftLevel(e.op))| && end == pos + |Body(e)|
    ensures i < |ts| && ts[i] == BinaryToken(e.op) && end <= |ts|
    ensures Reads(LevelAt(c, ts, i + 1, drawn, level + 1), Eval(c, e.right, drawn), end)
    decreases e.right, 50
  {
    var v := Eval(c, e.right, drawn);
    RightSpan(ts, pos, i, e, level, end);
    ReadBack(c, ts, i + 1, drawn, e.right, level + 1);
    assert Reads(LevelAt(c, ts, i + 1, drawn, level + 1), v, end);
  }

  lemma RightSpan(ts: seq<Token>, pos: nat, i: nat, e: Expr, level: nat, end: nat)
    requires e.Binary? && Level(e) == level && Spans(ts, pos, Body(e))
    requires i == pos + |Print(e.left, LeftLevel(e.op))| && end == pos + |Body(e)|
    ensures i < |ts| && ts[i] == BinaryToken(e.op) && end <= |ts|
    ensures Spans(ts, i + 1, Print(e.right, level + 1)) && end == i + 1 + |Print(e.right, level + 1)|
  {
    var _ := SplitBinary(ts, pos, e);
  }

  /** What a binary tree is worth once both operands are known. */
  function Both(h: Host, op: BinaryOp, l: Evaluated<Value>, r: Evaluated<Value>): Evaluated<Value>
    requires l.res.Ok?
  {
    if r.res.Err? then r else Evaluated(Ok(Combine(h, op, l.res.value, r.res.value)), r.drawn)
  }

  lemma EvalBinary(c: Context, e: Expr, drawn: seq<nat>)
    requires e.Binary?
    ensures var l := Eval(c, e.left, drawn);
            Eval(c, e, drawn) == if l.res.Err? then l else Both(c.host, e.op, l, Eval(c, e.right, l.drawn))
  {
  }

  lemma EnterLoop(c: Context, ts: seq<Token>, pos: nat, drawn: seq<nat>, level: nat, v: Evaluated<Value>, end: nat)
    requires Chains(level) && pos <= |ts| && end <= |ts|
    requires Reads(LevelAt(c, ts, pos, drawn, level + 1), v, end)
    ensures Enters(c, ts, LevelAt(c, ts, pos, drawn, level), level, v, end)
  {
  }

  lemma OneRound(c: Context, ts: seq<Token>, s: Step<Value>, i: nat, op: BinaryOp,
                 l: Evaluated<Value>, r: Evaluated<Value>, end: nat)
    requires Chains(BinaryLevel(op)) && i < |ts| && ts[i] == BinaryToken(op) && end <= |ts|
    requires l.res.Ok? && Enters(c, ts, s, BinaryLevel(op), l, i)
    requires Reads(LevelAt(c, ts, i + 1, l.drawn, BinaryLevel(op) + 1), r, end)
    ensures Enters(c, ts, s, BinaryLevel(op), Both(c.host, op, l, r), end)
  {
    assert ChainOp(BinaryLevel(op)) == op;
  }

  /** The operator of a printed binary tree stands at i, between its operands. */
  lemma SplitBinary(ts: seq<Token>, pos: nat, e: Expr) returns (i: nat)
    requires e.Binary? && Spans(ts, pos, Body(e))
    ensures i == pos + |Print(e.left, LeftLevel(e.op))| && i < |ts| && ts[i] == BinaryToken(e.op)
    ensures Spans(ts, pos, Print(e.left, LeftLevel(e.op))) && Spans(ts, i + 1, Print(e.right, BinaryLevel(e.op) + 1))
    ensures i + 1 + |Print(e.right, BinaryLevel(e.op) + 1)| == pos + |Body(e)|
    ensures Stops(ts, i, Level(e) + 1)
  {
    var l, r := Print(e.left, LeftLevel(e.op)), Print(e.right, BinaryLevel(e.op) + 1);
    i := pos + |l|;
    assert Body(e) == l + ([BinaryToken(e.op)] + r);
    SplitAt(ts, pos, l, BinaryToken(e.op), r);
    GripOf(ts, i, e.op);
  }

  lemma GripOf(ts: seq<Token>, i: nat, op: BinaryOp)
    requires i < |ts| && ts[i] == BinaryToken(op)
    ensures Grip(ts, i) == BinaryLevel(op)
  {
  }

  lemma {:induction false} ReadCompare(c: Context, ts: seq<Token>, pos: nat, drawn: seq<nat>, e: Expr)
    requires e.Binary? && e.op.Compare? && Spans(ts, pos, Body(e)) && Stops(ts, pos + |Body(e)|, 2)
    ensures Reads(LevelAt(c, ts, pos, drawn, 2), Eval(c, e, drawn), pos + |Body(e)|)
    decreases e, 1
  {
    var l := Eval(c, e.left, drawn);
    var i := ReadLeftOperand(c, ts, pos, drawn, e);
    if l.res.Ok? { ReadAfter(c, ts, pos, i, l.drawn, e, 2, pos + |Body(e)|); }
    EvalBinary(c, e, drawn);
    CompareOnce(c, ts, pos, drawn, e.op, l, i, Eval(c, e.right, l.drawn), pos + |Body(e)|);
  }

  lemma {:induction false} ReadLeftOperand(c: Context, ts: seq<Token>, pos: nat, drawn: seq<nat>, e: Expr)
      returns (i: nat)
    requires e.Binary? && e.op.Compare? && Spans(ts, pos, Body(e)) && Stops(ts, pos + |Body(e)|, 2)
    ensures i == pos + |Print(e.left, 3)| && i < |ts| && ts[i] == BinaryToken(e.op)
    ensures Reads(LevelAt(c, ts, pos, drawn, 3), Eval(c, e.left, drawn), i)
    decreases e, 0
  {
    i := SplitCompare(ts, pos, e);
    ReadBack(c, ts, pos, drawn, e.left, 3);
  }

  lemma SplitCompare(ts: seq<Token>, pos: nat, e: Expr) returns (i: nat)
    requires e.Binary? && e.op.Compare? && Spans(ts, pos, Body(e)) && Stops(ts, pos + |Body(e)|, 2)
    ensures i == pos + |Print(e.left, 3)| && i < |ts| && ts[i] == BinaryToken(e.op)
    ensures Spans(ts, pos, Print(e.left, 3)) && Stops(ts, i, 3)
    ensures Spans(ts, i + 1, Print(e.right, 3)) && i + 1 + |Print(e.right, 3)| == pos + |Body(e)|
    ensures Stops(ts, pos + |Body(e)|, 3)
  {
    i := SplitBinary(ts, pos, e);
  }

  lemma CompareOnce(c: Context, ts: seq<Token>, pos: nat, drawn: seq<nat>, op: BinaryOp,
                    l: Evaluated<Value>, i: nat, r: Evaluated<Value>, end: nat)
    requires pos <= |ts| && op.Compare? && Reads(LevelAt(c, ts, pos, drawn, 3), l, i)
    requires l.res.Ok? ==> i < |ts| && ts[i] == BinaryToken(op) && Reads(LevelAt(c, ts, i + 1, l.drawn, 3), r, end)
    ensures Reads(LevelAt(c, ts, pos, drawn, 2), if l.res.Err? then l else Both(c.host, op, l, r), end)
  {
  }

  lemma {:induction false} ReadNot(c: Context, ts: seq<Token>, pos: nat, drawn: seq<nat>, e: Expr)
    requires e.Not? && Spans(ts, pos, Body(e)) && Stops(ts, pos + |Body(e)|, 4)
    ensures Reads(LevelAt(c, ts, pos, drawn, 4), Eval(c, e, drawn), pos + |Body(e)|)
    decreases e, 0
  {
    Split(ts, pos, [OpToken("!")], Print(e.operand, 4));
    assert ts[pos] == ts[pos..pos + 1][0];
    ReadBack(c, ts, pos + 1, drawn, e.operand, 4);
  }

  lemma HeadOfPrimary(ts: seq<Token>, pos: nat, e: Expr)
    requires Spans(ts, pos, Print(e, 5))
    ensures !IsOp(ts, pos, "!")
  {
    assert |Print(e, 5)| > 0 && ts[pos] == Print(e, 5)[0] != OpToken("!");
  }

  lemma NoOperator(c: Context, ts: seq<Token>, pos: nat, drawn: seq<nat>, level: nat)
    requires pos <= |ts| && (level == 2 || level == 4)
    requires level == 4 ==> !IsOp(ts, pos, "!")
    requires level == 2 ==> var s := LevelAt(c, ts, pos, drawn, 3); s.res.Ok? ==> !IsCompareOp(ts, s.pos)
    ensures LevelAt(c, ts, pos, drawn, level) == LevelAt(c, ts, pos, drawn, level + 1)
  {
  }

  lemma {:induction false} ReadParens(c: Context, ts: seq<Token>, pos: nat, drawn: seq<nat>, e: Expr)
    requires Level(e) < 5 && Spans(ts, pos, Print(e, 5))
    ensures Reads(LevelAt(c, ts, pos, drawn, 5), Eval(c, e, drawn), pos + |Print(e, 5)|)
    decreases e, 14
  {
    ReadInner(c, ts, pos, drawn, e);
  }

  lemma {:induction false} ReadInner(c: Context, ts: seq<Token>, pos: nat, drawn: seq<nat>, inner: Expr)
    requires Spans(ts, pos, [OpToken("(")] + Print(inner, 0) + [OpToken(")")])
    ensures Reads(PrimaryAt(c, ts, pos, drawn), Eval(c, inner, drawn), pos + |Print(inner, 0)| + 2)
    decreases inner, 13
  {
    var body := Print(inner, 0);
    SplitParens(ts, pos, body);
    ReadBack(c, ts, pos + 1, drawn, inner, 0);
    assert PrimaryAt(c, ts, pos, drawn) == ParensAt(c, ts, pos + 1, drawn);
  }

  /** What stands in parentheses, and they themselves. */
  lemma SplitParens(ts: seq<Token>, pos: nat, body: seq<Token>)
    requires Spans(ts, pos, [OpToken("(")] + body + [OpToken(")")])
    ensures pos + 1 + |body| < |ts| && ts[pos] == OpToken("(") && ts[pos + 1 + |body|] == OpToken(")")
    ensures Spans(ts, pos + 1, body) && Stops(ts, pos + 1 + |body|, 0)
  {
    var close := [OpToken(")")];
    assert [OpToken("(")] + body + close == [OpToken("(")] + (body + close);
    Split(ts, pos, [OpToken("(")], body + close);
    Split(ts, pos + 1, body, close);
    assert ts[pos] == ts[pos..pos + 1][0];
    assert ts[pos + 1 + |body|] == ts[pos + 1 + |body|..pos + 2 + |body|][0];
  }

  lemma {:induction false} ReadPrimary(c: Context, ts: seq<Token>, pos: nat, drawn: seq<nat>, e: Expr)
    requires Level(e) == 5 && Spans(ts, pos, Body(e)) && Stops(ts, pos + |Body(e)|, 5)
    ensures Reads(LevelAt(c, ts, pos, drawn, 5), Eval(c, e, drawn), pos + |Body(e)|)
    decreases e, 1
  {
    assert LevelAt(c, ts, pos, drawn, 5) == PrimaryAt(c, ts, pos, drawn);
    match e
    case Text(s) => assert ts[pos] == Body(e)[0];
    case Numeral(text) => assert ts[pos] == Body(e)[0];
    case Name(path) => ReadName(c, ts, pos, drawn, path);
    case Group(inner) => ReadInner(c, ts, pos, drawn, inner);
    case Call(fn, args) => ReadCall(c, ts, pos, drawn, e);
  }

  lemma {:induction false} ReadName(c: Context, ts: seq<Token>, pos: nat, drawn: seq<nat>, path: Path)
    requires Spans(ts, pos, Body(Name(path))) && Stops(ts, pos + |Body(Name(path))|, 5)
    ensures Reads(PrimaryAt(c, ts, pos, drawn), Evaluated(Ok(NameValue(c, path)), drawn), pos + |Body(Name(path))|)
  {
    Split(ts, pos, [Token(Ident, path[0])], Dotted(path[1..]));
    assert ts[pos] == ts[pos..pos + 1][0];
    if |path| > 1 { assert ts[pos + 1] == Dotted(path[1..])[0]; }
    ReadPath(ts, pos + 1, [path[0]], path[1..]);
    assert [path[0]] + path[1..] == path;
    assert PrimaryAt(c, ts, pos, drawn) == NameAt(c, ts, pos + 1, drawn, path[0]);
  }

  lemma {:induction false} ReadPath(ts: seq<Token>, pos: nat, path: Path, names: seq<string>)
    requires Spans(ts, pos, Dotted(names)) && !IsOp(ts, pos + |Dotted(names)|, ".")
    ensures PathAt(ts, pos, path) == Step(Ok(path + names), pos + |Dotted(names)|, [])
    decreases |names|
  {
    if names == [] {
      assert path + names == path;
    } else {
      var two := [OpToken("."), Token(Ident, names[0])];
      Split(ts, pos, two, Dotted(names[1..]));
      assert ts[pos] == two[0] && ts[pos + 1] == two[1];
      ReadPath(ts, pos + 2, path + [names[0]], names[1..]);
      assert path + [names[0]] + names[1..] == path + names;
    }
  }

  lemma {:induction false} ReadCall(c: Context, ts: seq<Token>, pos: nat, drawn: seq<nat>, e: Expr)
    requires e.Call? && Spans(ts, pos, Body(e))
    ensures Reads(PrimaryAt(c, ts, pos, drawn), Eval(c, e, drawn), pos + |Body(e)|)
    decreases e, 0
  {
    var open := [Token(Ident, e.fn), OpToken("(")];
    var rest := (if e.args.NoArgs? then [] else Print(e.args.head, 0) + PrintTail(e.args.tail)) + [OpToken(")")];
    assert Body(e) == open + rest;
    Split(ts, pos, open, rest);
    assert ts[pos] == open[0] && ts[pos + 1] == open[1];
    assert ts[pos + 2] == rest[0];
    assert PrimaryAt(c, ts, pos, drawn) == CallAt(c, ts, pos + 2, drawn, e.fn);
    if e.args.More? {
      HeadOf(e.args.head, 0);
      ReadArgs(c, ts, pos + 2, drawn, e.fn, [], e.args);
      assert forall vs: seq<Value> :: [] + vs == vs;
    }
  }

  lemma {:induction false} HeadOf(e: Expr, level: nat)
    ensures |Print(e, level)| > 0 && Print(e, level)[0] != OpToken(")")
    decreases e
  {
    if e.Binary? { HeadOf(e.left, LeftLevel(e.op)); }
  }

  predicate ReadsArgs(s: Step<seq<Value>>, before: seq<Value>, v: Evaluated<seq<Value>>, end: nat) {
    s.drawn == v.drawn && if v.res.Ok? then s.res == Ok(before + v.res.value) && s.pos == end else s.res == v.res
  }

  lemma {:induction false} ReadArgs(c: Context, ts: seq<Token>, pos: nat, drawn: seq<nat>, fn: string,
                                    before: seq<Value>, args: Args)
    requires args.More? && Spans(ts, pos, Print(args.head, 0) + PrintTail(args.tail) + [OpToken(")")])
    ensures ReadsArgs(ArgsAt(c, ts, pos, drawn, fn, before), before, EvalArgs(c, args, drawn),
                      pos + |Print(args.head, 0)| + |PrintTail(args.tail)| + 1)
    decreases args, 3
  {
    SplitArgs(ts, pos, args);
    ReadBack(c, ts, pos, drawn, args.head, 0);
    if Eval(c, args.head, drawn).res.Ok? { ReadOthers(c, ts, pos, drawn, fn, before, args); }
  }

  lemma {:induction false} ReadOthers(c: Context, ts: seq<Token>, pos: nat, drawn: seq<nat>, fn: string,
                                      before: seq<Value>, args: Args)
    requires args.More? && Spans(ts, pos, Print(args.head, 0) + PrintTail(args.tail) + [OpToken(")")])
    requires Eval(c, args.head, drawn).res.Ok?
    requires Reads(LevelAt(c, ts, pos, drawn, 0), Eval(c, args.head, drawn), pos + |Print(args.head, 0)|)
    ensures ReadsArgs(ArgsAt(c, ts, pos, drawn, fn, before), before, EvalArgs(c, args, drawn),
                      pos + |Print(args.head, 0)| + |PrintTail(args.tail)| + 1)
    decreases args, 2
  {
    var i := pos + |Print(args.head, 0)|;
    SplitArgs(ts, pos, args);
    if args.tail.More? {
      ReadNext(c, ts, pos, drawn, fn, before, args, i);
    } else {
      LastArg(c, ts, pos, drawn, fn, before, args, i);
    }
  }

  lemma {:induction false} ReadNext(c: Context, ts: seq<Token>, pos: nat, drawn: seq<nat>, fn: string,
                                    before: seq<Value>, args: Args, i: nat)
    requires pos <= |ts| && args.More? && args.tail.More? && IsOp(ts, i, ",") && Eval(c, args.head, drawn).res.Ok?
    requires Spans(ts, i + 1, Print(args.tail.head, 0) + PrintTail(args.tail.tail) + [OpToken(")")])
    requires Reads(LevelAt(c, ts, pos, drawn, 0), Eval(c, args.head, drawn), i)
    ensures ReadsArgs(ArgsAt(c, ts, pos, drawn, fn, before), before, EvalArgs(c, args, drawn),
                      i + |PrintTail(args.tail)| + 1)
    decreases args, 1
  {
    var v := Eval(c, args.head, drawn);
    var (tail, all) := (args.tail, EvalArgs(c, args, drawn));
    ReadArgs(c, ts, i + 1, v.drawn, fn, before + [v.res.value], tail);
    assert |PrintTail(tail)| == 1 + |Print(tail.head, 0)| + |PrintTail(tail.tail)|;
    NextArg(c, ts, pos, drawn, fn, before, args, i);
    assert ReadsArgs(ArgsAt(c, ts, pos, drawn, fn, before), before, all, i + |PrintTail(tail)| + 1);
  }

  /** An argument and a comma before others. */
  lemma NextArg(c: Context, ts: seq<Token>, pos: nat, drawn: seq<nat>, fn: string, before: seq<Value>, args: Args,
                i: nat)
    requires pos <= |ts| && args.More? && args.tail.More? && IsOp(ts, i, ",") && Eval(c, args.head, drawn).res.Ok?
    requires Reads(LevelAt(c, ts, pos, drawn, 0), Eval(c, args.head, drawn), i)
    requires var v := Eval(c, args.head, drawn);
             ReadsArgs(ArgsAt(c, ts, i + 1, v.drawn, fn, before + [v.res.value]), before + [v.res.value],
                       EvalArgs(c, args.tail, v.drawn), i + |PrintTail(args.tail)| + 1)
    ensures ReadsArgs(ArgsAt(c, ts, pos, drawn, fn, before), before, EvalArgs(c, args, drawn),
                      i + |PrintTail(args.tail)| + 1)
  {
    var v := Eval(c, args.head, drawn);
    OneArg(c, ts, pos, drawn, fn, before, v, i);
    AddArg(ArgsAt(c, ts, pos, drawn, fn, before), before, c, args, drawn, i + |PrintTail(args.tail)| + 1);
  }

  /** An argument and the closing parenthesis. */
  lemma LastArg(c: Context, ts: seq<Token>, pos: nat, drawn: seq<nat>, fn: string, before: seq<Value>, args: Args,
                i: nat)
    requires pos <= |ts| && args.More? && args.tail.NoArgs? && IsOp(ts, i, ")") && Eval(c, args.head, drawn).res.Ok?
    requires Reads(LevelAt(c, ts, pos, drawn, 0), Eval(c, args.head, drawn), i)
    ensures ReadsArgs(ArgsAt(c, ts, pos, drawn, fn, before), before, EvalArgs(c, args, drawn), i + 1)
  {
    var v := Eval(c, args.head, drawn);
    OneArg(c, ts, pos, drawn, fn, before, v, i);
    assert before + [v.res.value] + [] == before + [v.res.value];
    AddArg(ArgsAt(c, ts, pos, drawn, fn, before), before, c, args, drawn, i + 1);
  }

  lemma AddArg(s: Step<seq<Value>>, before: seq<Value>, c: Context, args: Args, drawn: seq<nat>, end: nat)
    requires args.More? && Eval(c, args.head, drawn).res.Ok?
    requires var v := Eval(c, args.head, drawn);
             ReadsArgs(s, before + [v.res.value], EvalArgs(c, args.tail, v.drawn), end)
    ensures ReadsArgs(s, before, EvalArgs(c, args, drawn), end)
  {
    var v := Eval(c, args.head, drawn);
    var t := EvalArgs(c, args.tail, v.drawn);
    if t.res.Ok? { assert before + [v.res.value] + t.res.value == before + ([v.res.value] + t.res.value); }
  }

  lemma SplitArgs(ts: seq<Token>, pos: nat, args: Args)
    requires args.More? && Spans(ts, pos, Print(args.head, 0) + PrintTail(args.tail) + [OpToken(")")])
    ensures Spans(ts, pos, Print(args.head, 0)) && Stops(ts, pos + |Print(args.head, 0)|, 0)
    ensures IsOp(ts, pos + |Print(args.head, 0)|, if args.tail.More? then "," else ")")
    ensures args.tail.More? ==>
      Spans(ts, pos + |Print(args.head, 0)| + 1, Print(args.tail.head, 0) + PrintTail(args.tail.tail) + [OpToken(")")])
  {
    var (h, close) := (Print(args.head, 0), [OpToken(")")]);
    if args.tail.More? {
      var (h', t') := (Print(args.tail.head, 0), PrintTail(args.tail.tail));
      assert PrintTail(args.tail) == [OpToken(",")] + h' + t';
      CommaFirst(h, h', t', close);
      SplitAt(ts, pos, h, OpToken(","), h' + t' + close);
    } else {
      assert h + [] + close == h + (close + []);
      SplitAt(ts, pos, h, OpToken(")"), []);
    }
  }

  lemma CommaFirst(a: seq<Token>, b: seq<Token>, c: seq<Token>, d: seq<Token>)
    ensures a + ([OpToken(",")] + b + c) + d == a + ([OpToken(",")] + (b + c + d))
  {
  }

  lemma SplitAt(ts: seq<Token>, pos: nat, a: seq<Token>, token: Token, b: seq<Token>)
    requires Spans(ts, pos, a + ([token] + b))
    ensures Spans(ts, pos, a) && pos + |a| < |ts| && ts[pos + |a|] == token && Spans(ts, pos + |a| + 1, b)
  {
    Split(ts, pos, a, [token] + b);
    Split(ts, pos + |a|, [token], b);
    assert ts[pos + |a|] == ts[pos + |a|..pos + |a| + 1][0];
  }

  lemma OneArg(c: Context, ts: seq<Token>, pos: nat, drawn: seq<nat>, fn: string, before: seq<Value>,
               v: Evaluated<Value>, i: nat)
    requires pos <= |ts| && v.res.Ok? && Reads(LevelAt(c, ts, pos, drawn, 0), v, i)
    requires IsOp(ts, i, ",") || IsOp(ts, i, ")")
    ensures ArgsAt(c, ts, pos, drawn, fn, before) ==
              if IsOp(ts, i, ",") then ArgsAt(c, ts, i + 1, v.drawn, fn, before + [v.res.value])
              else Step(Ok(before + [v.res.value]), i + 1, v.drawn)
  {
  }

  /** A printed tree is read back whole: same value or error, same draws in the same order. */
  lemma {:induction false} EvaluatesLikeTree(c: Context, e: Expr, drawn: seq<nat>)
    ensures EvaluateTokens(c, Tokens(e), drawn) == Eval(c, e, drawn)
  {
    HeadOf(e, 0);
    ReadBack(c, Tokens(e), 0, drawn, e, 0);
  }
}
