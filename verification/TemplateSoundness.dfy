/** Every token sequence that has a value is a printed tree, and has that tree's value. */
module TemplateSoundness {
  import opened Common
  import opened TemplateValues
  import opened TemplateGrammar
  import opened TemplateParser
  import opened TemplateRoundTrip
  import opened TemplateTokenizer

  /** The tokens from pos to end are exactly those of e, a tree of at least the given level, worth v. */
  ghost predicate Spells(c: Context, ts: seq<Token>, pos: nat, end: nat, drawn: seq<nat>, level: nat,
                         e: Expr, v: Evaluated<Value>)
  {
    pos <= end <= |ts| && ts[pos..end] == Body(e) && Level(e) >= level && Eval(c, e, drawn) == v
  }

  lemma {:induction false} Sound(c: Context, ts: seq<Token>, pos: nat, drawn: seq<nat>, level: nat) returns (e: Expr)
    requires pos <= |ts| && level <= 5 && LevelAt(c, ts, pos, drawn, level).res.Ok?
    ensures var s := LevelAt(c, ts, pos, drawn, level);
            Spells(c, ts, pos, s.pos, drawn, level, e, Evaluated(s.res, s.drawn))
    decreases |ts| - pos, 6 - level, 1
  {
    if level == 5 { e := SoundPrimary(c, ts, pos, drawn); }
    else if level == 4 && IsOp(ts, pos, "!") { e := SoundNot(c, ts, pos, drawn); }
    else if level == 4 { e := Sound(c, ts, pos, drawn, 5); }
    else if level == 2 { e := SoundCompare(c, ts, pos, drawn); }
    else {
      var s := LevelAt(c, ts, pos, drawn, level + 1);
      e := Sound(c, ts, pos, drawn, level + 1);
      e := SoundRest(c, ts, pos, s.pos, drawn, level, e, Evaluated(s.res, s.drawn));
    }
  }

  lemma {:induction false} SoundCompare(c: Context, ts: seq<Token>, pos: nat, drawn: seq<nat>) returns (e: Expr)
    requires pos <= |ts| && LevelAt(c, ts, pos, drawn, 2).res.Ok?
    ensures var s := LevelAt(c, ts, pos, drawn, 2);
            Spells(c, ts, pos, s.pos, drawn, 2, e, Evaluated(s.res, s.drawn))
    decreases |ts| - pos, 4, 0
  {
    var s := LevelAt(c, ts, pos, drawn, 3);
    e := Sound(c, ts, pos, drawn, 3);
    if IsCompareOp(ts, s.pos) {
      var r := LevelAt(c, ts, s.pos + 1, s.drawn, 3);
      var op := Compare(ts[s.pos].value);
      CompareStep(c, ts, pos, drawn, op, s, r);
      e := SoundCompared(c, ts, pos, drawn, op, e, s, r);
    } else {
      NoOperator(c, ts, pos, drawn, 2);
    }
  }

  lemma CompareStep(c: Context, ts: seq<Token>, pos: nat, drawn: seq<nat>, op: BinaryOp, s: Step<Value>, r: Step<Value>)
    requires pos <= |ts| && s == LevelAt(c, ts, pos, drawn, 3) && s.res.Ok?
    requires op.Compare? && s.pos < |ts| && ts[s.pos] == BinaryToken(op)
    requires r == LevelAt(c, ts, s.pos + 1, s.drawn, 3)
    ensures LevelAt(c, ts, pos, drawn, 2) ==
              if r.res.Err? then r
              else
                var v := Both(c.host, op, Evaluated(s.res, s.drawn), Evaluated(r.res, r.drawn));
                Step(v.res, r.pos, v.drawn)
  {
  }

  lemma {:induction false} SoundCompared(c: Context, ts: seq<Token>, pos: nat, drawn: seq<nat>, op: BinaryOp,
                                         left: Expr, s: Step<Value>, r: Step<Value>) returns (e: Expr)
    requires op.Compare? && s.res.Ok? && s.pos < |ts| && ts[s.pos] == BinaryToken(op)
    requires Spells(c, ts, pos, s.pos, drawn, 3, left, Evaluated(s.res, s.drawn))
    requires r == LevelAt(c, ts, s.pos + 1, s.drawn, 3) && r.res.Ok?
    ensures Spells(c, ts, pos, r.pos, drawn, 2, e,
                   Both(c.host, op, Evaluated(s.res, s.drawn), Evaluated(r.res, r.drawn)))
    decreases |ts| - pos, 0
  {
    var right := Sound(c, ts, s.pos + 1, s.drawn, 3);
    e := Glue(c, ts, pos, s.pos, drawn, 2, op, left, right, Evaluated(s.res, s.drawn), r);
  }

  lemma Glue(c: Context, ts: seq<Token>, pos: nat, i: nat, drawn: seq<nat>, level: nat, op: BinaryOp,
             left: Expr, right: Expr, l: Evaluated<Value>, r: Step<Value>) returns (e: Expr)
    requires BinaryLevel(op) == level && l.res.Ok? && r.res.Ok?
    requires Spells(c, ts, pos, i, drawn, LeftLevel(op), left, l)
    requires i < |ts| && ts[i] == BinaryToken(op)
    requires Spells(c, ts, i + 1, r.pos, l.drawn, level + 1, right, Evaluated(r.res, r.drawn))
    ensures Spells(c, ts, pos, r.pos, drawn, level, e, Both(c.host, op, l, Evaluated(r.res, r.drawn)))
    ensures e == Binary(op, left, right)
  {
    e := Binary(op, left, right);
    assert ts[pos..r.pos] == ts[pos..i] + [ts[i]] + ts[i + 1..r.pos];
  }

  lemma {:induction false} SoundRest(c: Context, ts: seq<Token>, pos: nat, i: nat, drawn: seq<nat>, level: nat,
                                     left: Expr, l: Evaluated<Value>) returns (e: Expr)
    requires Chains(level) && i <= |ts| && l.res.Ok? && Spells(c, ts, pos, i, drawn, level, left, l)
    requires RestAt(c, ts, i, l.drawn, level, l.res.value).res.Ok?
    ensures var s := RestAt(c, ts, i, l.drawn, level, l.res.value);
            Spells(c, ts, pos, s.pos, drawn, level, e, Evaluated(s.res, s.drawn))
    decreases |ts| - i, 1
  {
    e := left;
    if IsOp(ts, i, BinaryToken(ChainOp(level)).value) {
      var r := LevelAt(c, ts, i + 1, l.drawn, level + 1);
      var v := Both(c.host, ChainOp(level), l, Evaluated(r.res, r.drawn));
      e := SoundRound(c, ts, pos, i, drawn, level, left, l, r);
      e := SoundRest(c, ts, pos, r.pos, drawn, level, e, v);
    }
  }

  lemma {:induction false} SoundRound(c: Context, ts: seq<Token>, pos: nat, i: nat, drawn: seq<nat>, level: nat,
                                      left: Expr, l: Evaluated<Value>, r: Step<Value>) returns (e: Expr)
    requires Chains(level) && i <= |ts| && l.res.Ok? && Spells(c, ts, pos, i, drawn, level, left, l)
    requires IsOp(ts, i, BinaryToken(ChainOp(level)).value)
    requires r == LevelAt(c, ts, i + 1, l.drawn, level + 1) && r.res.Ok?
    ensures Spells(c, ts, pos, r.pos, drawn, level, e, Both(c.host, ChainOp(level), l, Evaluated(r.res, r.drawn)))
    decreases |ts| - i, 0
  {
    var right := Sound(c, ts, i + 1, l.drawn, level + 1);
    e := Glue(c, ts, pos, i, drawn, level, ChainOp(level), left, right, l, r);
  }

  lemma {:induction false} SoundNot(c: Context, ts: seq<Token>, pos: nat, drawn: seq<nat>) returns (e: Expr)
    requires IsOp(ts, pos, "!") && LevelAt(c, ts, pos, drawn, 4).res.Ok?
    ensures var s := LevelAt(c, ts, pos, drawn, 4);
            Spells(c, ts, pos, s.pos, drawn, 4, e, Evaluated(s.res, s.drawn))
    decreases |ts| - pos, 0
  {
    var s := LevelAt(c, ts, pos + 1, drawn, 4);
    e := Sound(c, ts, pos + 1, drawn, 4);
    e := Not(e);
    assert ts[pos..s.pos] == [ts[pos]] + ts[pos + 1..s.pos];
  }

  lemma {:induction false} SoundPrimary(c: Context, ts: seq<Token>, pos: nat, drawn: seq<nat>) returns (e: Expr)
    requires pos <= |ts| && PrimaryAt(c, ts, pos, drawn).res.Ok?
    ensures var s := PrimaryAt(c, ts, pos, drawn);
            Spells(c, ts, pos, s.pos, drawn, 5, e, Evaluated(s.res, s.drawn))
    decreases |ts| - pos, 1, 0
  {
    var token := ts[pos];
    match token.kind
    case String =>
      e := Text(token.value);
      assert ts[pos..pos + 1] == [token];
    case Number =>
      e := Numeral(token.value);
      assert ts[pos..pos + 1] == [token];
    case Op => e := SoundGroup(c, ts, pos, drawn);
    case Ident =>
      if IsOp(ts, pos + 1, "(") { e := SoundCall(c, ts, pos, drawn); } else { e := SoundName(c, ts, pos, drawn); }
  }

  lemma {:induction false} SoundGroup(c: Context, ts: seq<Token>, pos: nat, drawn: seq<nat>) returns (e: Expr)
    requires pos < |ts| && ts[pos].kind == Op && PrimaryAt(c, ts, pos, drawn).res.Ok?
    ensures var s := PrimaryAt(c, ts, pos, drawn);
            Spells(c, ts, pos, s.pos, drawn, 5, e, Evaluated(s.res, s.drawn))
    decreases |ts| - pos, 0
  {
    var s := LevelAt(c, ts, pos + 1, drawn, 0);
    var inner := Sound(c, ts, pos + 1, drawn, 0);
    e := GlueGroup(c, ts, pos, s, drawn, inner);
  }

  lemma GlueGroup(c: Context, ts: seq<Token>, pos: nat, s: Step<Value>, drawn: seq<nat>, inner: Expr) returns (e: Expr)
    requires IsOp(ts, pos, "(") && IsOp(ts, s.pos, ")")
    requires Spells(c, ts, pos + 1, s.pos, drawn, 0, inner, Evaluated(s.res, s.drawn))
    ensures Spells(c, ts, pos, s.pos + 1, drawn, 5, e, Evaluated(s.res, s.drawn))
  {
    e := Group(inner);
    assert Print(inner, 0) == Body(inner);
    assert ts[pos..s.pos + 1] == [ts[pos]] + ts[pos + 1..s.pos] + [ts[s.pos]];
  }

  lemma {:induction false} SoundName(c: Context, ts: seq<Token>, pos: nat, drawn: seq<nat>) returns (e: Expr)
    requires pos < |ts| && ts[pos].kind == Ident && !IsOp(ts, pos + 1, "(") && PrimaryAt(c, ts, pos, drawn).res.Ok?
    ensures var s := PrimaryAt(c, ts, pos, drawn);
            Spells(c, ts, pos, s.pos, drawn, 5, e, Evaluated(s.res, s.drawn))
  {
    var first := ts[pos].value;
    assert PrimaryAt(c, ts, pos, drawn) == NameAt(c, ts, pos + 1, drawn, first);
    var names := SoundPath(ts, pos + 1, [first]);
    var end := PathAt(ts, pos + 1, [first]).pos;
    e := Name([first] + names);
    assert ([first] + names)[1..] == names;
    assert ts[pos..end] == [ts[pos]] + ts[pos + 1..end];
  }

  lemma {:induction false} SoundPath(ts: seq<Token>, pos: nat, path: Path) returns (names: seq<string>)
    requires pos <= |ts| && PathAt(ts, pos, path).res.Ok?
    ensures var s := PathAt(ts, pos, path);
            s.res.value == path + names && ts[pos..s.pos] == Dotted(names)
    decreases |ts| - pos
  {
    names := [];
    if IsOp(ts, pos, ".") {
      var s := PathAt(ts, pos, path);
      var name := ts[pos + 1].value;
      var rest := SoundPath(ts, pos + 2, path + [name]);
      names := [name] + rest;
      assert names[1..] == rest;
      assert path + [name] + rest == path + names;
      assert ts[pos..s.pos] == [ts[pos], ts[pos + 1]] + ts[pos + 2..s.pos];
    }
  }

  lemma {:induction false} SoundCall(c: Context, ts: seq<Token>, pos: nat, drawn: seq<nat>) returns (e: Expr)
    requires pos < |ts| && ts[pos].kind == Ident && IsOp(ts, pos + 1, "(") && PrimaryAt(c, ts, pos, drawn).res.Ok?
    ensures var s := PrimaryAt(c, ts, pos, drawn);
            Spells(c, ts, pos, s.pos, drawn, 5, e, Evaluated(s.res, s.drawn))
    decreases |ts| - pos, 0
  {
    var fn := ts[pos].value;
    assert PrimaryAt(c, ts, pos, drawn) == CallAt(c, ts, pos + 2, drawn, fn);
    if IsOp(ts, pos + 2, ")") {
      e := Call(fn, NoArgs);
      assert ts[pos..pos + 3] == [ts[pos], ts[pos + 1], ts[pos + 2]];
    } else {
      var args := SoundArgs(c, ts, pos + 2, drawn, fn, []);
      e := GlueCall(c, ts, pos, drawn, fn, args, ArgsAt(c, ts, pos + 2, drawn, fn, []));
    }
  }

  lemma GlueCall(c: Context, ts: seq<Token>, pos: nat, drawn: seq<nat>, fn: string, args: Args, a: Step<seq<Value>>)
    returns (e: Expr)
    requires pos < |ts| && ts[pos] == Token(Ident, fn) && IsOp(ts, pos + 1, "(")
    requires a.res.Ok? && SpellsArgs(c, ts, pos + 2, drawn, [], args, a)
    ensures Spells(c, ts, pos, a.pos, drawn, 5, e, CallFunction(c.host, fn, a.res.value, a.drawn))
  {
    e := Call(fn, args);
    var v := EvalArgs(c, args, drawn);
    if v.res.Ok? { assert [] + v.res.value == v.res.value; }
    assert ts[pos..a.pos] == [ts[pos], ts[pos + 1]] + ts[pos + 2..a.pos];
  }

  /** As Spells, for the arguments of a call and the parenthesis that closes them. */
  ghost predicate SpellsArgs(c: Context, ts: seq<Token>, pos: nat, drawn: seq<nat>, before: seq<Value>, args: Args,
                             s: Step<seq<Value>>)
  {
    && pos <= s.pos <= |ts| && args.More?
    && ts[pos..s.pos] == Print(args.head, 0) + PrintTail(args.tail) + [OpToken(")")]
    && ReadsArgs(s, before, EvalArgs(c, args, drawn), s.pos)
  }

  lemma {:induction false} SoundArgs(c: Context, ts: seq<Token>, pos: nat, drawn: seq<nat>, fn: string,
                                     before: seq<Value>) returns (args: Args)
    requires pos <= |ts| && ArgsAt(c, ts, pos, drawn, fn, before).res.Ok?
    ensures SpellsArgs(c, ts, pos, drawn, before, args, ArgsAt(c, ts, pos, drawn, fn, before))
    decreases |ts| - pos, 7
  {
    var a := LevelAt(c, ts, pos, drawn, 0);
    var head := Sound(c, ts, pos, drawn, 0);
    if IsOp(ts, a.pos, ",") {
      var s := ArgsAt(c, ts, a.pos + 1, a.drawn, fn, before + [a.res.value]);
      var tail := SoundArgs(c, ts, a.pos + 1, a.drawn, fn, before + [a.res.value]);
      args := GlueArgs(c, ts, pos, drawn, before, a, head, tail, s);
    } else {
      args := GlueLast(c, ts, pos, drawn, before, a, head);
    }
  }

  lemma GlueArgs(c: Context, ts: seq<Token>, pos: nat, drawn: seq<nat>, before: seq<Value>,
                 a: Step<Value>, head: Expr, tail: Args, s: Step<seq<Value>>) returns (args: Args)
    requires a.res.Ok? && s.res.Ok? && IsOp(ts, a.pos, ",")
    requires Spells(c, ts, pos, a.pos, drawn, 0, head, Evaluated(a.res, a.drawn))
    requires SpellsArgs(c, ts, a.pos + 1, a.drawn, before + [a.res.value], tail, s)
    ensures SpellsArgs(c, ts, pos, drawn, before, args, s)
  {
    args := More(head, tail);
    AddArg(s, before, c, args, drawn, s.pos);
    Assoc([ts[a.pos]], Print(tail.head, 0) + PrintTail(tail.tail), [OpToken(")")]);
  }

  lemma GlueLast(c: Context, ts: seq<Token>, pos: nat, drawn: seq<nat>, before: seq<Value>,
                 a: Step<Value>, head: Expr) returns (args: Args)
    requires a.res.Ok? && IsOp(ts, a.pos, ")")
    requires Spells(c, ts, pos, a.pos, drawn, 0, head, Evaluated(a.res, a.drawn))
    ensures SpellsArgs(c, ts, pos, drawn, before, args, Step(Ok(before + [a.res.value]), a.pos + 1, a.drawn))
  {
    args := More(head, NoArgs);
    assert before + [a.res.value] + [] == before + [a.res.value];
    AddArg(Step(Ok(before + [a.res.value]), a.pos + 1, a.drawn), before, c, args, drawn, a.pos + 1);
    assert ts[pos..a.pos + 1] == ts[pos..a.pos] + [ts[a.pos]];
  }

  /** The language accepted: a non-empty token sequence has a value exactly when it is what some
      tree prints as, and then the value and the draws are that tree's. */
  lemma {:induction false} AcceptedIffPrinted(c: Context, ts: seq<Token>, drawn: seq<nat>, v: Value, after: seq<nat>)
    requires ts != []
    ensures EvaluateTokens(c, ts, drawn) == Evaluated(Ok(v), after)
       <==> exists e :: Tokens(e) == ts && Eval(c, e, drawn) == Evaluated(Ok(v), after)
  {
    if EvaluateTokens(c, ts, drawn) == Evaluated(Ok(v), after) {
      var e := Sound(c, ts, 0, drawn, 0);
      assert ts[0..|ts|] == ts;
      assert Tokens(e) == ts;
    }
    forall e | Tokens(e) == ts ensures EvaluateTokens(c, ts, drawn) == Eval(c, e, drawn) {
      EvaluatesLikeTree(c, e, drawn);
    }
  }

  /** Two trees that print alike are worth the same: parentheses never change a meaning silently. */
  lemma {:induction false} PrintDeterminesMeaning(c: Context, a: Expr, b: Expr, drawn: seq<nat>)
    requires Tokens(a) == Tokens(b)
    ensures Eval(c, a, drawn) == Eval(c, b, drawn)
  {
    EvaluatesLikeTree(c, a, drawn);
    EvaluatesLikeTree(c, b, drawn);
  }

  // ----- the same for texts -----

  /** Any tree, spelled with blanks between its tokens, evaluates to what the tree is worth. */
  lemma {:induction false} PrintedTextEvaluates(c: Context, e: Expr, blanks: seq<string>, drawn: seq<nat>)
    requires |blanks| == |Tokens(e)| && Separates(blanks)
    requires forall i :: 0 <= i < |Tokens(e)| ==> Lexable(Operators, Tokens(e)[i])
    ensures EvaluateText(c, Render(blanks, Tokens(e)), drawn) == Eval(c, e, drawn)
  {
    LexRender(Operators, blanks, Tokens(e));
    EvaluatesLikeTree(c, e, drawn);
  }

  /** A text with something in it has a value exactly when it spells a tree with that value. */
  lemma {:induction false} TextAcceptedIffSpelled(c: Context, s: string, drawn: seq<nat>, v: Value, after: seq<nat>)
    requires Lex(Operators, s) != Ok([])
    ensures EvaluateText(c, s, drawn) == Evaluated(Ok(v), after)
       <==> exists ls, e :: Consists(Operators, s, ls) && TokensOf(ls) == Tokens(e)
                             && Eval(c, e, drawn) == Evaluated(Ok(v), after)
  {
    if EvaluateText(c, s, drawn) == Evaluated(Ok(v), after) {
      var ts := Lex(Operators, s).value;
      LexIffConsists(Operators, s, ts);
      AcceptedIffPrinted(c, ts, drawn, v, after);
    }
    forall ls, e | Consists(Operators, s, ls) && TokensOf(ls) == Tokens(e)
      ensures EvaluateText(c, s, drawn) == Eval(c, e, drawn)
    {
      Compose(Operators, s, ls);
      EvaluatesLikeTree(c, e, drawn);
    }
  }
}
