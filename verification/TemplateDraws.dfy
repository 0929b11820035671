/** Evaluation and the random source: draws are only ever added, and an evaluation that adds none
    does not depend on the draws before it. */
module TemplateDraws {
  import opened Common
  import opened TemplateValues
  import opened TemplateGrammar
  import opened TemplateParser
  import opened TemplateTokenizer
  import opened TemplateBlocks

  /** s started after the draws d and t, the same step, after the draws d2. */
  ghost predicate Quiet<T(!new)>(s: Step<T>, d: seq<nat>, t: Step<T>, d2: seq<nat>) {
    d <= s.drawn && (s.drawn == d ==> t == s.(drawn := d2))
  }

  lemma {:induction false} QuietLevel(c: Context, ts: seq<Token>, pos: nat, d: seq<nat>, d2: seq<nat>, level: nat)
    requires pos <= |ts| && level <= 5
    ensures Quiet(LevelAt(c, ts, pos, d, level), d, LevelAt(c, ts, pos, d2, level), d2)
    decreases |ts| - pos, 6 - level, 1
  {
    if level == 5 { QuietPrimary(c, ts, pos, d, d2); }
    else if level == 4 && IsOp(ts, pos, "!") { QuietLevel(c, ts, pos + 1, d, d2, 4); }
    else {
      QuietLevel(c, ts, pos, d, d2, level + 1);
      var s := LevelAt(c, ts, pos, d, level + 1);
      var t := LevelAt(c, ts, pos, d2, level + 1);
      if s.res.Ok? && Chains(level) { QuietRest(c, ts, s.pos, s.drawn, t.drawn, level, s.res.value); }
      else if s.res.Ok? && level == 2 && IsCompareOp(ts, s.pos) { QuietLevel(c, ts, s.pos + 1, s.drawn, t.drawn, 3); }
    }
  }

  lemma {:induction false} QuietRest(c: Context, ts: seq<Token>, pos: nat, d: seq<nat>, d2: seq<nat>, level: nat,
                                     left: Value)
    requires pos <= |ts| && Chains(level)
    ensures Quiet(RestAt(c, ts, pos, d, level, left), d, RestAt(c, ts, pos, d2, level, left), d2)
    decreases |ts| - pos, 0
  {
    if IsOp(ts, pos, BinaryToken(ChainOp(level)).value) {
      QuietLevel(c, ts, pos + 1, d, d2, level + 1);
      var s := LevelAt(c, ts, pos + 1, d, level + 1);
      var t := LevelAt(c, ts, pos + 1, d2, level + 1);
      if s.res.Ok? {
        QuietRest(c, ts, s.pos, s.drawn, t.drawn, level, Combine(c.host, ChainOp(level), left, s.res.value));
      }
    }
  }

  lemma {:induction false} QuietPrimary(c: Context, ts: seq<Token>, pos: nat, d: seq<nat>, d2: seq<nat>)
    requires pos <= |ts|
    ensures Quiet(PrimaryAt(c, ts, pos, d), d, PrimaryAt(c, ts, pos, d2), d2)
    decreases |ts| - pos, 0
  {
    if IsOp(ts, pos, "(") { QuietLevel(c, ts, pos + 1, d, d2, 0); }
    else if pos < |ts| && ts[pos].kind == Ident && IsOp(ts, pos + 1, "(") {
      QuietCall(c, ts, pos + 2, d, d2, ts[pos].value);
    }
  }

  lemma {:induction false} QuietCall(c: Context, ts: seq<Token>, pos: nat, d: seq<nat>, d2: seq<nat>, fn: string)
    requires pos <= |ts|
    ensures Quiet(CallAt(c, ts, pos, d, fn), d, CallAt(c, ts, pos, d2, fn), d2)
    decreases |ts| - pos, 8
  {
    if !IsOp(ts, pos, ")") { QuietArgs(c, ts, pos, d, d2, fn, []); }
  }

  lemma {:induction false} QuietArgs(c: Context, ts: seq<Token>, pos: nat, d: seq<nat>, d2: seq<nat>, fn: string,
                                     before: seq<Value>)
    requires pos <= |ts|
    ensures Quiet(ArgsAt(c, ts, pos, d, fn, before), d, ArgsAt(c, ts, pos, d2, fn, before), d2)
    decreases |ts| - pos, 7
  {
    QuietLevel(c, ts, pos, d, d2, 0);
    var s, t := LevelAt(c, ts, pos, d, 0), LevelAt(c, ts, pos, d2, 0);
    if s.res.Ok? && IsOp(ts, s.pos, ",") { QuietArgs(c, ts, s.pos + 1, s.drawn, t.drawn, fn, before + [s.res.value]); }
  }

  lemma {:induction false} EvaluateQuietly(c: Context, expression: string, d: seq<nat>, d2: seq<nat>)
    ensures var v := EvaluateText(c, expression, d);
            d <= v.drawn && (v.drawn == d ==> EvaluateText(c, expression, d2) == v.(drawn := d2))
  {
    var ts := Lex(Operators, expression);
    if ts.Ok? && ts.value != [] { QuietLevel(c, ts.value, 0, d, d2, 0); }
  }

  /** The same for the block machine. */
  lemma {:induction false} RunQuietly(c: Context, lines: seq<Line>, m: Machine, d2: seq<nat>)
    ensures var r := Run(c, lines, m);
            && m.out.drawn <= r.out.drawn
            && (r.out.drawn == m.out.drawn ==>
                  Run(c, lines, m.(out := m.out.(drawn := d2))) == r.(out := r.out.(drawn := d2)))
    decreases |lines|
  {
    if lines != [] {
      var m2 := m.(out := m.out.(drawn := d2));
      var s, s2 := TemplateBlocks.Step(c, m, lines[0]), TemplateBlocks.Step(c, m2, lines[0]);
      if lines[0].If? || lines[0].Elif? { EvaluateQuietly(c, lines[0].cond, m.out.drawn, d2); }
      RunQuietly(c, lines[1..], s, s2.out.drawn);
    }
  }
}
