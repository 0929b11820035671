/** The if/elif/else/endif blocks of a template (applyConditionals in controllers/template_expr.go). */
module TemplateBlocks {
  import opened Common
  import opened TemplateValues
  import opened TemplateTokenizer
  import L = TemplateLines

  datatype Line = Text(text: string) | If(cond: string) | Elif(cond: string) | Else | Endif

  datatype Block = Block(active: bool, taken: bool, enclosed: bool)

  /** What rendering leaves behind: the lines kept, the conditions evaluated, the strings drawn. */
  datatype Output = Output(kept: seq<string>, asked: seq<string>, drawn: seq<nat>)

  datatype Machine = Machine(stack: seq<Block>, out: Output)

  predicate Live(stack: seq<Block>) {
    forall i :: 0 <= i < |stack| ==> stack[i].active && stack[i].enclosed
  }

  /** truthy(evaluateOrEmpty(...)): an expression in error counts as false. */
  function Holds(c: Context, cond: string, out: Output): bool {
    var v := EvaluateText(c, cond, out.drawn);
    v.res.Ok? && Truthy(c.host, v.res.value)
  }

  function Ask(c: Context, cond: string, out: Output): Output {
    Output(out.kept, out.asked + [cond], EvaluateText(c, cond, out.drawn).drawn)
  }

  function Keep(out: Output, line: string): Output { out.(kept := out.kept + [line]) }

  // ----- the stack machine -----

  function Step(c: Context, m: Machine, line: Line): Machine {
    var n := |m.stack| - 1;
    match line
    case Text(text) => if Live(m.stack) then m.(out := Keep(m.out, text)) else m
    case If(cond) =>
      if Live(m.stack) then
        var holds := Holds(c, cond, m.out);
        Machine(m.stack + [Block(holds, holds, true)], Ask(c, cond, m.out))
      else m.(stack := m.stack + [Block(false, false, false)])
    case Elif(cond) =>
      if n < 0 then m
      else if m.stack[n].taken then m.(stack := m.stack[n := m.stack[n].(active := false)])
      else if !m.stack[n].enclosed then m.(stack := m.stack[n := m.stack[n].(active := false)])
      else
        var holds := Holds(c, cond, m.out);
        Machine(m.stack[n := Block(holds, holds, true)], Ask(c, cond, m.out))
    case Else =>
      if n < 0 then m
      else if m.stack[n].taken then m.(stack := m.stack[n := m.stack[n].(active := false)])
      else m.(stack := m.stack[n := Block(m.stack[n].enclosed, m.stack[n].enclosed, m.stack[n].enclosed)])
    case Endif => if n < 0 then m else m.(stack := m.stack[..n])
  }

  function Run(c: Context, lines: seq<Line>, m: Machine): Machine {
    if lines == [] then m else Run(c, lines[1..], Step(c, m, lines[0]))
  }

  function Classify(line: string): Line {
    match L.DirectiveOf(line)
    case NoDirective => Text(line)
    case Directive(keyword, expression) =>
      if keyword == "if" then If(expression)
      else if keyword == "elif" then Elif(expression)
      else if keyword == "else" then Else
      else Endif
  }

  function ClassifyAll(lines: seq<string>): seq<Line> {
    if lines == [] then [] else [Classify(lines[0])] + ClassifyAll(lines[1..])
  }

  function LinesOf(text: string): seq<Line> { ClassifyAll(L.SplitLines(L.Unix(text))) }

  /** What a text leaves behind; its lines kept are the text that is left. */
  function Conditionals(c: Context, text: string, drawn: seq<nat>): Output {
    Run(c, LinesOf(text), Machine([], Output([], [], drawn))).out
  }

  method ApplyConditionals(c: Context, text: string, drawn: seq<nat>) returns (out: Output)
    ensures out == Conditionals(c, text, drawn)
  {
    var left := L.SplitLines(L.Unix(text));
    var stack: seq<Block> := [];
    out := Output([], [], drawn);
    while left != []
      invariant Run(c, ClassifyAll(left), Machine(stack, out)).out == Conditionals(c, text, drawn)
      decreases |left|
    {
      stack, out := ReadLine(c, left[0], stack, out);
      left := left[1..];
    }
  }

  /** One line: kept, if it is text in a live place; otherwise what its directive makes of the stack. */
  method ReadLine(c: Context, line: string, stack: seq<Block>, out: Output) returns (now: seq<Block>, then_: Output)
    ensures Machine(now, then_) == Step(c, Machine(stack, out), Classify(line))
  {
    var directive := L.DirectiveOf(line);
    var n := |stack| - 1;
    now, then_ := stack, out;
    if directive.NoDirective? {
      if Live(stack) { then_ := Keep(out, line); }
    } else if directive.keyword == "if" {
      var enclosed := Live(stack);
      var result := enclosed && Holds(c, directive.expression, out);
      if enclosed { then_ := Ask(c, directive.expression, out); }
      now := stack + [Block(result, result, enclosed)];
    } else if directive.keyword == "elif" || directive.keyword == "else" {
      if n < 0 { return; }
      var current := stack[n];
      if current.taken { return stack[n := current.(active := false)], out; }
      var result := current.enclosed;
      if directive.keyword == "elif" && result {
        result := Holds(c, directive.expression, out);
        then_ := Ask(c, directive.expression, out);
      }
      now := stack[n := Block(result, current.taken || result, current.enclosed)];
    } else if n >= 0 {
      now := stack[..n];
    }
  }

  // ----- documents as trees -----

  datatype Doc =
    | Done
    | Plain(text: string, rest: Doc)
    | Branch(cond: string, body: Doc, arms: Arms, rest: Doc)

  datatype Arms = End | ElifArm(cond: string, body: Doc, arms: Arms) | ElseArm(body: Doc)

  function Flatten(d: Doc): seq<Line> {
    match d
    case Done => []
    case Plain(text, rest) => [Text(text)] + Flatten(rest)
    case Branch(cond, body, arms, rest) => [If(cond)] + (Flatten(body) + (FlattenArms(arms) + Flatten(rest)))
  }

  function FlattenArms(a: Arms): seq<Line> {
    match a
    case End => [Endif]
    case ElifArm(cond, body, arms) => [Elif(cond)] + (Flatten(body) + FlattenArms(arms))
    case ElseArm(body) => [Else] + (Flatten(body) + [Endif])
  }

  /** What the document means: of each block the body of the first branch that holds. */
  function RenderDoc(c: Context, d: Doc, out: Output): Output {
    match d
    case Done => out
    case Plain(text, rest) => RenderDoc(c, rest, Keep(out, text))
    case Branch(cond, body, arms, rest) =>
      var asked := Ask(c, cond, out);
      RenderDoc(c, rest, if Holds(c, cond, out) then RenderDoc(c, body, asked) else RenderArms(c, arms, asked))
  }

  function RenderArms(c: Context, a: Arms, out: Output): Output {
    match a
    case End => out
    case ElifArm(cond, body, arms) =>
      var asked := Ask(c, cond, out);
      if Holds(c, cond, out) then RenderDoc(c, body, asked) else RenderArms(c, arms, asked)
    case ElseArm(body) => RenderDoc(c, body, out)
  }

  lemma {:induction false} RunAppend(c: Context, a: seq<Line>, b: seq<Line>, m: Machine)
    ensures Run(c, a + b, m) == Run(c, b, Run(c, a, m))
    decreases |a|
  {
    if a == [] { assert a + b == b; }
    else { assert (a + b)[1..] == a[1..] + b; RunAppend(c, a[1..], b, Step(c, m, a[0])); }
  }

  /** In a live place a document is rendered; in a cut one it leaves no trace at all. */
  lemma {:induction false} RunDoc(c: Context, d: Doc, m: Machine)
    ensures Run(c, Flatten(d), m) == if Live(m.stack) then m.(out := RenderDoc(c, d, m.out)) else m
    decreases d
  {
    match d
    case Done =>
    case Plain(text, rest) =>
      RunDoc(c, rest, Step(c, m, Text(text)));
    case Branch(cond, body, arms, rest) =>
      var m1 := Step(c, m, If(cond));
      var b := m1.stack[|m.stack|];
      RunAppend(c, Flatten(body), FlattenArms(arms) + Flatten(rest), m1);
      RunDoc(c, body, m1);
      var m2 := Run(c, Flatten(body), m1);
      RunAppend(c, FlattenArms(arms), Flatten(rest), m2);
      RunArms(c, arms, m.stack, b, m2.out);
      RunDoc(c, rest, Run(c, FlattenArms(arms), m2));
  }

  /** The rest of an open block, from a branch that has or has not been the one taken. */
  lemma {:induction false} RunArms(c: Context, a: Arms, below: seq<Block>, b: Block, out: Output)
    requires b.enclosed == Live(below)
    ensures Run(c, FlattenArms(a), Machine(below + [b], out))
         == Machine(below, if b.enclosed && !b.taken then RenderArms(c, a, out) else out)
    decreases a, 1
  {
    match a
    case End => CloseBlock(c, below, b, out);
    case ElifArm(cond, body, arms) => RunElif(c, a, below, b, out);
    case ElseArm(body) => RunElse(c, a, below, b, out);
  }

  lemma CloseBlock(c: Context, below: seq<Block>, b: Block, out: Output)
    ensures Run(c, [Endif], Machine(below + [b], out)) == Machine(below, out)
  {
    assert [Endif] + [] == [Endif] && (below + [b])[..|below|] == below;
  }

  lemma LiveAbove(below: seq<Block>, b: Block)
    requires b.enclosed == Live(below)
    ensures Live(below + [b]) == (b.active && b.enclosed)
  {
    assert forall i :: 0 <= i < |below| ==> (below + [b])[i] == below[i];
    assert (below + [b])[|below|] == b;
  }

  lemma {:induction false} RunElif(c: Context, a: Arms, below: seq<Block>, b: Block, out: Output)
    requires a.ElifArm? && b.enclosed == Live(below)
    ensures Run(c, FlattenArms(a), Machine(below + [b], out))
         == Machine(below, if b.enclosed && !b.taken then RenderArms(c, a, out) else out)
    decreases a, 0
  {
    var m := Machine(below + [b], out);
    var asks := b.enclosed && !b.taken;
    var holds := asks && Holds(c, a.cond, out);
    var b1 := Block(holds, b.taken || holds, b.enclosed);
    var m1 := Machine(below + [b1], if asks then Ask(c, a.cond, out) else out);
    assert Step(c, m, Elif(a.cond)) == m1 by { assert m.stack[|below| := b1] == below + [b1]; }
    RunAppend(c, Flatten(a.body), FlattenArms(a.arms), m1);
    RunDoc(c, a.body, m1);
    LiveAbove(below, b1);
    RunArms(c, a.arms, below, b1, if holds then RenderDoc(c, a.body, m1.out) else m1.out);
  }

  lemma {:induction false} RunElse(c: Context, a: Arms, below: seq<Block>, b: Block, out: Output)
    requires a.ElseArm? && b.enclosed == Live(below)
    ensures Run(c, FlattenArms(a), Machine(below + [b], out))
         == Machine(below, if b.enclosed && !b.taken then RenderArms(c, a, out) else out)
    decreases a, 0
  {
    var m := Machine(below + [b], out);
    var live := b.enclosed && !b.taken;
    var b1 := Block(live, b.taken || b.enclosed, b.enclosed);
    var m1 := Machine(below + [b1], out);
    assert Step(c, m, Else) == m1 by { assert m.stack[|below| := b1] == below + [b1]; }
    RunAppend(c, Flatten(a.body), [Endif], m1);
    RunDoc(c, a.body, m1);
    LiveAbove(below, b1);
    CloseBlock(c, below, b1, if live then RenderDoc(c, a.body, out) else out);
  }

  /** On a well-nested document the stack machine keeps what the tree means, asking the same
      conditions in the same order and making the same draws. */
  lemma {:induction false} MachineRendersTree(c: Context, d: Doc, drawn: seq<nat>)
    ensures Run(c, Flatten(d), Machine([], Output([], [], drawn))).out == RenderDoc(c, d, Output([], [], drawn))
  {
    RunDoc(c, d, Machine([], Output([], [], drawn)));
  }

  // ----- documents as text -----

  /** How an author writes a line. */
  function WriteLine(line: Line): string {
    match line
    case Text(text) => text
    case If(cond) => Directed("if", cond)
    case Elif(cond) => Directed("elif", cond)
    case Else => Directed("else", "")
    case Endif => Directed("endif", "")
  }

  function Directed(keyword: string, expression: string): string {
    "" + (("${{" + (" " + (L.Body(keyword, expression) + " ")) + "}}") + "")
  }

  /** No line break in it, and text that is not a directive. */
  ghost predicate IsWritable(line: Line) {
    match line
    case Text(text) => L.IsLine(text) && L.DirectiveOf(text).NoDirective?
    case If(cond) => '\n' !in cond
    case Elif(cond) => '\n' !in cond
    case _ => true
  }

  lemma DirectedIsRead(keyword: string, expression: string)
    requires keyword in L.Keywords && '\n' !in expression
    ensures L.DirectiveOf(Directed(keyword, expression)) == L.Directive(keyword, expression)
    ensures L.IsLine(Directed(keyword, expression))
  {
    var line := Directed(keyword, expression);
    assert L.WrittenWith(line, keyword, expression, "", " ", " ", "");
    L.DirectiveIff(line, keyword, expression);
    BodyHasNoBreak(keyword, expression);
  }

  lemma BodyHasNoBreak(keyword: string, expression: string)
    requires keyword in L.Keywords && '\n' !in expression
    ensures '\n' !in " " + (L.Body(keyword, expression) + " ")
  {
  }

  lemma WrittenIsClassified(line: Line)
    requires IsWritable(line)
    ensures Classify(WriteLine(line)) == line && L.IsLine(WriteLine(line))
  {
    match line
    case Text(text) =>
    case If(cond) => DirectedIsRead("if", cond);
    case Elif(cond) => DirectedIsRead("elif", cond);
    case Else => DirectedIsRead("else", "");
    case Endif => DirectedIsRead("endif", "");
  }

  function WriteLines(lines: seq<Line>): seq<string> {
    if lines == [] then [] else [WriteLine(lines[0])] + WriteLines(lines[1..])
  }

  lemma {:induction false} WrittenAreClassified(lines: seq<Line>)
    requires forall i :: 0 <= i < |lines| ==> IsWritable(lines[i])
    ensures ClassifyAll(WriteLines(lines)) == lines && |WriteLines(lines)| == |lines|
    ensures forall i :: 0 <= i < |lines| ==> L.IsLine(WriteLines(lines)[i])
    decreases |lines|
  {
    if lines != [] {
      WrittenIsClassified(lines[0]);
      WrittenAreClassified(lines[1..]);
      assert WriteLines(lines)[1..] == WriteLines(lines[1..]);
      assert [lines[0]] + lines[1..] == lines;
    }
  }

  /** A well-nested document written out, its lines ended either way, renders as the tree does. */
  lemma TextRendersTree(c: Context, d: Doc, end: string, drawn: seq<nat>)
    requires Flatten(d) != [] && (forall i :: 0 <= i < |Flatten(d)| ==> IsWritable(Flatten(d)[i]))
    requires end == "\n" || end == "\r\n"
    ensures Conditionals(c, Join(WriteLines(Flatten(d)), end), drawn) == RenderDoc(c, d, Output([], [], drawn))
  {
    WrittenAreClassified(Flatten(d));
    L.LinesOfText(WriteLines(Flatten(d)), end);
    MachineRendersTree(c, d, drawn);
  }

  // ----- any lines at all, balanced or not -----

  ghost predicate AllActive(stack: seq<Block>) { forall i :: 0 <= i < |stack| ==> stack[i].active }

  ghost predicate Consistent(stack: seq<Block>) {
    forall k :: 0 <= k < |stack| ==>
      && stack[k].enclosed == AllActive(stack[..k])
      && (stack[k].active ==> stack[k].enclosed && stack[k].taken)
  }

  lemma LiveIsAllActive(stack: seq<Block>)
    requires Consistent(stack)
    ensures Live(stack) == AllActive(stack)
    ensures Live(stack) == (stack == [] || stack[|stack| - 1].active)
  {
    if stack != [] {
      var n := |stack| - 1;
      assert stack[n].enclosed == AllActive(stack[..n]);
      assert AllActive(stack[..n]) ==> forall i :: 0 <= i < n ==> stack[..n][i] == stack[i] && stack[i].active;
    }
  }

  lemma {:induction false} StepConsistent(c: Context, m: Machine, line: Line)
    requires Consistent(m.stack)
    ensures Consistent(Step(c, m, line).stack)
  {
    LiveIsAllActive(m.stack);
    var t := Step(c, m, line).stack;
    forall k | 0 <= k < |t|
      ensures t[k].enclosed == AllActive(t[..k]) && (t[k].active ==> t[k].enclosed && t[k].taken)
    {
      StepBlockConsistent(c, m, line, t, k);
    }
  }

  lemma {:induction false} StepBlockConsistent(c: Context, m: Machine, line: Line, t: seq<Block>, k: nat)
    requires Consistent(m.stack) && Live(m.stack) == AllActive(m.stack) && t == Step(c, m, line).stack && k < |t|
    ensures t[k].enclosed == AllActive(t[..k]) && (t[k].active ==> t[k].enclosed && t[k].taken)
  {
    var s := m.stack;
    if k < |s| {
      assert t[..k] == s[..k] && s[k].enclosed == AllActive(s[..k]);
    } else {
      assert t[..k] == s;
    }
  }

  /** Every stack any input can lead to: a block is enclosed exactly when all below it are active,
      an active block is enclosed and taken, and the output is live exactly under an active top. */
  lemma {:induction false} ReachableConsistent(c: Context, lines: seq<Line>, m: Machine)
    requires Consistent(m.stack)
    ensures var s := Run(c, lines, m).stack;
            Consistent(s) && Live(s) == AllActive(s) && Live(s) == (s == [] || s[|s| - 1].active)
    decreases |lines|
  {
    if lines == [] { LiveIsAllActive(m.stack); }
    else { StepConsistent(c, m, lines[0]); ReachableConsistent(c, lines[1..], Step(c, m, lines[0])); }
  }

  /** A line has its condition evaluated exactly when it opens a block in a live place, or is an
      elif of a block that stands in a live place and has taken no branch yet. */
  lemma AskedIff(c: Context, m: Machine, line: Line)
    requires Consistent(m.stack)
    ensures var n := |m.stack| - 1;
            var asks := (line.If? && Live(m.stack))
                     || (line.Elif? && n >= 0 && !m.stack[n].taken && Live(m.stack[..n]));
            Step(c, m, line).out.asked == if asks then m.out.asked + [line.cond] else m.out.asked
  {
    if m.stack != [] {
      var below := m.stack[..|m.stack| - 1];
      assert Consistent(below) by {
        forall k | 0 <= k < |below| ensures below[..k] == m.stack[..k] {}
      }
      LiveIsAllActive(below);
    }
  }

  /** The stack before line i. */
  function StackAt(c: Context, lines: seq<Line>, m: Machine, i: nat): seq<Block>
    requires i <= |lines|
  {
    Run(c, lines[..i], m).stack
  }

  lemma StackNext(c: Context, lines: seq<Line>, m: Machine, i: nat)
    requires i < |lines|
    ensures Run(c, lines[..i + 1], m) == Step(c, Run(c, lines[..i], m), lines[i])
  {
    assert lines[..i + 1] == lines[..i] + [lines[i]];
    RunAppend(c, lines[..i], [lines[i]], m);
  }

  /** From i to j the block at depth d stays open. */
  ghost predicate StaysOpen(c: Context, lines: seq<Line>, m: Machine, d: nat, i: nat, j: nat) {
    i <= j <= |lines| && forall k :: i <= k <= j ==> d < |StackAt(c, lines, m, k)|
  }

  /** Line i starts a branch of the block at depth d: it opens the block, or is its elif or else. */
  ghost predicate StartsBranch(c: Context, lines: seq<Line>, m: Machine, d: nat, i: nat) {
    && i < |lines| && |StackAt(c, lines, m, i + 1)| == d + 1
    && (if lines[i].If? then |StackAt(c, lines, m, i)| == d
        else (lines[i].Elif? || lines[i].Else?) && |StackAt(c, lines, m, i)| == d + 1)
  }

  lemma {:induction false} BlockKeeps(c: Context, lines: seq<Line>, m: Machine, d: nat, i: nat, j: nat)
    requires StaysOpen(c, lines, m, d, i, j)
    ensures StackAt(c, lines, m, j)[d].enclosed == StackAt(c, lines, m, i)[d].enclosed
    ensures StackAt(c, lines, m, i)[d].taken ==> StackAt(c, lines, m, j)[d].taken
    decreases j
  {
    if i < j {
      BlockKeeps(c, lines, m, d, i, j - 1);
      StackNext(c, lines, m, j - 1);
      assert d < |StackAt(c, lines, m, j - 1)| && d < |StackAt(c, lines, m, j)|;
    }
  }

  /** At most one branch of a block is live, and none after its else(). */
  lemma {:induction false} AtMostOneLiveBranch(c: Context, lines: seq<Line>, m: Machine, d: nat, i: nat, j: nat)
    requires Consistent(m.stack) && i < j
    requires StartsBranch(c, lines, m, d, i) && StartsBranch(c, lines, m, d, j)
    requires StaysOpen(c, lines, m, d, i + 1, j)
    requires StackAt(c, lines, m, i + 1)[d].active || lines[i].Else?
    ensures !StackAt(c, lines, m, j + 1)[d].active
  {
    SpentAfter(c, lines, m, d, i);
    BlockKeeps(c, lines, m, d, i + 1, j);
    SpentStaysCut(c, lines, m, d, j);
  }

  /** Nothing more of the block can be live. */
  predicate Spent(b: Block) { b.taken || !b.enclosed }

  lemma {:induction false} SpentAfter(c: Context, lines: seq<Line>, m: Machine, d: nat, i: nat)
    requires Consistent(m.stack) && StartsBranch(c, lines, m, d, i)
    requires StackAt(c, lines, m, i + 1)[d].active || lines[i].Else?
    ensures Spent(StackAt(c, lines, m, i + 1)[d])
  {
    StackNext(c, lines, m, i);
    ReachableConsistent(c, lines[..i + 1], m);
  }

  lemma {:induction false} SpentStaysCut(c: Context, lines: seq<Line>, m: Machine, d: nat, j: nat)
    requires StartsBranch(c, lines, m, d, j) && d < |StackAt(c, lines, m, j)| && Spent(StackAt(c, lines, m, j)[d])
    ensures !StackAt(c, lines, m, j + 1)[d].active
  {
    StackNext(c, lines, m, j);
  }
}
