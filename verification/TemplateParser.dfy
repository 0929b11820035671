/** The recursive descent that evaluates while it parses (controllers/template_expr.go), first as
    functions on a token position, then as the class whose pos field moves over the tokens. */
module TemplateParser {
  import opened Common
  import opened TemplateValues
  import opened TemplateGrammar

  /** Where a parse step stopped, what it evaluated to, and the draws made so far. */
  datatype Step<+T> = Step(res: Result<T, Error>, pos: nat, drawn: seq<nat>)

  predicate IsOp(ts: seq<Token>, pos: nat, value: string) {
    pos < |ts| && ts[pos] == OpToken(value)
  }

  predicate IsCompareOp(ts: seq<Token>, pos: nat) {
    pos < |ts| && ts[pos].kind == Op && ts[pos].value in CompareOps
  }

  /** The levels whose operator repeats, associating to the left. */
  predicate Chains(level: nat) { level == 0 || level == 1 || level == 3 }

  function ChainOp(level: nat): BinaryOp
    requires Chains(level)
  {
    if level == 0 then BinaryOp.Or else if level == 1 then BinaryOp.And else Plus
  }

  /** One expression of the given level: parseOr is 0, parseAnd 1, parseComparison 2,
      parseSum 3, parseUnary 4, parsePrimary 5. */
  function LevelAt(c: Context, ts: seq<Token>, pos: nat, drawn: seq<nat>, level: nat): (s: Step<Value>)
    requires pos <= |ts| && level <= 5
    ensures pos <= s.pos <= |ts|
    ensures s.res.Ok? ==> pos < s.pos
    decreases |ts| - pos, 6 - level
  {
    if level == 5 then PrimaryAt(c, ts, pos, drawn)
    else if level == 4 then
      if IsOp(ts, pos, "!") then
        var s := LevelAt(c, ts, pos + 1, drawn, 4);
        if s.res.Err? then s else Step(Ok(Bool(!Truthy(c.host, s.res.value))), s.pos, s.drawn)
      else LevelAt(c, ts, pos, drawn, 5)
    else
      var s := LevelAt(c, ts, pos, drawn, level + 1);
      if s.res.Err? then s
      else if Chains(level) then RestAt(c, ts, s.pos, s.drawn, level, s.res.value)
      else if IsCompareOp(ts, s.pos) then
        var r := LevelAt(c, ts, s.pos + 1, s.drawn, 3);
        if r.res.Err? then r
        else Step(Ok(Combine(c.host, Compare(ts[s.pos].value), s.res.value, r.res.value)), r.pos, r.drawn)
      else s
  }

  /** The loop of a repeating level, with what it has in hand. */
  function RestAt(c: Context, ts: seq<Token>, pos: nat, drawn: seq<nat>, level: nat, left: Value): (s: Step<Value>)
    requires pos <= |ts| && Chains(level)
    ensures pos <= s.pos <= |ts|
    decreases |ts| - pos, 0
  {
    var op := ChainOp(level);
    if !IsOp(ts, pos, BinaryToken(op).value) then Step(Ok(left), pos, drawn)
    else
      var r := LevelAt(c, ts, pos + 1, drawn, level + 1);
      if r.res.Err? then r
      else RestAt(c, ts, r.pos, r.drawn, level, Combine(c.host, op, left, r.res.value))
  }

  function PrimaryAt(c: Context, ts: seq<Token>, pos: nat, drawn: seq<nat>): (s: Step<Value>)
    requires pos <= |ts|
    ensures pos <= s.pos <= |ts|
    ensures s.res.Ok? ==> pos < s.pos
    decreases |ts| - pos, 0
  {
    if pos == |ts| then Step(Err(UnexpectedEnd), pos, drawn)
    else
      var token := ts[pos];
      match token.kind
      case String => Step(Ok(Str(token.value)), pos + 1, drawn)
      case Number =>
        var parsed := c.host.parseFloat(token.value);
        Step(if parsed.Some? then Ok(Num(parsed.value)) else Err(BadNumber(token.value)), pos + 1, drawn)
      case Op =>
        if token.value == "(" then ParensAt(c, ts, pos + 1, drawn)
        else Step(Err(Unexpected(token.value)), pos, drawn)
      case Ident =>
        if IsOp(ts, pos + 1, "(") then CallAt(c, ts, pos + 2, drawn, token.value)
        else NameAt(c, ts, pos + 1, drawn, token.value)
  }

  function ParensAt(c: Context, ts: seq<Token>, pos: nat, drawn: seq<nat>): (s: Step<Value>)
    requires pos <= |ts|
    ensures pos <= s.pos <= |ts|
    decreases |ts| - pos, 7
  {
    var s := LevelAt(c, ts, pos, drawn, 0);
    if s.res.Err? then s
    else if IsOp(ts, s.pos, ")") then Step(s.res, s.pos + 1, s.drawn)
    else Step(Err(MissingParen), s.pos, s.drawn)
  }

  /** A call whose opening parenthesis has been read. */
  function CallAt(c: Context, ts: seq<Token>, pos: nat, drawn: seq<nat>, fn: string): (s: Step<Value>)
    requires pos <= |ts|
    ensures pos <= s.pos <= |ts|
    decreases |ts| - pos, 8
  {
    var a := if IsOp(ts, pos, ")") then Step(Ok([]), pos + 1, drawn) else ArgsAt(c, ts, pos, drawn, fn, []);
    if a.res.Err? then Step(Err(a.res.error), a.pos, a.drawn)
    else
      var v := CallFunction(c.host, fn, a.res.value, a.drawn);
      Step(v.res, a.pos, v.drawn)
  }

  /** The arguments of a call, up to and with the closing parenthesis. */
  function ArgsAt(c: Context, ts: seq<Token>, pos: nat, drawn: seq<nat>, fn: string, before: seq<Value>)
    : (s: Step<seq<Value>>)
    requires pos <= |ts|
    ensures pos <= s.pos <= |ts|
    decreases |ts| - pos, 7
  {
    var a := LevelAt(c, ts, pos, drawn, 0);
    if a.res.Err? then Step(Err(a.res.error), a.pos, a.drawn)
    else
      var now := before + [a.res.value];
      if IsOp(ts, a.pos, ",") then ArgsAt(c, ts, a.pos + 1, a.drawn, fn, now)
      else if IsOp(ts, a.pos, ")") then Step(Ok(now), a.pos + 1, a.drawn)
      else Step(Err(MissingParenAfter(fn)), a.pos, a.drawn)
  }

  /** A name that is not called, its first part read. */
  function NameAt(c: Context, ts: seq<Token>, pos: nat, drawn: seq<nat>, first: string): (s: Step<Value>)
    requires pos <= |ts|
    ensures pos <= s.pos <= |ts|
  {
    var p := PathAt(ts, pos, [first]);
    Step(if p.res.Ok? then Ok(NameValue(c, p.res.value)) else Err(p.res.error), p.pos, drawn)
  }

  /** The dotted rest of a name. */
  function PathAt(ts: seq<Token>, pos: nat, path: Path): (s: Step<Path>)
    requires pos <= |ts|
    ensures pos <= s.pos <= |ts|
    decreases |ts| - pos
  {
    if !IsOp(ts, pos, ".") then Step(Ok(path), pos, [])
    else if pos + 1 == |ts| || ts[pos + 1].kind != Ident then Step(Err(ExpectedName(Join(path, "."))), pos + 1, [])
    else PathAt(ts, pos + 2, path + [ts[pos + 1].value])
  }

  /** evaluateTemplateExpression, from the tokens on. */
  function EvaluateTokens(c: Context, ts: seq<Token>, drawn: seq<nat>): Evaluated<Value> {
    if ts == [] then Evaluated(Ok(Nil), drawn)
    else
      var s := LevelAt(c, ts, 0, drawn, 0);
      if s.res.Ok? && s.pos < |ts| then Evaluated(Err(Unexpected(ts[s.pos].value)), s.drawn)
      else Evaluated(s.res, s.drawn)
  }

  /** exprParser: the position it has reached, and the draws it has made. */
  class ExprParser {
    const c: Context
    const tokens: seq<Token>
    var pos: nat
    var drawn: seq<nat>

    constructor (c: Context, tokens: seq<Token>, drawn: seq<nat>)
      ensures this.c == c && this.tokens == tokens && this.pos == 0 && this.drawn == drawn
    {
      this.c, this.tokens, this.pos, this.drawn := c, tokens, 0, drawn;
    }

    ghost predicate Valid()
      reads this
    {
      pos <= |tokens|
    }

    /** The parser has moved exactly as the step says. */
    ghost predicate Took<T(!new)>(s: Step<T>, r: Result<T, Error>)
      reads this
    {
      Valid() && s == Step(r, pos, drawn)
    }

    ghost predicate Before(values: seq<string>)
      reads this
    {
      pos < |tokens| && tokens[pos].kind == Op && tokens[pos].value in values
    }

    method AcceptOp(values: seq<string>) returns (value: string, ok: bool)
      requires Valid()
      modifies this`pos
      ensures Valid()
      ensures ok == old(Before(values))
      ensures if ok then pos == old(pos) + 1 && value == tokens[old(pos)].value else pos == old(pos) && value == ""
    {
      value, ok := "", false;
      if pos == |tokens| || tokens[pos].kind != Op { return; }
      for i := 0 to |values|
        invariant pos == old(pos) && tokens[pos].value !in values[..i]
      {
        if tokens[pos].value == values[i] {
          pos := pos + 1;
          return values[i], true;
        }
      }
    }

    method ParseOr() returns (r: Result<Value, Error>)
      requires Valid()
      modifies this`pos, this`drawn
      ensures Took(LevelAt(c, tokens, old(pos), old(drawn), 0), r)
      decreases |tokens| - pos, 6
    {
      var left := ParseAnd();
      if left.Err? { return left; }
      while true
        invariant Valid() && old(pos) < pos && left.Ok?
        invariant LevelAt(c, tokens, old(pos), old(drawn), 0) == RestAt(c, tokens, pos, drawn, 0, left.value)
        decreases |tokens| - pos
      {
        var _, ok := AcceptOp(["||"]);
        if !ok { return left; }
        var right := ParseAnd();
        if right.Err? { return right; }
        if Truthy(c.host, left.value) { continue; }
        left := right;
      }
    }

    method ParseAnd() returns (r: Result<Value, Error>)
      requires Valid()
      modifies this`pos, this`drawn
      ensures Took(LevelAt(c, tokens, old(pos), old(drawn), 1), r)
      decreases |tokens| - pos, 5
    {
      var left := ParseComparison();
      if left.Err? { return left; }
      while true
        invariant Valid() && old(pos) < pos && left.Ok?
        invariant LevelAt(c, tokens, old(pos), old(drawn), 1) == RestAt(c, tokens, pos, drawn, 1, left.value)
        decreases |tokens| - pos
      {
        var _, ok := AcceptOp(["&&"]);
        if !ok { return left; }
        var right := ParseComparison();
        if right.Err? { return right; }
        if !Truthy(c.host, left.value) { continue; }
        left := right;
      }
    }

    method ParseComparison() returns (r: Result<Value, Error>)
      requires Valid()
      modifies this`pos, this`drawn
      ensures Took(LevelAt(c, tokens, old(pos), old(drawn), 2), r)
      decreases |tokens| - pos, 4
    {
      var left := ParseSum();
      if left.Err? { return left; }
      var operator, ok := AcceptOp(["===", "!==", "==", "!=", ">=", "<=", ">", "<"]);
      if !ok { return left; }
      var right := ParseSum();
      if right.Err? { return right; }
      return Ok(Bool(CompareValues(c.host, operator, left.value, right.value)));
    }

    method ParseSum() returns (r: Result<Value, Error>)
      requires Valid()
      modifies this`pos, this`drawn
      ensures Took(LevelAt(c, tokens, old(pos), old(drawn), 3), r)
      decreases |tokens| - pos, 3
    {
      var left := ParseUnary();
      if left.Err? { return left; }
      while true
        invariant Valid() && old(pos) < pos && left.Ok?
        invariant LevelAt(c, tokens, old(pos), old(drawn), 3) == RestAt(c, tokens, pos, drawn, 3, left.value)
        decreases |tokens| - pos
      {
        var _, ok := AcceptOp(["+"]);
        if !ok { return left; }
        var right := ParseUnary();
        if right.Err? { return right; }
        left := Ok(AddValues(c.host, left.value, right.value));
      }
    }

    method ParseUnary() returns (r: Result<Value, Error>)
      requires Valid()
      modifies this`pos, this`drawn
      ensures Took(LevelAt(c, tokens, old(pos), old(drawn), 4), r)
      decreases |tokens| - pos, 2
    {
      var _, ok := AcceptOp(["!"]);
      if ok {
        var value := ParseUnary();
        return if value.Err? then value else Ok(Bool(!Truthy(c.host, value.value)));
      }
      r := ParsePrimary();
    }

    method ParsePrimary() returns (r: Result<Value, Error>)
      requires Valid()
      modifies this`pos, this`drawn
      ensures Took(PrimaryAt(c, tokens, old(pos), old(drawn)), r)
      decreases |tokens| - pos, 1
    {
      if pos == |tokens| { return Err(UnexpectedEnd); }
      var token := tokens[pos];
      match token.kind
      case String =>
        pos := pos + 1;
        return Ok(Str(token.value));
      case Number =>
        pos := pos + 1;
        var parsed := c.host.parseFloat(token.value);
        return if parsed.Some? then Ok(Num(parsed.value)) else Err(BadNumber(token.value));
      case Op =>
        if token.value != "(" { return Err(Unexpected(token.value)); }
        pos := pos + 1;
        var value := ParseOr();
        if value.Err? { return value; }
        var _, closed := AcceptOp([")"]);
        return if closed then value else Err(MissingParen);
      case Ident =>
        pos := pos + 1;
        var _, called := AcceptOp(["("]);
        if called {
          var arguments := ParseArguments(token.value);
          if arguments.Err? { return Err(arguments.error); }
          var v := CallFunction(c.host, token.value, arguments.value, drawn);
          drawn := v.drawn;
          return v.res;
        }
        var path := ParsePath(token.value);
        return if path.Ok? then Ok(NameValue(c, path.value)) else Err(path.error);
    }

    /** The arguments of a call whose opening parenthesis has been read. */
    method ParseArguments(fn: string) returns (r: Result<seq<Value>, Error>)
      requires Valid()
      modifies this`pos, this`drawn
      ensures Took(if IsOp(tokens, old(pos), ")") then Step(Ok([]), old(pos) + 1, old(drawn))
                   else ArgsAt(c, tokens, old(pos), old(drawn), fn, []), r)
      decreases |tokens| - pos, 7
    {
      var arguments := [];
      var _, empty := AcceptOp([")"]);
      if empty { return Ok([]); }
      while true
        invariant Valid() && old(pos) <= pos
        invariant ArgsAt(c, tokens, old(pos), old(drawn), fn, []) == ArgsAt(c, tokens, pos, drawn, fn, arguments)
        decreases |tokens| - pos
      {
        var argument := ParseOr();
        if argument.Err? { return Err(argument.error); }
        arguments := arguments + [argument.value];
        var _, more := AcceptOp([","]);
        if more { continue; }
        var _, closed := AcceptOp([")"]);
        return if closed then Ok(arguments) else Err(MissingParenAfter(fn));
      }
    }

    /** The rest of a dotted name. */
    method ParsePath(first: string) returns (r: Result<Path, Error>)
      requires Valid()
      modifies this`pos
      ensures Valid() && PathAt(tokens, old(pos), [first]) == Step(r, pos, [])
    {
      var path: Path := [first];
      while true
        invariant Valid() && PathAt(tokens, old(pos), [first]) == PathAt(tokens, pos, path)
        decreases |tokens| - pos
      {
        var _, dot := AcceptOp(["."]);
        if !dot { return Ok(path); }
        if pos == |tokens| || tokens[pos].kind != Ident { return Err(ExpectedName(Join(path, "."))); }
        path := path + [tokens[pos].value];
        pos := pos + 1;
      }
    }
  }

  /** evaluateTemplateExpression after the tokenizer. */
  method Evaluate(c: Context, tokens: seq<Token>, drawn: seq<nat>) returns (v: Evaluated<Value>)
    ensures v == EvaluateTokens(c, tokens, drawn)
  {
    if tokens == [] { return Evaluated(Ok(Nil), drawn); }
    var parser := new ExprParser(c, tokens, drawn);
    var value := parser.ParseOr();
    if value.Ok? && parser.pos != |tokens| {
      return Evaluated(Err(Unexpected(tokens[parser.pos].value)), parser.drawn);
    }
    return Evaluated(value, parser.drawn);
  }
}
