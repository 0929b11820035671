/** The tokenizer of placeholder expressions (controllers/template_expr.go). */
module TemplateTokenizer {
  import opened Common
  import opened TemplateValues
  import opened TemplateGrammar
  import opened TemplateParser

  predicate IsBlank(c: char) { c == ' ' || c == '\t' || c == '\n' }
  predicate IsQuote(c: char) { c == '\'' || c == '"' }
  predicate IsDigit(c: char) { '0' <= c <= '9' }
  predicate IsNumberRune(c: char) { c == '.' || IsDigit(c) }
  predicate IsIdentifierRune(c: char) { c == '_' || c == '$' || c == '-' || 'a' <= c <= 'z' || 'A' <= c <= 'Z' }
  predicate IsNameRune(c: char) { IsIdentifierRune(c) || IsDigit(c) }

  /** What an operator may be: nothing in it is a blank, and it does not start like another token. */
  ghost predicate Solid(o: string) {
    o != "" && !IsQuote(o[0]) && !IsNameRune(o[0]) && forall i :: 0 <= i < |o| ==> !IsBlank(o[i])
  }

  /** An operator list the tokenizer may be given. */
  ghost predicate LongestFirst(ops: seq<string>) {
    && (forall i :: 0 <= i < |ops| ==> Solid(ops[i]))
    && (forall i :: 0 < i < |ops| ==> |ops[i - 1]| >= |ops[i]|)
  }

  type OpList = ops: seq<string> | LongestFirst(ops) witness []

  const OperatorTexts: seq<string> :=
    ["===", "!==", "==", "!=", ">=", "<=", "&&", "||", "!", ">", "<", "+", "(", ")", ",", "."]

  const Operators: OpList := (OperatorsAreSolid(); OperatorsShrink(); OperatorTexts)

  lemma OperatorsAreSolid()
    ensures forall i :: 0 <= i < |OperatorTexts| ==> Solid(OperatorTexts[i])
  {
  }

  lemma OperatorsShrink()
    ensures forall i :: 0 < i < |OperatorTexts| ==> |OperatorTexts[i - 1]| >= |OperatorTexts[i]|
  {
  }

  // ----- what tokenizing answers -----

  function OtherThan(quote: char): char -> bool { c => c != quote }

  function FirstPrefix(ops: seq<string>, s: string): Option<string> {
    if ops == [] then None else if ops[0] <= s then Some(ops[0]) else FirstPrefix(ops[1..], s)
  }

  /** The token at the front of s and how many characters it takes. */
  function NextToken(ops: OpList, s: string): (r: Result<(Token, nat), Error>)
    requires s != "" && !IsBlank(s[0])
    ensures r.Ok? ==> 0 < r.value.1 <= |s|
  {
    if IsQuote(s[0]) then
      var n := RunOf(s[1..], OtherThan(s[0]));
      if n + 1 == |s| then Err(UnterminatedString) else Ok((Token(String, s[1..n + 1]), n + 2))
    else if IsDigit(s[0]) then
      var n := RunOf(s, IsNumberRune);
      Ok((Token(Number, s[..n]), n))
    else if IsIdentifierRune(s[0]) then
      var n := RunOf(s, IsNameRune);
      Ok((Token(Ident, s[..n]), n))
    else
      var op := FirstPrefix(ops, s);
      OperatorFits(ops, s);
      if op.None? then Err(UnexpectedChar(s[0])) else Ok((Token(Op, op.value), |op.value|))
  }

  function Lex(ops: OpList, s: string): Result<seq<Token>, Error> {
    if s == "" then Ok([])
    else if IsBlank(s[0]) then Lex(ops, s[1..])
    else
      var t := NextToken(ops, s);
      if t.Err? then Err(t.error) else Push([t.value.0], Lex(ops, s[t.value.1..]))
  }

  function Push(ts: seq<Token>, r: Result<seq<Token>, Error>): Result<seq<Token>, Error> {
    if r.Ok? then Ok(ts + r.value) else r
  }

  lemma PushAll(a: seq<Token>, b: seq<Token>, r: Result<seq<Token>, Error>)
    ensures Push(a, Push(b, r)) == Push(a + b, r) && Push([], r) == r && Push(a, Ok([])) == Ok(a)
  {
    if r.Ok? { assert a + (b + r.value) == a + b + r.value && [] + r.value == r.value; }
    assert a + [] == a;
  }

  /** The first operator of the list that fits is the longest one that fits. */
  lemma {:induction false} OperatorFits(ops: OpList, s: string)
    ensures var r := FirstPrefix(ops, s);
            if r.None? then forall o | o in ops :: !(o <= s)
            else r.value in ops && 0 < |r.value| <= |s| && r.value <= s
                 && forall o | o in ops && o <= s :: |o| <= |r.value|
    decreases |ops|
  {
    if ops != [] {
      assert ops == [ops[0]] + ops[1..];
      forall o | o in ops ensures |o| <= |ops[0]| {
        var i :| 0 <= i < |ops| && ops[i] == o;
        Shrinks(ops, i);
      }
      if !(ops[0] <= s) { OperatorFits(ops[1..], s); }
    }
  }

  lemma {:induction false} Shrinks(ops: OpList, i: nat)
    requires i < |ops|
    ensures |ops[i]| <= |ops[0]|
  {
    if i > 0 { Shrinks(ops, i - 1); }
  }

  // ----- the loop -----

  method Tokenize(ops: OpList, input: string) returns (r: Result<seq<Token>, Error>)
    ensures r == Lex(ops, input)
  {
    var tokens: seq<Token> := [];
    var index := 0;
    assert input[0..] == input;
    PushAll([], [], Lex(ops, input));
    while index < |input|
      invariant 0 <= index <= |input|
      invariant Lex(ops, input) == Push(tokens, Lex(ops, input[index..]))
    {
      ghost var rest := input[index..];
      if IsBlank(input[index]) {
        assert rest[1..] == input[index + 1..];
        index := index + 1;
      } else {
        var token := ReadToken(ops, input, index);
        if token.Err? { return Err(token.error); }
        ghost var n := token.value.1 - index;
        assert rest[n..] == input[token.value.1..];
        PushAll(tokens, [token.value.0], Lex(ops, rest[n..]));
        tokens := tokens + [token.value.0];
        index := token.value.1;
      }
    }
    PushAll(tokens, [], Ok([]));
    return Ok(tokens);
  }

  /** The token that starts at start, and the index after it. */
  method ReadToken(ops: OpList, input: string, start: nat) returns (r: Result<(Token, nat), Error>)
    requires start < |input| && !IsBlank(input[start])
    ensures var t := NextToken(ops, input[start..]);
            r == if t.Err? then t else Ok((t.value.0, start + t.value.1))
  {
    var first := input[start];
    var rest := input[start..];
    if IsQuote(first) {
      assert rest[1..] == input[start + 1..];
      var index := SkipWhile(input, start + 1, OtherThan(first));
      if index == |input| { return Err(UnterminatedString); }
      assert input[start + 1..index] == rest[1..index - start];
      assert NextToken(ops, rest) == Ok((Token(String, rest[1..index - start]), index + 1 - start));
      return Ok((Token(String, input[start + 1..index]), index + 1));
    } else if IsDigit(first) {
      var index := SkipWhile(input, start, IsNumberRune);
      assert input[start..index] == rest[..index - start];
      assert NextToken(ops, rest) == Ok((Token(Number, rest[..index - start]), index - start));
      return Ok((Token(Number, input[start..index]), index));
    } else if IsIdentifierRune(first) {
      var index := SkipWhile(input, start, IsNameRune);
      assert input[start..index] == rest[..index - start];
      assert NextToken(ops, rest) == Ok((Token(Ident, rest[..index - start]), index - start));
      return Ok((Token(Ident, input[start..index]), index));
    }
    var matched := MatchOperator(ops, rest);
    OperatorFits(ops, rest);
    return if matched == "" then Err(UnexpectedChar(first)) else Ok((Token(Op, matched), start + |matched|));
  }

  method SkipWhile(input: string, start: nat, p: char -> bool) returns (index: nat)
    requires start <= |input|
    ensures start <= index <= |input| && index - start == RunOf(input[start..], p)
  {
    index := start;
    while index < |input| && p(input[index])
      invariant start <= index <= |input|
      invariant RunOf(input[start..], p) == index - start + RunOf(input[index..], p)
    {
      assert input[index..][1..] == input[index + 1..];
      index := index + 1;
    }
  }

  method MatchOperator(ops: OpList, rest: string) returns (matched: string)
    ensures var r := FirstPrefix(ops, rest); matched == if r.Some? then r.value else ""
  {
    matched := "";
    assert ops[0..] == ops;
    for i := 0 to |ops|
      invariant FirstPrefix(ops, rest) == FirstPrefix(ops[i..], rest)
    {
      if ops[i] <= rest { return ops[i]; }
      assert ops[i..][1..] == ops[i + 1..];
    }
  }

  // ----- what was read, exactly -----

  /** A token as it stands in a text: the blanks before it, and the characters that spell it. */
  datatype Lexeme = Lexeme(blank: string, text: string, token: Token)

  ghost predicate AllBlank(s: string) { forall i :: 0 <= i < |s| ==> IsBlank(s[i]) }

  /** text spells the token and cannot be continued by what follows it. */
  ghost predicate Spelling(ops: OpList, text: string, token: Token, rest: string) {
    match token.kind
    case String =>
      |text| == |token.value| + 2 && IsQuote(text[0]) && text[0] !in token.value
      && text == [text[0]] + token.value + [text[0]]
    case Number =>
      text == token.value && text != "" && IsDigit(text[0]) && (forall i :: 0 <= i < |text| ==> IsNumberRune(text[i]))
      && (rest != "" ==> !IsNumberRune(rest[0]))
    case Ident =>
      && text == token.value && text != "" && IsIdentifierRune(text[0])
      && (forall i :: 0 <= i < |text| ==> IsNameRune(text[i]))
      && (rest != "" ==> !IsNameRune(rest[0]))
    case Op =>
      text == token.value && text in ops && forall o | o in ops && o <= text + rest :: |o| <= |text|
  }

  /** The text is these lexemes one after the other, and blanks. */
  ghost predicate Consists(ops: OpList, s: string, ls: seq<Lexeme>) {
    if ls == [] then AllBlank(s)
    else
      var n := |ls[0].blank| + |ls[0].text|;
      && n <= |s| && s[..n] == ls[0].blank + ls[0].text
      && AllBlank(ls[0].blank) && Spelling(ops, ls[0].text, ls[0].token, s[n..]) && Consists(ops, s[n..], ls[1..])
  }

  function TokensOf(ls: seq<Lexeme>): seq<Token> {
    if ls == [] then [] else [ls[0].token] + TokensOf(ls[1..])
  }

  lemma {:induction false} SkipBlanks(ops: OpList, blank: string, s: string)
    requires AllBlank(blank)
    ensures Lex(ops, blank + s) == Lex(ops, s)
  {
    if blank == "" { assert blank + s == s; }
    else { assert (blank + s)[1..] == blank[1..] + s; SkipBlanks(ops, blank[1..], s); }
  }

  lemma {:induction false} SpellingIsNext(ops: OpList, text: string, token: Token, rest: string)
    requires Spelling(ops, text, token, rest)
    ensures text != "" && !IsBlank(text[0]) && NextToken(ops, text + rest) == Ok((token, |text|))
  {
    var s := text + rest;
    match token.kind
    case String => StringIsNext(ops, text, token, rest);
    case Number => RunEnds(s, IsNumberRune, |text|);
    case Ident => RunEnds(s, IsNameRune, |text|);
    case Op => OperatorIsNext(ops, text, rest);
  }

  lemma {:induction false} StringIsNext(ops: OpList, text: string, token: Token, rest: string)
    requires token.kind == String && Spelling(ops, text, token, rest)
    ensures NextToken(ops, text + rest) == Ok((token, |text|))
  {
    var s := text + rest;
    RunEnds(s[1..], OtherThan(s[0]), |token.value|);
    assert s[1..|token.value| + 1] == token.value;
  }

  lemma {:induction false} OperatorIsNext(ops: OpList, text: string, rest: string)
    requires Spelling(ops, text, Token(Op, text), rest)
    ensures text != "" && !IsBlank(text[0]) && NextToken(ops, text + rest) == Ok((Token(Op, text), |text|))
  {
    var s := text + rest;
    OperatorFits(ops, s);
    assert text <= s && Solid(text);
    var op := FirstPrefix(ops, s).value;
    assert s[..|text|] == text && s[..|op|] == op;
  }

  lemma NextIsSpelling(ops: OpList, s: string)
    requires s != "" && !IsBlank(s[0]) && NextToken(ops, s).Ok?
    ensures var (token, n) := NextToken(ops, s).value;
            Spelling(ops, s[..n], token, s[n..])
  {
    var (token, n) := NextToken(ops, s).value;
    assert s[..n] + s[n..] == s;
    if token.kind.Op? { OperatorFits(ops, s); }
  }

  /** The tokenizer accepts exactly the texts that are spelled tokens and blanks, every token as
      long as it can be, and answers those tokens. */
  lemma {:induction false} LexIffConsists(ops: OpList, s: string, ts: seq<Token>)
    ensures Lex(ops, s) == Ok(ts) <==> exists ls :: TokensOf(ls) == ts && Consists(ops, s, ls)
  {
    if Lex(ops, s) == Ok(ts) { var ls := Decompose(ops, s); }
    forall ls | TokensOf(ls) == ts && Consists(ops, s, ls) ensures Lex(ops, s) == Ok(ts) { Compose(ops, s, ls); }
  }

  lemma {:induction false} Decompose(ops: OpList, s: string) returns (ls: seq<Lexeme>)
    requires Lex(ops, s).Ok?
    ensures Lex(ops, s) == Ok(TokensOf(ls)) && Consists(ops, s, ls)
    decreases |s|
  {
    if s == "" {
      ls := [];
    } else if IsBlank(s[0]) {
      ls := Decompose(ops, s[1..]);
      if ls != [] { ls := PrependBlank(ops, s, ls); }
    } else {
      NextIsSpelling(ops, s);
      var (token, n) := NextToken(ops, s).value;
      var rest := Decompose(ops, s[n..]);
      ls := [Lexeme("", s[..n], token)] + rest;
      assert "" + s[..n] == s[..n];
      assert ls[0] == Lexeme("", s[..n], token) && ls[1..] == rest;
      assert TokensOf(ls) == [token] + TokensOf(rest);
    }
  }

  lemma PrependBlank(ops: OpList, s: string, ls: seq<Lexeme>) returns (longer: seq<Lexeme>)
    requires s != "" && IsBlank(s[0]) && ls != [] && Consists(ops, s[1..], ls)
    ensures Consists(ops, s, longer) && TokensOf(longer) == TokensOf(ls)
  {
    var n := |ls[0].blank| + |ls[0].text|;
    var blank := [s[0]] + ls[0].blank;
    longer := [Lexeme(blank, ls[0].text, ls[0].token)] + ls[1..];
    CutPast(s, n);
    Assoc([s[0]], ls[0].blank, ls[0].text);
    assert AllBlank(blank) && longer[1..] == ls[1..];
  }

  lemma CutPast(s: string, n: nat)
    requires n < |s|
    ensures s[n + 1..] == s[1..][n..] && s[..n + 1] == [s[0]] + s[1..][..n]
  {
  }

  lemma {:induction false} Compose(ops: OpList, s: string, ls: seq<Lexeme>)
    requires Consists(ops, s, ls)
    ensures Lex(ops, s) == Ok(TokensOf(ls))
    decreases |ls|
  {
    if ls == [] {
      SkipBlanks(ops, s, "");
      assert s + "" == s;
    } else {
      var n := |ls[0].blank| + |ls[0].text|;
      assert s == ls[0].blank + (ls[0].text + s[n..]);
      LexOne(ops, ls[0].blank, ls[0].text, ls[0].token, s[n..]);
      Compose(ops, s[n..], ls[1..]);
    }
  }

  // ----- round trip -----

  /** Tokens some text spells: a string must leave one of the two quotes free. */
  ghost predicate Lexable(ops: OpList, t: Token) {
    match t.kind
    case String => '\'' !in t.value || '"' !in t.value
    case Number => t.value != "" && IsDigit(t.value[0]) && forall i :: 0 <= i < |t.value| ==> IsNumberRune(t.value[i])
    case Ident =>
      t.value != "" && IsIdentifierRune(t.value[0]) && forall i :: 0 <= i < |t.value| ==> IsNameRune(t.value[i])
    case Op => t.value in ops
  }

  function Spell(t: Token): string {
    if t.kind != String then t.value
    else if '\'' !in t.value then "'" + t.value + "'"
    else "\"" + t.value + "\""
  }

  /** Each token with the blanks given before it. */
  function Render(blanks: seq<string>, ts: seq<Token>): string
    requires |blanks| == |ts|
  {
    if ts == [] then "" else blanks[0] + Spell(ts[0]) + Render(blanks[1..], ts[1..])
  }

  ghost predicate Separates(blanks: seq<string>) {
    forall i :: 0 <= i < |blanks| ==> blanks[i] != "" && AllBlank(blanks[i])
  }

  lemma {:induction false} LexRender(ops: OpList, blanks: seq<string>, ts: seq<Token>)
    requires |blanks| == |ts| && Separates(blanks) && forall i :: 0 <= i < |ts| ==> Lexable(ops, ts[i])
    ensures Lex(ops, Render(blanks, ts)) == Ok(ts)
    decreases |ts|
  {
    if ts != [] {
      var text, rest := Spell(ts[0]), Render(blanks[1..], ts[1..]);
      LexRender(ops, blanks[1..], ts[1..]);
      RenderStarts(blanks[1..], ts[1..]);
      LexSpelled(ops, blanks[0], ts[0], rest);
      Assoc(blanks[0], text, rest);
      assert [ts[0]] + ts[1..] == ts;
    }
  }

  lemma RenderStarts(blanks: seq<string>, ts: seq<Token>)
    requires |blanks| == |ts| && Separates(blanks)
    ensures Render(blanks, ts) != "" ==> IsBlank(Render(blanks, ts)[0])
  {
  }

  lemma {:induction false} LexSpelled(ops: OpList, blank: string, t: Token, rest: string)
    requires AllBlank(blank) && Lexable(ops, t) && (rest != "" ==> IsBlank(rest[0]))
    ensures Lex(ops, blank + (Spell(t) + rest)) == Push([t], Lex(ops, rest))
  {
    SpellSpells(ops, t, rest);
    LexOne(ops, blank, Spell(t), t, rest);
  }

  lemma LexOne(ops: OpList, blank: string, text: string, token: Token, rest: string)
    requires AllBlank(blank) && Spelling(ops, text, token, rest)
    ensures Lex(ops, blank + (text + rest)) == Push([token], Lex(ops, rest))
  {
    SpellingIsNext(ops, text, token, rest);
    SkipBlanks(ops, blank, text + rest);
    assert (text + rest)[|text|..] == rest;
  }

  lemma SpellSpells(ops: OpList, t: Token, rest: string)
    requires Lexable(ops, t) && (rest != "" ==> IsBlank(rest[0]))
    ensures Spelling(ops, Spell(t), t, rest)
  {
    if t.kind == Op {
      assert rest != "" ==> (t.value + rest)[|t.value|] == rest[0];
      forall o | o in ops && o <= t.value + rest ensures |o| <= |t.value| { assert Solid(o); }
    }
  }

  // ----- expressions as text -----

  /** evaluateTemplateExpression. */
  function EvaluateText(c: Context, expression: string, drawn: seq<nat>): Evaluated<Value> {
    var tokens := Lex(Operators, expression);
    if tokens.Err? then Evaluated(Err(tokens.error), drawn) else EvaluateTokens(c, tokens.value, drawn)
  }

  method EvaluateTemplateExpression(c: Context, expression: string, drawn: seq<nat>) returns (v: Evaluated<Value>)
    ensures v == EvaluateText(c, expression, drawn)
  {
    var tokens := Tokenize(Operators, expression);
    if tokens.Err? { return Evaluated(Err(tokens.error), drawn); }
    v := Evaluate(c, tokens.value, drawn);
  }
}
