/** A template's text, line by line: splitting it, telling directives from text (conditionalPattern in
    controllers/template_expr.go), and the documents a rendered text holds (SplitYamlDocuments in
    store/templates.go). */
module TemplateLines {
  import opened Common

  // ----- lines -----

  /** strings.Split at newlines: one line more than there are newlines. */
  function SplitLines(text: string): (ls: seq<string>)
    ensures ls != []
  {
    if text == "" then [""]
    else
      var rest := SplitLines(text[1..]);
      if text[0] == '\n' then [""] + rest else [[text[0]] + rest[0]] + rest[1..]
  }

  /** Every "\r\n" made a newline. */
  function Unix(text: string): string {
    if text == "" then ""
    else if |text| >= 2 && text[0] == '\r' && text[1] == '\n' then "\n" + Unix(text[2..])
    else [text[0]] + Unix(text[1..])
  }

  /** A line as an editor shows it: it holds no newline, and does not end in half of one. */
  predicate IsLine(s: string) { '\n' !in s && (s != "" ==> s[|s| - 1] != '\r') }

  lemma {:induction false} SplitOne(line: string, rest: string)
    requires '\n' !in line
    ensures SplitLines(line) == [line]
    ensures SplitLines(line + ("\n" + rest)) == [line] + SplitLines(rest)
    decreases |line|
  {
    if line == "" {
      assert "" + ("\n" + rest) == "\n" + rest && ("\n" + rest)[1..] == rest;
    } else {
      assert line[0] in line && (line + ("\n" + rest))[1..] == line[1..] + ("\n" + rest);
      SplitOne(line[1..], rest);
      assert [line[0]] + line[1..] == line;
      assert ([line[1..]] + SplitLines(rest))[1..] == SplitLines(rest);
    }
  }

  /** Lines joined are split again. */
  lemma {:induction false} SplitJoined(ls: seq<string>)
    requires ls != [] && forall i :: 0 <= i < |ls| ==> '\n' !in ls[i]
    ensures SplitLines(Join(ls, "\n")) == ls
    decreases |ls|
  {
    if |ls| == 1 {
      SplitOne(ls[0], "");
    } else {
      var rest := Join(ls[1..], "\n");
      SplitJoined(ls[1..]);
      SplitOne(ls[0], rest);
      Assoc(ls[0], "\n", rest);
      assert [ls[0]] + ls[1..] == ls;
    }
  }

  /** Splitting loses nothing. */
  lemma {:induction false} JoinedSplit(text: string)
    ensures Join(SplitLines(text), "\n") == text
    ensures forall i :: 0 <= i < |SplitLines(text)| ==> '\n' !in SplitLines(text)[i]
    decreases |text|
  {
    if text != "" {
      var rest := SplitLines(text[1..]);
      JoinedSplit(text[1..]);
      assert [text[0]] + text[1..] == text;
      if text[0] == '\n' {
        assert ([""] + rest)[1..] == rest;
        assert "" + "\n" + text[1..] == text;
      } else if |rest| > 1 {
        assert ([[text[0]] + rest[0]] + rest[1..])[1..] == rest[1..];
        Assoc([text[0]], rest[0], "\n");
        Assoc([text[0]], rest[0] + "\n", Join(rest[1..], "\n"));
      }
    }
  }

  lemma {:induction false} UnixLine(line: string, rest: string)
    requires IsLine(line)
    ensures Unix(line) == line
    ensures Unix(line + ("\n" + rest)) == line + ("\n" + Unix(rest))
    ensures Unix(line + ("\r\n" + rest)) == line + ("\n" + Unix(rest))
    decreases |line|
  {
    if line == "" {
      assert "" + ("\n" + rest) == "\n" + rest && ("\n" + rest)[1..] == rest;
      assert "" + ("\r\n" + rest) == "\r\n" + rest && ("\r\n" + rest)[2..] == rest;
      assert "" + ("\n" + Unix(rest)) == "\n" + Unix(rest);
    } else {
      var (a, b) := (line + ("\n" + rest), line + ("\r\n" + rest));
      assert a[1..] == line[1..] + ("\n" + rest) && b[1..] == line[1..] + ("\r\n" + rest);
      UnixLine(line[1..], rest);
      assert [line[0]] + line[1..] == line;
      Assoc([line[0]], line[1..], "\n" + Unix(rest));
    }
  }

  /** However the lines of a text are ended, the text is those lines. */
  lemma {:induction false} LinesOfText(ls: seq<string>, end: string)
    requires ls != [] && (forall i :: 0 <= i < |ls| ==> IsLine(ls[i])) && (end == "\n" || end == "\r\n")
    ensures Unix(Join(ls, end)) == Join(ls, "\n") && SplitLines(Unix(Join(ls, end))) == ls
    decreases |ls|
  {
    UnixJoined(ls, end);
    SplitJoined(ls);
  }

  lemma {:induction false} UnixJoined(ls: seq<string>, end: string)
    requires (forall i :: 0 <= i < |ls| ==> IsLine(ls[i])) && (end == "\n" || end == "\r\n")
    ensures Unix(Join(ls, end)) == Join(ls, "\n")
    decreases |ls|
  {
    if |ls| == 1 {
      UnixLine(ls[0], "");
    } else if ls != [] {
      UnixJoined(ls[1..], end);
      UnixLine(ls[0], Join(ls[1..], end));
      Assoc(ls[0], end, Join(ls[1..], end));
      Assoc(ls[0], "\n", Join(ls[1..], "\n"));
    }
  }

  // ----- directives -----

  predicate IsSpace(c: char) { c == ' ' || c == '\t' || c == '\n' || c == '\r' || c == '\U{0C}' }

  ghost predicate AllSpace(s: string) { forall i :: 0 <= i < |s| ==> IsSpace(s[i]) }

  function TrimStart(s: string): (t: string)
    ensures |t| <= |s|
  {
    if s != "" && IsSpace(s[0]) then TrimStart(s[1..]) else s
  }

  function TrimEnd(s: string): (t: string)
    ensures |t| <= |s|
  {
    if s != "" && IsSpace(s[|s| - 1]) then TrimEnd(s[..|s| - 1]) else s
  }

  function Trim(s: string): string { TrimEnd(TrimStart(s)) }

  datatype Directive = NoDirective | Directive(keyword: string, expression: string)

  const Keywords: seq<string> := ["if", "elif", "else", "endif"]

  /** keyword(expression) */
  predicate Named(keyword: string, body: string) {
    var n := |keyword| + 1;
    keyword + "(" <= body && |body| > n && body[|body| - 1] == ')'
  }

  function Call(body: string): Directive {
    if Named("if", body) then Directive("if", body[3..|body| - 1])
    else if Named("elif", body) then Directive("elif", body[5..|body| - 1])
    else if Named("else", body) then Directive("else", body[5..|body| - 1])
    else if Named("endif", body) then Directive("endif", body[6..|body| - 1])
    else NoDirective
  }

  /** conditionalPattern. The parenthesis that closes the expression is the last one before the braces. */
  function DirectiveOf(line: string): Directive {
    var s := Trim(line);
    if "${{" <= s && |s| >= 5 && s[|s| - 2..] == "}}" then Call(Trim(s[3..|s| - 2])) else NoDirective
  }

  lemma {:induction false} TrimStartPads(pad: string, x: string)
    requires AllSpace(pad) && (x != "" ==> !IsSpace(x[0]))
    ensures TrimStart(pad + x) == x
    decreases |pad|
  {
    if pad == "" { assert pad + x == x; } else { assert (pad + x)[1..] == pad[1..] + x; TrimStartPads(pad[1..], x); }
  }

  lemma {:induction false} TrimEndPads(x: string, pad: string)
    requires AllSpace(pad) && (x != "" ==> !IsSpace(x[|x| - 1]))
    ensures TrimEnd(x + pad) == x
    decreases |pad|
  {
    if pad == "" {
      assert x + pad == x;
    } else {
      assert (x + pad)[..|x + pad| - 1] == x + pad[..|pad| - 1];
      TrimEndPads(x, pad[..|pad| - 1]);
    }
  }

  lemma TrimPads(before: string, x: string, after: string)
    requires AllSpace(before) && AllSpace(after) && x != "" && !IsSpace(x[0]) && !IsSpace(x[|x| - 1])
    ensures Trim(before + (x + after)) == x
  {
    TrimStartPads(before, x + after);
    TrimEndPads(x, after);
  }

  lemma {:induction false} TrimStartSplits(s: string) returns (pad: string)
    ensures s == pad + TrimStart(s) && AllSpace(pad)
    decreases |s|
  {
    if s != "" && IsSpace(s[0]) {
      pad := TrimStartSplits(s[1..]);
      assert s == [s[0]] + s[1..];
      Assoc([s[0]], pad, TrimStart(s[1..]));
      pad := [s[0]] + pad;
    } else {
      pad := "";
      assert "" + s == s;
    }
  }

  lemma {:induction false} TrimEndSplits(s: string) returns (pad: string)
    ensures s == TrimEnd(s) + pad && AllSpace(pad)
    decreases |s|
  {
    if s != "" && IsSpace(s[|s| - 1]) {
      var most := s[..|s| - 1];
      pad := TrimEndSplits(most);
      assert s == most + [s[|s| - 1]];
      Assoc(TrimEnd(most), pad, [s[|s| - 1]]);
      pad := pad + [s[|s| - 1]];
    } else {
      pad := "";
      assert s + "" == s;
    }
  }

  lemma TrimSplits(s: string) returns (before: string, after: string)
    ensures s == before + (Trim(s) + after) && AllSpace(before) && AllSpace(after)
  {
    before := TrimStartSplits(s);
    after := TrimEndSplits(TrimStart(s));
  }

  function Body(keyword: string, expression: string): string { keyword + "(" + expression + ")" }

  /** The line is a directive, written with any space around its parts. */
  ghost predicate IsWritten(line: string, keyword: string, expression: string) {
    exists a, b, c, d :: WrittenWith(line, keyword, expression, a, b, c, d)
  }

  ghost predicate WrittenWith(line: string, keyword: string, expression: string, a: string, b: string, c: string,
                              d: string) {
    && AllSpace(a) && AllSpace(b) && AllSpace(c) && AllSpace(d)
    && line == a + (("${{" + (b + (Body(keyword, expression) + c)) + "}}") + d)
  }

  lemma CallOf(body: string)
    ensures Call(body).Directive? ==> body == Body(Call(body).keyword, Call(body).expression)
  {
    var d := Call(body);
    if d.Directive? {
      var n := |d.keyword| + 1;
      assert d.keyword + "(" <= body && d.expression == body[n..|body| - 1] && body[|body| - 1] == ')';
      assert body == d.keyword + "(" + body[n..|body| - 1] + ")";
    }
  }

  lemma CallReads(keyword: string, expression: string)
    requires keyword in Keywords
    ensures Call(Body(keyword, expression)) == Directive(keyword, expression)
  {
    var body := Body(keyword, expression);
    var n := |keyword| + 1;
    assert keyword + "(" <= body && body[|body| - 1] == ')' && body[n..|body| - 1] == expression;
    assert body[0] == keyword[0] && body[1] == keyword[1] && body[2] == (keyword + "(")[2];
    assert n > 3 ==> body[3] == (keyword + "(")[3];
  }

  lemma InnerWritten(b: string, body: string, c: string)
    requires AllSpace(b) && AllSpace(c) && body != "" && !IsSpace(body[0]) && !IsSpace(body[|body| - 1])
    ensures var s := "${{" + (b + (body + c)) + "}}";
            && "${{" <= s && |s| >= 5 && s[|s| - 2..] == "}}" && !IsSpace(s[0]) && !IsSpace(s[|s| - 1])
            && s[3..|s| - 2] == b + (body + c) && Trim(s[3..|s| - 2]) == body
  {
    var s := "${{" + (b + (body + c)) + "}}";
    TrimPads(b, body, c);
    assert s[|s| - 2..] == "}}" && s[|s| - 1] == '}';
    assert s[3..|s| - 2] == b + (body + c);
  }

  /** A line is read as a directive exactly when it is one, written with any space around its parts. */
  lemma DirectiveIff(line: string, keyword: string, expression: string)
    requires keyword in Keywords
    ensures DirectiveOf(line) == Directive(keyword, expression) <==> IsWritten(line, keyword, expression)
  {
    if DirectiveOf(line) == Directive(keyword, expression) { DirectiveIsWritten(line, keyword, expression); }
    if a, b, c, d :| WrittenWith(line, keyword, expression, a, b, c, d) {
      WrittenIsDirective(line, keyword, expression, a, b, c, d);
    }
  }

  lemma WrittenIsDirective(line: string, keyword: string, expression: string, a: string, b: string, c: string,
                           d: string)
    requires keyword in Keywords && WrittenWith(line, keyword, expression, a, b, c, d)
    ensures DirectiveOf(line) == Directive(keyword, expression)
  {
    var body := Body(keyword, expression);
    var s := "${{" + (b + (body + c)) + "}}";
    InnerWritten(b, body, c);
    TrimPads(a, s, d);
    CallReads(keyword, expression);
  }

  lemma DirectiveIsWritten(line: string, keyword: string, expression: string)
    requires DirectiveOf(line) == Directive(keyword, expression)
    ensures IsWritten(line, keyword, expression)
  {
    var s := Trim(line);
    var a, d := TrimSplits(line);
    var inner := s[3..|s| - 2];
    var b, c := TrimSplits(inner);
    CallOf(Trim(inner));
    assert s == "${{" + inner + "}}";
    assert WrittenWith(line, keyword, expression, a, b, c, d);
  }

  /** The spaces and the keywords, one by one. */
  lemma SpacesAre(c: char, keyword: string)
    ensures IsSpace(c) <==> c in {' ', '\t', '\n', '\r', '\U{0C}'}
    ensures keyword in Keywords <==> keyword in {"if", "elif", "else", "endif"}
  {
  }

  // ----- documents -----

  predicate IsSeparator(line: string) {
    line == "---" || (line != "" && IsTab(line[|line| - 1]) && IsSeparator(line[..|line| - 1]))
  }

  predicate IsTab(c: char) { c == ' ' || c == '\t' }

  /** A separator is three dashes and nothing else but spaces and tabs after them. */
  lemma {:induction false} SeparatorIff(line: string)
    ensures IsSeparator(line) <==>
              |line| >= 3 && line[..3] == "---" && forall k :: 3 <= k < |line| ==> line[k] in {' ', '\t'}
    decreases |line|
  {
    if |line| <= 3 {
      if line != "" && line != "---" { SeparatorIff(line[..|line| - 1]); }
    } else {
      var n := |line| - 1;
      SeparatorIff(line[..n]);
      assert line[..n][..3] == line[..3] && line[n] == line[|line| - 1];
      assert forall k :: 3 <= k < n ==> line[..n][k] == line[k];
    }
  }

  /** The documents of lines, the lines of the first already read given. */
  function DocumentsOf(lines: seq<string>, current: seq<string>): seq<string> {
    if lines == [] then [Join(current, "\n")]
    else if IsSeparator(lines[0]) then [Join(current, "\n")] + DocumentsOf(lines[1..], [])
    else DocumentsOf(lines[1..], current + [lines[0]])
  }

  method SplitYamlDocuments(text: string) returns (documents: seq<string>)
    ensures documents == Documents(text)
  {
    var lines := SplitLines(Unix(text));
    documents := [];
    var current := [];
    assert lines[0..] == lines;
    for i := 0 to |lines|
      invariant documents + DocumentsOf(lines[i..], current) == DocumentsOf(lines, [])
    {
      assert lines[i..][0] == lines[i] && lines[i..][1..] == lines[i + 1..];
      if IsSeparator(lines[i]) {
        Assoc(documents, [Join(current, "\n")], DocumentsOf(lines[i + 1..], []));
        documents, current := documents + [Join(current, "\n")], [];
      } else {
        current := current + [lines[i]];
      }
    }
    assert lines[|lines|..] == [];
    documents := documents + [Join(current, "\n")];
  }

  function Documents(text: string): seq<string> { DocumentsOf(SplitLines(Unix(text)), []) }

  /** A document's lines, none of which stands for a separator; there may be none. */
  ghost predicate IsDocument(lines: seq<string>) {
    forall i :: 0 <= i < |lines| ==> IsLine(lines[i]) && !IsSeparator(lines[i])
  }

  function Concat(docs: seq<seq<string>>): seq<string> {
    if docs == [] then [] else if |docs| == 1 then docs[0] else docs[0] + (["---"] + Concat(docs[1..]))
  }

  function Texts(docs: seq<seq<string>>): seq<string> {
    if docs == [] then [] else [Join(docs[0], "\n")] + Texts(docs[1..])
  }

  lemma {:induction false} ReadOn(lines: seq<string>, rest: seq<string>, current: seq<string>)
    requires forall i :: 0 <= i < |lines| ==> !IsSeparator(lines[i])
    ensures DocumentsOf(lines + rest, current) == DocumentsOf(rest, current + lines)
    decreases |lines|
  {
    if lines == [] {
      assert lines + rest == rest && current + lines == current;
    } else {
      assert (lines + rest)[0] == lines[0] && (lines + rest)[1..] == lines[1..] + rest;
      ReadOn(lines[1..], rest, current + [lines[0]]);
      assert current + [lines[0]] + lines[1..] == current + lines;
    }
  }

  /** Documents written with separators between them are read back. */
  lemma {:induction false} DocumentsReadBack(docs: seq<seq<string>>)
    requires docs != [] && forall i :: 0 <= i < |docs| ==> IsDocument(docs[i])
    ensures DocumentsOf(Concat(docs), []) == Texts(docs)
    decreases |docs|
  {
    var first := docs[0];
    assert [] + first == first;
    if |docs| == 1 {
      ReadOn(first, [], []);
      assert first + [] == first;
    } else {
      var rest := Concat(docs[1..]);
      ReadOn(first, ["---"] + rest, []);
      assert (["---"] + rest)[1..] == rest;
      DocumentsReadBack(docs[1..]);
    }
  }

  lemma {:induction false} ConcatIsLines(docs: seq<seq<string>>)
    requires docs != [] && forall i :: 0 <= i < |docs| ==> IsDocument(docs[i])
    ensures Concat(docs) == [] ==> docs == [[]]
    ensures forall i :: 0 <= i < |Concat(docs)| ==> IsLine(Concat(docs)[i])
    decreases |docs|
  {
    if |docs| > 1 { ConcatIsLines(docs[1..]); }
  }

  /** So they are from the text, whichever way its lines end. */
  lemma DocumentsOfText(docs: seq<seq<string>>, end: string)
    requires docs != [] && (forall i :: 0 <= i < |docs| ==> IsDocument(docs[i])) && (end == "\n" || end == "\r\n")
    ensures Documents(Join(Concat(docs), end)) == Texts(docs)
  {
    ConcatIsLines(docs);
    DocumentsReadBack(docs);
    JoinIs("", [], "\n");
    if Concat(docs) == [] {
      assert Documents("") == [""] && Texts([[]]) == [""] by { assert [] + [""] == [""]; }
    } else {
      LinesOfText(Concat(docs), end);
    }
  }
}
