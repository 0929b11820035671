/** Splitting a compose command line into words (splitCommand in controllers/compose.go), and the
    quoter whose output it takes apart again (shellSingleQuote in deploy/executor.go). */
module ShellWords {
  import opened Common

  predicate IsBlank(c: char) { c == ' ' || c == '\t' || c == '\n' }

  // ----- the automaton -----

  datatype Quote = Unquoted | Within(quote: char)

  datatype State = State(words: seq<string>, current: string, inWord: bool, quote: Quote, escaped: bool)

  const Start := State([], "", false, Unquoted, false)

  function Step(st: State, r: char): State {
    if st.escaped then st.(current := st.current + [r], escaped := false)
    else if r == '\\' && st.quote != Within('\'') then st.(escaped := true, inWord := true)
    else if st.quote.Within? then
      if st.quote.quote == r then st.(quote := Unquoted) else st.(current := st.current + [r])
    else if r == '"' || r == '\'' then st.(quote := Within(r), inWord := true)
    else if IsBlank(r) then
      if st.inWord then st.(words := st.words + [st.current], current := "", inWord := false) else st
    else st.(current := st.current + [r], inWord := true)
  }

  function Feed(st: State, line: string): State
    decreases |line|
  {
    if line == "" then st else Feed(Step(st, line[0]), line[1..])
  }

  function Finish(st: State): seq<string> { if st.inWord then st.words + [st.current] else st.words }

  function Split(line: string): seq<string> { Finish(Feed(Start, line)) }

  method SplitCommand(line: string) returns (words: seq<string>)
    ensures words == Split(line)
  {
    words := [];
    var current := "";
    var inWord, escaped := false, false;
    var quote: Quote := Unquoted;
    assert line[0..] == line;
    for i := 0 to |line|
      invariant Feed(Start, line) == Feed(State(words, current, inWord, quote, escaped), line[i..])
    {
      var r := line[i];
      assert line[i..][1..] == line[i + 1..];
      if escaped {
        current := current + [r];
        escaped := false;
      } else if r == '\\' && quote != Within('\'') {
        escaped := true;
        inWord := true;
      } else if quote.Within? {
        if quote.quote == r { quote := Unquoted; } else { current := current + [r]; }
      } else if r == '"' || r == '\'' {
        quote := Within(r);
        inWord := true;
      } else if IsBlank(r) {
        if inWord {
          words := words + [current];
          current := "";
          inWord := false;
        }
      } else {
        current := current + [r];
        inWord := true;
      }
    }
    if inWord { words := words + [current]; }
  }

  // ----- what a command line says -----

  /** A character inside double quotes, as it is or behind a backslash. */
  datatype Inner = Inner(c: char, escaped: bool)

  datatype Piece =
    | Bare(c: char)
    | Escaped(c: char)
    | Single(text: string)
    | Double(inner: seq<Inner>)

  predicate Sayable(p: Piece) {
    match p
    case Bare(c) => c != '\\' && c != '\'' && c != '"' && !IsBlank(c)
    case Escaped(_) => true
    case Single(text) => '\'' !in text
    case Double(inner) => forall i :: 0 <= i < |inner| ==> inner[i].escaped || (inner[i].c != '"' && inner[i].c != '\\')
  }

  function WriteInner(inner: seq<Inner>): string {
    if inner == [] then ""
    else (if inner[0].escaped then ['\\', inner[0].c] else [inner[0].c]) + WriteInner(inner[1..])
  }

  function InnerMeans(inner: seq<Inner>): string {
    if inner == [] then "" else [inner[0].c] + InnerMeans(inner[1..])
  }

  function Write(p: Piece): string {
    match p
    case Bare(c) => [c]
    case Escaped(c) => ['\\', c]
    case Single(text) => "'" + text + "'"
    case Double(inner) => "\"" + WriteInner(inner) + "\""
  }

  function Means(p: Piece): string {
    match p
    case Bare(c) => [c]
    case Escaped(c) => [c]
    case Single(text) => text
    case Double(inner) => InnerMeans(inner)
  }

  function WriteWord(word: seq<Piece>): string {
    if word == [] then "" else Write(word[0]) + WriteWord(word[1..])
  }

  function WordMeans(word: seq<Piece>): string {
    if word == [] then "" else Means(word[0]) + WordMeans(word[1..])
  }

  /** A word with the blanks before it. */
  datatype Spaced = Spaced(blanks: string, word: seq<Piece>)

  lemma BlanksAre(c: char)
    ensures IsBlank(c) <==> c in {' ', '\t', '\n'}
  {
  }

  ghost predicate AllBlank(s: string) { forall i :: 0 <= i < |s| ==> IsBlank(s[i]) }

  ghost predicate SayableWord(word: seq<Piece>) { word != [] && forall i :: 0 <= i < |word| ==> Sayable(word[i]) }

  /** Words with blanks between them; blanks before the first may be missing. */
  ghost predicate SayableLine(line: seq<Spaced>) {
    forall i :: 0 <= i < |line| ==>
      AllBlank(line[i].blanks) && SayableWord(line[i].word) && (i > 0 ==> line[i].blanks != "")
  }

  function WriteLine(line: seq<Spaced>): string {
    if line == [] then "" else line[0].blanks + WriteWord(line[0].word) + WriteLine(line[1..])
  }

  function LineMeans(line: seq<Spaced>): seq<string> {
    if line == [] then [] else [WordMeans(line[0].word)] + LineMeans(line[1..])
  }

  lemma {:induction false} FeedAppend(st: State, a: string, b: string)
    ensures Feed(st, a + b) == Feed(Feed(st, a), b)
    decreases |a|
  {
    if a == "" { assert a + b == b; }
    else { assert (a + b)[1..] == a[1..] + b; FeedAppend(Step(st, a[0]), a[1..], b); }
  }

  lemma {:induction false} FeedSingle(st: State, text: string)
    requires st.quote == Within('\'') && !st.escaped && '\'' !in text
    ensures Feed(st, text) == st.(current := st.current + text)
    decreases |text|
  {
    if text == "" { assert st.current + text == st.current; }
    else {
      FeedSingle(Step(st, text[0]), text[1..]);
      assert st.current + [text[0]] + text[1..] == st.current + text;
    }
  }

  lemma {:induction false} FeedDouble(st: State, inner: seq<Inner>)
    requires st.quote == Within('"') && !st.escaped && st.inWord && Sayable(Double(inner))
    ensures Feed(st, WriteInner(inner)) == st.(current := st.current + InnerMeans(inner))
    decreases |inner|
  {
    if inner == [] { assert st.current + "" == st.current; }
    else {
      var next := st.(current := st.current + [inner[0].c]);
      FeedInner(st, inner[0], WriteInner(inner[1..]));
      FeedDouble(next, inner[1..]);
      Assoc(st.current, [inner[0].c], InnerMeans(inner[1..]));
    }
  }

  lemma FeedInner(st: State, i: Inner, tail: string)
    requires st.quote == Within('"') && !st.escaped && st.inWord && Sayable(Double([i]))
    ensures Feed(st, (if i.escaped then ['\\', i.c] else [i.c]) + tail)
          == Feed(st.(current := st.current + [i.c]), tail)
  {
    assert [i][0] == i;
    var first := if i.escaped then ['\\', i.c] else [i.c];
    FeedAppend(st, first, tail);
    FeedShort(st, first);
  }

  lemma FeedShort(st: State, s: string)
    ensures |s| == 1 ==> Feed(st, s) == Step(st, s[0])
    ensures |s| == 2 ==> Feed(st, s) == Step(Step(st, s[0]), s[1])
  {
    if |s| == 2 { assert Feed(Step(st, s[0]), s[1..]) == Feed(Step(Step(st, s[0]), s[1]), s[1..][1..]); }
  }

  lemma {:induction false} FeedPiece(st: State, p: Piece)
    requires !st.escaped && st.quote == Unquoted && Sayable(p)
    ensures Feed(st, Write(p)) == st.(current := st.current + Means(p), inWord := true)
  {
    match p
    case Bare(c) => FeedShort(st, [c]);
    case Escaped(c) => FeedShort(st, ['\\', c]);
    case Single(text) =>
      var open := Step(st, '\'');
      FeedAppend(st, "'" + text, "'");
      FeedAppend(st, "'", text);
      FeedShort(st, "'");
      FeedSingle(open, text);
      FeedShort(Feed(open, text), "'");
    case Double(inner) =>
      var open := Step(st, '"');
      FeedAppend(st, "\"" + WriteInner(inner), "\"");
      FeedAppend(st, "\"", WriteInner(inner));
      FeedShort(st, "\"");
      FeedDouble(open, inner);
      FeedShort(Feed(open, WriteInner(inner)), "\"");
  }

  lemma {:induction false} FeedWord(st: State, word: seq<Piece>)
    requires !st.escaped && st.quote == Unquoted && forall i :: 0 <= i < |word| ==> Sayable(word[i])
    ensures Feed(st, WriteWord(word)) ==
              if word == [] then st else st.(current := st.current + WordMeans(word), inWord := true)
    decreases |word|
  {
    if word != [] {
      var next := st.(current := st.current + Means(word[0]), inWord := true);
      FeedAppend(st, Write(word[0]), WriteWord(word[1..]));
      FeedPiece(st, word[0]);
      FeedWord(next, word[1..]);
      Assoc(st.current, Means(word[0]), WordMeans(word[1..]));
      if |word| == 1 { assert next.current + WordMeans(word[1..]) == next.current; }
    }
  }

  lemma {:induction false} FeedBlanks(st: State, blanks: string)
    requires !st.escaped && st.quote == Unquoted && AllBlank(blanks)
    ensures Feed(st, blanks) == if blanks == "" || !st.inWord then st else State(Finish(st), "", false, Unquoted, false)
    decreases |blanks|
  {
    if blanks != "" { FeedBlanks(Step(st, blanks[0]), blanks[1..]); }
  }

  lemma {:induction false} FeedLine(st: State, line: seq<Spaced>)
    requires !st.escaped && st.quote == Unquoted && SayableLine(line)
    requires !st.inWord ==> st.current == ""
    requires line != [] && st.inWord ==> line[0].blanks != ""
    ensures var r := Feed(st, WriteLine(line));
            Finish(r) == Finish(st) + LineMeans(line) && !r.escaped && r.quote == Unquoted
    decreases |line|
  {
    if line != [] {
      var after := State(Finish(st), WordMeans(line[0].word), true, Unquoted, false);
      FeedAppend(st, line[0].blanks + WriteWord(line[0].word), WriteLine(line[1..]));
      FeedSpaced(st, line[0]);
      FeedLine(after, line[1..]);
      Assoc(Finish(st), [WordMeans(line[0].word)], LineMeans(line[1..]));
    } else {
      assert Finish(st) + [] == Finish(st);
    }
  }

  lemma FeedSpaced(st: State, s: Spaced)
    requires !st.escaped && st.quote == Unquoted && AllBlank(s.blanks) && SayableWord(s.word)
    requires if st.inWord then s.blanks != "" else st.current == ""
    ensures Feed(st, s.blanks + WriteWord(s.word)) == State(Finish(st), WordMeans(s.word), true, Unquoted, false)
  {
    var between := State(Finish(st), "", false, Unquoted, false);
    FeedAppend(st, s.blanks, WriteWord(s.word));
    FeedBlanks(st, s.blanks);
    FeedWord(between, s.word);
    assert "" + WordMeans(s.word) == WordMeans(s.word);
  }

  /** Whatever words are written with quotes and backslashes, and whatever blanks stand between
      them, splitting the line gives what each word means. */
  lemma SplitSaysWords(line: seq<Spaced>, trail: string)
    requires SayableLine(line) && AllBlank(trail)
    ensures Split(WriteLine(line) + trail) == LineMeans(line)
  {
    LineSplits(line);
    TrailAddsNothing(WriteLine(line), trail);
  }

  lemma LineSplits(line: seq<Spaced>)
    requires SayableLine(line)
    ensures Split(WriteLine(line)) == LineMeans(line) && Closed(Feed(Start, WriteLine(line)))
  {
    FeedLine(Start, line);
    assert Finish(Start) + LineMeans(line) == LineMeans(line);
  }

  lemma TrailAddsNothing(line: string, trail: string)
    requires Closed(Feed(Start, line)) && AllBlank(trail)
    ensures Split(line + trail) == Split(line)
  {
    FeedAppend(Start, line, trail);
    FeedBlanks(Feed(Start, line), trail);
  }

  // ----- every line that ends where a word may end is written so -----

  /** Neither a quote nor a backslash waits for more. */
  predicate Closed(st: State) { !st.escaped && st.quote == Unquoted }

  /** A line from the middle of a word: the rest of the word, more words, blanks. */
  datatype Reading = Reading(word: seq<Piece>, more: seq<Spaced>, trail: string)

  function WriteReading(r: Reading): string { WriteWord(r.word) + (WriteLine(r.more) + r.trail) }

  ghost predicate Readable(r: Reading) {
    && (forall i :: 0 <= i < |r.word| ==> Sayable(r.word[i]))
    && SayableLine(r.more) && (r.more != [] ==> r.more[0].blanks != "") && AllBlank(r.trail)
  }

  /** The text up to the closing quote. */
  lemma {:induction false} FindSingle(st: State, line: string) returns (text: string, rest: string)
    requires st.quote == Within('\'') && !st.escaped && Closed(Feed(st, line))
    ensures '\'' !in text && line == text + ("'" + rest)
    decreases |line|
  {
    if line[0] == '\'' {
      text, rest := "", line[1..];
      assert "'" + rest == line;
    } else {
      text, rest := FindSingle(Step(st, line[0]), line[1..]);
      assert line == [line[0]] + line[1..];
      Assoc([line[0]], text, "'" + rest);
      text := [line[0]] + text;
    }
  }

  lemma {:induction false} FindDouble(st: State, line: string) returns (inner: seq<Inner>, rest: string)
    requires st.quote == Within('"') && !st.escaped && st.inWord && Closed(Feed(st, line))
    ensures Sayable(Double(inner)) && line == WriteInner(inner) + ("\"" + rest)
    decreases |line|
  {
    if line[0] == '"' {
      inner, rest := [], line[1..];
      assert WriteInner(inner) + ("\"" + rest) == line;
    } else if line[0] == '\\' {
      FeedShort(st, line);
      FeedTwo(st, line);
      inner, rest := FindDouble(Step(Step(st, line[0]), line[1]), line[2..]);
      InnerOn(Inner(line[1], true), inner, "\"" + rest);
      assert line == ['\\', line[1]] + line[2..];
      inner := [Inner(line[1], true)] + inner;
    } else {
      inner, rest := FindDouble(Step(st, line[0]), line[1..]);
      InnerOn(Inner(line[0], false), inner, "\"" + rest);
      assert line == [line[0]] + line[1..];
      inner := [Inner(line[0], false)] + inner;
    }
  }

  lemma FeedTwo(st: State, line: string)
    requires |line| >= 2
    ensures Feed(st, line) == Feed(Step(Step(st, line[0]), line[1]), line[2..])
  {
    assert line[1..][1..] == line[2..];
  }

  lemma InnerOn(i: Inner, inner: seq<Inner>, tail: string)
    ensures WriteInner([i] + inner) + tail == (if i.escaped then ['\\', i.c] else [i.c]) + (WriteInner(inner) + tail)
  {
    assert ([i] + inner)[1..] == inner;
  }

  lemma WordOn(p: Piece, r: Reading)
    requires Sayable(p) && Readable(r)
    ensures Readable(r.(word := [p] + r.word)) && WriteReading(r.(word := [p] + r.word)) == Write(p) + WriteReading(r)
  {
    assert ([p] + r.word)[1..] == r.word;
    Assoc(Write(p), WriteWord(r.word), WriteLine(r.more) + r.trail);
  }

  /** A blank ends the word before it: what follows is more words, or nothing but blanks. */
  function Blanked(c: char, r: Reading): Reading {
    if r.word != [] then Reading([], [Spaced([c], r.word)] + r.more, r.trail)
    else if r.more != [] then Reading([], [Spaced([c] + r.more[0].blanks, r.more[0].word)] + r.more[1..], r.trail)
    else Reading([], [], [c] + r.trail)
  }

  lemma BlankedIsReadable(c: char, r: Reading)
    requires IsBlank(c) && Readable(r)
    ensures Readable(Blanked(c, r))
  {
    var more := Blanked(c, r).more;
    forall i | 0 < i < |more| ensures AllBlank(more[i].blanks) && SayableWord(more[i].word) && more[i].blanks != "" {
      assert more[i] == if r.word != [] then r.more[i - 1] else r.more[i];
    }
  }

  lemma BlankOn(c: char, r: Reading)
    requires IsBlank(c) && Readable(r)
    ensures Readable(Blanked(c, r)) && WriteReading(Blanked(c, r)) == [c] + WriteReading(r)
  {
    BlankedIsReadable(c, r);
    if r.word != [] {
      LineOn([c], r.word, r.more, r.trail);
    } else if r.more != [] {
      BlankBefore(c, r.more, r.trail);
    } else {
      assert WriteReading(r) == r.trail && WriteReading(Blanked(c, r)) == [c] + r.trail;
    }
  }

  lemma LineOn(blanks: string, word: seq<Piece>, more: seq<Spaced>, trail: string)
    ensures WriteReading(Reading([], [Spaced(blanks, word)] + more, trail))
          == blanks + (WriteWord(word) + (WriteLine(more) + trail))
  {
    var all := [Spaced(blanks, word)] + more;
    assert all[1..] == more && all[0] == Spaced(blanks, word);
    var (w, l) := (WriteWord(word), WriteLine(more));
    assert WriteLine(all) == blanks + w + l;
    Assoc(blanks + w, l, trail);
    Assoc(blanks, w, l + trail);
    assert "" + (WriteLine(all) + trail) == WriteLine(all) + trail;
  }

  lemma BlankBefore(c: char, more: seq<Spaced>, trail: string)
    requires more != []
    ensures WriteReading(Reading([], [Spaced([c] + more[0].blanks, more[0].word)] + more[1..], trail))
          == [c] + WriteReading(Reading([], more, trail))
  {
    LineOn([c] + more[0].blanks, more[0].word, more[1..], trail);
    LineOn(more[0].blanks, more[0].word, more[1..], trail);
    assert [Spaced(more[0].blanks, more[0].word)] + more[1..] == more;
    Assoc([c], more[0].blanks, WriteWord(more[0].word) + (WriteLine(more[1..]) + trail));
  }

  lemma {:induction false} FindWords(st: State, line: string) returns (r: Reading)
    requires Closed(st) && Closed(Feed(st, line))
    ensures Readable(r) && line == WriteReading(r)
    decreases |line|
  {
    if line == "" {
      r := Reading([], [], "");
      return;
    }
    assert line == [line[0]] + line[1..];
    if line[0] == '\\' {
      FeedShort(st, line);
      FeedTwo(st, line);
      r := FindWords(Step(Step(st, line[0]), line[1]), line[2..]);
      WordOn(Escaped(line[1]), r);
      assert line == ['\\', line[1]] + line[2..];
      r := r.(word := [Escaped(line[1])] + r.word);
    } else if line[0] == '\'' {
      var text, rest := FindSingle(Step(st, line[0]), line[1..]);
      r := AfterSingle(st, line, text, rest);
    } else if line[0] == '"' {
      var inner, rest := FindDouble(Step(st, line[0]), line[1..]);
      r := AfterDouble(st, line, inner, rest);
    } else {
      r := FindWords(Step(st, line[0]), line[1..]);
      if IsBlank(line[0]) {
        BlankOn(line[0], r);
        r := Blanked(line[0], r);
      } else {
        WordOn(Bare(line[0]), r);
        r := r.(word := [Bare(line[0])] + r.word);
      }
    }
  }

  lemma {:induction false} AfterSingle(st: State, line: string, text: string, rest: string) returns (r: Reading)
    requires Closed(st) && Closed(Feed(st, line)) && line != "" && '\'' !in text
    requires line == ['\''] + line[1..] && line[1..] == text + ("'" + rest)
    ensures Readable(r) && line == WriteReading(r)
    decreases |line|, 0
  {
    var p := Single(text);
    assert Write(p) + rest == line;
    FeedAppend(st, Write(p), rest);
    FeedPiece(st, p);
    r := FindWords(Feed(st, Write(p)), rest);
    WordOn(p, r);
    r := r.(word := [p] + r.word);
  }

  lemma {:induction false} AfterDouble(st: State, line: string, inner: seq<Inner>, rest: string) returns (r: Reading)
    requires Closed(st) && Closed(Feed(st, line)) && line != "" && Sayable(Double(inner))
    requires line == ['"'] + line[1..] && line[1..] == WriteInner(inner) + ("\"" + rest)
    ensures Readable(r) && line == WriteReading(r)
    decreases |line|, 0
  {
    var p := Double(inner);
    assert Write(p) + rest == line;
    FeedAppend(st, Write(p), rest);
    FeedPiece(st, p);
    r := FindWords(Feed(st, Write(p)), rest);
    WordOn(p, r);
    r := r.(word := [p] + r.word);
  }

  ghost predicate IsWritten(line: string, words: seq<Spaced>, trail: string) {
    SayableLine(words) && AllBlank(trail) && line == WriteLine(words) + trail
  }

  /** The lines that leave no quote and no backslash open are exactly those written word by word;
      so SplitSaysWords tells what becomes of each of them. */
  lemma ClosedIffWritten(line: string)
    ensures Closed(Feed(Start, line)) <==> exists words, trail :: IsWritten(line, words, trail)
  {
    if Closed(Feed(Start, line)) { ClosedIsWritten(line); }
    if words, trail :| IsWritten(line, words, trail) {
      FeedAppend(Start, WriteLine(words), trail);
      FeedLine(Start, words);
      FeedBlanks(Feed(Start, WriteLine(words)), trail);
    }
  }

  lemma ClosedIsWritten(line: string)
    requires Closed(Feed(Start, line))
    ensures exists words, trail :: IsWritten(line, words, trail)
  {
    var r := FindWords(Start, line);
    var words := AsLine(r);
    assert IsWritten(line, words, r.trail);
  }

  /** A reading from the start of a line is the line. */
  lemma AsLine(r: Reading) returns (words: seq<Spaced>)
    requires Readable(r)
    ensures SayableLine(words) && WriteReading(r) == WriteLine(words) + r.trail
  {
    if r.word == [] {
      words := r.more;
      assert "" + (WriteLine(words) + r.trail) == WriteLine(words) + r.trail;
    } else {
      words := [Spaced("", r.word)] + r.more;
      FirstIsSayable(r.word, r.more);
      LineOn("", r.word, r.more, r.trail);
      Empty(WriteWord(r.word) + (WriteLine(r.more) + r.trail));
      Empty(WriteLine(words) + r.trail);
    }
  }

  lemma Empty(s: string)
    ensures "" + s == s
  {
  }

  lemma FirstIsSayable(word: seq<Piece>, more: seq<Spaced>)
    requires SayableWord(word) && SayableLine(more) && (more != [] ==> more[0].blanks != "")
    ensures SayableLine([Spaced("", word)] + more)
  {
  }

  // ----- the quoter -----

  /** strings.ReplaceAll with a one-character pattern. */
  function Replace(s: string, c: char, with: string): string {
    if s == "" then "" else (if s[0] == c then with else [s[0]]) + Replace(s[1..], c, with)
  }

  function ShellSingleQuote(value: string): string { "'" + Replace(value, '\'', "'\"'\"'") + "'" }

  /** The quoted value as pieces: single quotes around what holds none, and each quote in double ones. */
  function QuotedPieces(value: string): (p: seq<Piece>)
    ensures p != [] && p[0].Single?
  {
    if value == "" then [Single("")]
    else if value[0] == '\'' then [Single("")] + ([QuotedQuote] + QuotedPieces(value[1..]))
    else Grow(value[0], QuotedPieces(value[1..]))
  }

  const QuotedQuote := Double([Inner('\'', false)])

  /** One more character at the front of the first single-quoted piece. */
  function Grow(c: char, p: seq<Piece>): (q: seq<Piece>)
    requires p != [] && p[0].Single?
    ensures q != [] && q[0].Single?
  {
    [Single([c] + p[0].text)] + p[1..]
  }

  lemma ConsWord(p: Piece, word: seq<Piece>)
    ensures WriteWord([p] + word) == Write(p) + WriteWord(word)
    ensures WordMeans([p] + word) == Means(p) + WordMeans(word)
    ensures Sayable(p) && (forall i :: 0 <= i < |word| ==> Sayable(word[i])) ==> SayableWord([p] + word)
  {
    assert ([p] + word)[1..] == word;
  }

  lemma GrowMeans(c: char, p: seq<Piece>, tail: string)
    requires p != [] && p[0].Single? && SayableWord(p) && c != '\'' && WriteWord(p) == "'" + tail
    ensures SayableWord(Grow(c, p)) && WriteWord(Grow(c, p)) == "'" + ([c] + tail)
    ensures WordMeans(Grow(c, p)) == [c] + WordMeans(p)
  {
    ConsWord(Single([c] + p[0].text), p[1..]);
    Assoc([c], p[0].text, WordMeans(p[1..]));
    GrowText(c, p[0].text, WriteWord(p[1..]), tail);
  }

  lemma GrowText(c: char, text: string, rest: string, tail: string)
    requires "'" + text + "'" + rest == "'" + tail
    ensures "'" + ([c] + text) + "'" + rest == "'" + ([c] + tail)
  {
    assert tail == ("'" + tail)[1..] == ("'" + text + "'" + rest)[1..] == text + "'" + rest;
  }

  lemma QuoteMeans(p: seq<Piece>)
    requires SayableWord(p)
    ensures var q := [Single("")] + ([QuotedQuote] + p);
            SayableWord(q) && WriteWord(q) == "''" + ("\"'\"" + WriteWord(p)) && WordMeans(q) == "'" + WordMeans(p)
  {
    QuotedQuoteMeans();
    ConsWord(QuotedQuote, p);
    ConsWord(Single(""), [QuotedQuote] + p);
    assert "" + ("'" + WordMeans(p)) == "'" + WordMeans(p);
  }

  lemma QuotedQuoteMeans()
    ensures Sayable(QuotedQuote) && Write(QuotedQuote) == "\"'\"" && Means(QuotedQuote) == "'"
  {
    var one := [Inner('\'', false)];
    assert WriteInner(one[1..]) == "" && InnerMeans(one[1..]) == "";
  }

  lemma {:induction false} QuotedIsPieces(value: string)
    ensures var p := QuotedPieces(value);
            SayableWord(p) && WriteWord(p) == ShellSingleQuote(value) && WordMeans(p) == value
    decreases |value|
  {
    if value == "" {
      ConsWord(Single(""), []);
    } else {
      var rest := QuotedPieces(value[1..]);
      var tail := Replace(value[1..], '\'', "'\"'\"'") + "'";
      QuotedIsPieces(value[1..]);
      QuoteStarts(value, tail);
      if value[0] == '\'' { QuoteMeans(rest); } else { GrowMeans(value[0], rest, tail); }
    }
  }

  lemma QuoteStarts(value: string, tail: string)
    requires value != "" && tail == Replace(value[1..], '\'', "'\"'\"'") + "'"
    ensures ShellSingleQuote(value[1..]) == "'" + tail
    ensures ShellSingleQuote(value) ==
              if value[0] == '\'' then "''" + ("\"'\"" + ("'" + tail)) else "'" + ([value[0]] + tail)
  {
    var rest := Replace(value[1..], '\'', "'\"'\"'");
    Assoc("'", rest, "'");
    if value[0] == '\'' {
      assert Replace(value, '\'', "'\"'\"'") == "'\"'\"'" + rest;
      assert "'" + ("'\"'\"'" + rest) + "'" == "''" + ("\"'\"" + ("'" + (rest + "'")));
    } else {
      assert "'" + ([value[0]] + rest) + "'" == "'" + ([value[0]] + (rest + "'"));
    }
  }

  /** Quoted words, each behind its blanks. */
  function QuoteAll(blanks: seq<string>, words: seq<string>): string
    requires |blanks| == |words|
  {
    if words == [] then "" else blanks[0] + ShellSingleQuote(words[0]) + QuoteAll(blanks[1..], words[1..])
  }

  function SpacedQuotes(blanks: seq<string>, words: seq<string>): seq<Spaced>
    requires |blanks| == |words|
  {
    if words == [] then [] else [Spaced(blanks[0], QuotedPieces(words[0]))] + SpacedQuotes(blanks[1..], words[1..])
  }

  lemma {:induction false} QuotesAreSayable(blanks: seq<string>, words: seq<string>)
    requires |blanks| == |words| && forall i :: 0 <= i < |blanks| ==> AllBlank(blanks[i]) && (i > 0 ==> blanks[i] != "")
    ensures SayableLine(SpacedQuotes(blanks, words))
    ensures WriteLine(SpacedQuotes(blanks, words)) == QuoteAll(blanks, words)
    ensures LineMeans(SpacedQuotes(blanks, words)) == words
    decreases |words|
  {
    if words != [] {
      QuotedIsPieces(words[0]);
      QuotesAreSayable(blanks[1..], words[1..]);
      ConsLine(Spaced(blanks[0], QuotedPieces(words[0])), SpacedQuotes(blanks[1..], words[1..]));
      assert [words[0]] + words[1..] == words;
    }
  }

  lemma ConsLine(s: Spaced, line: seq<Spaced>)
    requires AllBlank(s.blanks) && SayableWord(s.word) && SayableLine(line) && (line != [] ==> line[0].blanks != "")
    ensures SayableLine([s] + line)
    ensures WriteLine([s] + line) == s.blanks + WriteWord(s.word) + WriteLine(line)
    ensures LineMeans([s] + line) == [WordMeans(s.word)] + LineMeans(line)
  {
    assert ([s] + line)[1..] == line;
  }

  /** Any list of words, the empty word and any character included, survives being quoted, put on a
      line with any blanks between, and split again. */
  lemma {:induction false} SplitInvertsQuote(blanks: seq<string>, words: seq<string>, trail: string)
    requires |blanks| == |words| && AllBlank(trail)
    requires forall i :: 0 <= i < |blanks| ==> AllBlank(blanks[i]) && (i > 0 ==> blanks[i] != "")
    ensures Split(QuoteAll(blanks, words) + trail) == words
  {
    QuotesAreSayable(blanks, words);
    SplitSaysWords(SpacedQuotes(blanks, words), trail);
  }
}
