/** The engines of the catalogue (controllers/database_engine.go): how each renders its settings. Redis
    takes them on a shell line, and its line says what the values say and nothing else. */
module DatabaseEngines {
  import opened Common
  import opened DatabaseParams
  import S = ShellWords

  function KeyEqualsValue(key: string, value: string): string { key + "=" + value }

  /** A server started with its flags, or as the image starts it when there are none. */
  function Server(program: string, flags: seq<string>): Command {
    if flags == [] then Command([], []) else Command([], [program] + flags)
  }

  const PostgresqlEngine :=
    Engine(Postgresql, (key, value) => ["-c", KeyEqualsValue(key, value)], flags => Server("postgres", flags))

  const MysqlEngine :=
    Engine(Mysql, (key, value) => ["--" + KeyEqualsValue(key, value)], flags => Server("mysqld", flags))

  const MongodbEngine :=
    Engine(Mongodb, (key, value) => ["--" + KeyEqualsValue(key, value)], flags => Server("mongod", flags))

  const RedisEngine := Engine(Redis, (key, value) => ["--" + key, value],
                              flags => Command(["sh", "-c", RedisLine(flags)], []))

  const RedisStart := "exec" + " redis-server" + " --requirepass" + " \"$REDIS_PASSWORD\"" + " --appendonly" + " yes"

  function RedisLine(flags: seq<string>): string {
    if flags == [] then RedisStart else RedisStart + " " + Join(flags, " ")
  }

  lemma EnginesAreSensible()
    ensures Sensible(PostgresqlEngine) && Sensible(MysqlEngine) && Sensible(MongodbEngine) && Sensible(RedisEngine)
  {
    CatalogueIsSensible(PostgresqlEngine);
    CatalogueIsSensible(MysqlEngine);
    CatalogueIsSensible(MongodbEngine);
    CatalogueIsSensible(RedisEngine);
  }

  /** How each engine is told a value, and what it is started with. */
  lemma ToldAs(key: string, value: string, flags: seq<string>)
    ensures PostgresqlEngine.flag(key, value) == ["-c", key + "=" + value]
    ensures MysqlEngine.flag(key, value) == MongodbEngine.flag(key, value) == ["--" + (key + "=" + value)]
    ensures RedisEngine.flag(key, value) == ["--" + key, value]
    ensures forall e :: e in {PostgresqlEngine, MysqlEngine, MongodbEngine} ==> e.run([]) == Command([], [])
    ensures flags != [] ==>
              && PostgresqlEngine.run(flags) == Command([], ["postgres"] + flags)
              && MysqlEngine.run(flags) == Command([], ["mysqld"] + flags)
              && MongodbEngine.run(flags) == Command([], ["mongod"] + flags)
    ensures RedisEngine.run(flags) == Command(["sh", "-c", RedisLine(flags)], [])
  {
  }

  // ----- a line of plain words -----

  /** Nothing in it means anything to a shell. */
  predicate IsPlainWord(w: string) { w != "" && forall i :: 0 <= i < |w| ==> IsPlain(w[i]) }

  predicate AllPlain(words: seq<string>) { forall i :: 0 <= i < |words| ==> IsPlainWord(words[i]) }

  function Bares(w: string): seq<S.Piece> {
    if w == "" then [] else [S.Bare(w[0])] + Bares(w[1..])
  }

  lemma {:induction false} BaresSay(w: string)
    ensures |Bares(w)| == |w| && forall i :: 0 <= i < |w| ==> Bares(w)[i] == S.Bare(w[i])
    ensures S.WriteWord(Bares(w)) == w && S.WordMeans(Bares(w)) == w
  {
    if w != "" {
      BaresSay(w[1..]);
      assert Bares(w)[1..] == Bares(w[1..]);
      assert [w[0]] + w[1..] == w;
    }
  }

  lemma PlainIsSayable(w: string)
    requires IsPlainWord(w)
    ensures S.SayableWord(Bares(w)) && S.WordMeans(Bares(w)) == w
    ensures S.WriteWord(Bares(w)) == w && "" + S.WriteWord(Bares(w)) == w
  {
    BaresSay(w);
    forall i | 0 <= i < |Bares(w)| ensures S.Sayable(Bares(w)[i]) { assert Bares(w)[i] == S.Bare(w[i]); }
  }

  /** Each word behind one blank. */
  function Spread(ws: seq<string>): seq<S.Spaced> {
    if ws == [] then [] else [S.Spaced(" ", Bares(ws[0]))] + Spread(ws[1..])
  }

  function Behind(ws: seq<string>): string {
    if ws == [] then "" else " " + ws[0] + Behind(ws[1..])
  }

  lemma {:induction false} SpreadSays(ws: seq<string>)
    requires AllPlain(ws)
    ensures S.SayableLine(Spread(ws)) && S.WriteLine(Spread(ws)) == Behind(ws) && S.LineMeans(Spread(ws)) == ws
    ensures ws != [] ==> Spread(ws)[0].blanks == " "
  {
    if ws != [] {
      SpreadSays(ws[1..]);
      PlainIsSayable(ws[0]);
      S.ConsLine(S.Spaced(" ", Bares(ws[0])), Spread(ws[1..]));
      assert [ws[0]] + ws[1..] == ws;
    }
  }

  lemma {:induction false} BehindJoins(ws: seq<string>)
    requires ws != []
    ensures Behind(ws) == " " + Join(ws, " ")
  {
    if |ws| == 1 {
      assert ws[1..] == [] && " " + ws[0] + "" == " " + ws[0];
    } else {
      BehindJoins(ws[1..]);
      Assoc(" ", ws[0], " " + Join(ws[1..], " "));
      Assoc(ws[0], " ", Join(ws[1..], " "));
    }
  }

  // ----- the line Redis is started with -----

  const Password := "$REDIS_PASSWORD"

  function Inners(w: string): seq<S.Inner> {
    if w == "" then [] else [S.Inner(w[0], false)] + Inners(w[1..])
  }

  lemma {:induction false} InnersSay(w: string)
    ensures |Inners(w)| == |w| && forall i :: 0 <= i < |w| ==> Inners(w)[i] == S.Inner(w[i], false)
    ensures S.WriteInner(Inners(w)) == w && S.InnerMeans(Inners(w)) == w
  {
    if w != "" {
      InnersSay(w[1..]);
      assert Inners(w)[1..] == Inners(w[1..]);
      assert [w[0]] + w[1..] == w;
    }
  }

  function Quoted(w: string): seq<S.Piece> { [S.Double(Inners(w))] }

  lemma QuotedSays(w: string)
    requires '"' !in w && '\\' !in w
    ensures S.SayableWord(Quoted(w)) && S.WriteWord(Quoted(w)) == "\"" + w + "\"" && S.WordMeans(Quoted(w)) == w
  {
    InnersSay(w);
    assert Quoted(w)[1..] == [];
    assert "\"" + w + "\"" + "" == "\"" + w + "\"" && w + "" == w;
  }

  const FixedWords: seq<string> := ["exec", "redis-server", "--requirepass", Password, "--appendonly", "yes"]

  function RedisWords(flags: seq<string>): seq<string> { FixedWords + flags }

  lemma FixedWordsArePlain()
    ensures IsPlainWord("exec") && IsPlainWord("redis-server") && IsPlainWord("--requirepass")
    ensures IsPlainWord("--appendonly") && IsPlainWord("yes")
  {
  }

  /** One more word before a line whose text and words are known. */
  lemma OneMore(word: seq<S.Piece>, means: string, blanks: string, written: string, line: seq<S.Spaced>, text: string,
                words: seq<string>)
    returns (more: seq<S.Spaced>)
    requires S.SayableWord(word) && S.WordMeans(word) == means && blanks + S.WriteWord(word) == written
    requires S.AllBlank(blanks)
    requires S.SayableLine(line) && (line != [] ==> line[0].blanks != "")
    requires S.WriteLine(line) == text && S.LineMeans(line) == words
    ensures S.SayableLine(more) && more != [] && more[0].blanks == blanks
    ensures S.WriteLine(more) == written + text && S.LineMeans(more) == [means] + words
  {
    more := [S.Spaced(blanks, word)] + line;
    S.ConsLine(S.Spaced(blanks, word), line);
  }

  /** One more plain word, a blank before it. */
  lemma OnePlain(w: string, written: string, line: seq<S.Spaced>, text: string, words: seq<string>)
      returns (more: seq<S.Spaced>)
    requires IsPlainWord(w) && " " + w == written
    requires S.SayableLine(line) && (line != [] ==> line[0].blanks != "")
    requires S.WriteLine(line) == text && S.LineMeans(line) == words
    ensures S.SayableLine(more) && more != [] && more[0].blanks == " "
    ensures S.WriteLine(more) == written + text && S.LineMeans(more) == [w] + words
  {
    PlainIsSayable(w);
    more := OneMore(Bares(w), w, " ", written, line, text, words);
  }

  /** Such a line, with a quoted word in it, splits into its words. */
  lemma SixWords(w0: string, w1: string, t1: string, w2: string, t2: string, p: string, t3: string,
                 w4: string, t4: string, w5: string, t5: string, flags: seq<string>)
    requires IsPlainWord(w0) && IsPlainWord(w1) && IsPlainWord(w2) && IsPlainWord(w4) && IsPlainWord(w5)
    requires AllPlain(flags)
    requires t1 == " " + w1 && t2 == " " + w2 && t3 == " " + ("\"" + p + "\"") && t4 == " " + w4 && t5 == " " + w5
    requires '"' !in p && '\\' !in p
    ensures S.Split(w0 + (t1 + (t2 + (t3 + (t4 + (t5 + Behind(flags))))))) ==
              [w0] + ([w1] + ([w2] + ([p] + ([w4] + ([w5] + flags)))))
  {
    SpreadSays(flags);
    var l5 := OnePlain(w5, t5, Spread(flags), Behind(flags), flags);
    var l4 := OnePlain(w4, t4, l5, t5 + Behind(flags), [w5] + flags);
    QuotedSays(p);
    var l3 := OneMore(Quoted(p), p, " ", t3, l4, t4 + (t5 + Behind(flags)), [w4] + ([w5] + flags));
    var l2 := OnePlain(w2, t2, l3, t3 + (t4 + (t5 + Behind(flags))), [p] + ([w4] + ([w5] + flags)));
    var l1 := OnePlain(w1, t1, l2, t2 + (t3 + (t4 + (t5 + Behind(flags)))), [w2] + ([p] + ([w4] + ([w5] + flags))));
    FirstOfLine(w0, l1, t1 + (t2 + (t3 + (t4 + (t5 + Behind(flags))))),
                [w1] + ([w2] + ([p] + ([w4] + ([w5] + flags)))));
  }

  lemma FirstOfLine(w: string, line: seq<S.Spaced>, text: string, words: seq<string>)
    requires IsPlainWord(w) && S.SayableLine(line) && line != [] && line[0].blanks == " "
    requires S.WriteLine(line) == text && S.LineMeans(line) == words
    ensures S.Split(w + text) == [w] + words
  {
    PlainIsSayable(w);
    var all := OneMore(Bares(w), w, "", w, line, text, words);
    S.LineSplits(all);
  }

  /** The line splits into its fixed words and then exactly the flags. */
  lemma RedisLineSplits(flags: seq<string>)
    requires AllPlain(flags)
    ensures S.Split(RedisLine(flags)) == RedisWords(flags)
  {
    FixedWordsArePlain();
    PasswordIsPlain();
    FixedWordsSpelled();
    RedisLineIs(flags);
    SixWords("exec", "redis-server", " redis-server", "--requirepass", " --requirepass",
             Password, " \"$REDIS_PASSWORD\"", "--appendonly", " --appendonly", "yes", " yes", flags);
    Regroup("exec", " redis-server", " --requirepass", " \"$REDIS_PASSWORD\"", " --appendonly", " yes", Behind(flags));
    RegroupWords("exec", "redis-server", "--requirepass", Password, "--appendonly", "yes", flags);
  }

  lemma PasswordIsPlain()
    ensures '"' !in Password && '\\' !in Password
    ensures " " + ("\"" + Password + "\"") == " \"$REDIS_PASSWORD\""
  {
  }

  lemma FixedWordsSpelled()
    ensures " " + "redis-server" == " redis-server" && " " + "--requirepass" == " --requirepass"
    ensures " " + "--appendonly" == " --appendonly" && " " + "yes" == " yes"
  {
  }

  lemma Regroup(a: string, b: string, c: string, d: string, e: string, f: string, g: string)
    ensures a + b + c + d + e + f + g == a + (b + (c + (d + (e + (f + g)))))
  {
    Assoc(a + b + c + d + e, f, g);
    Assoc(a + b + c + d, e, f + g);
    Assoc(a + b + c, d, e + (f + g));
    Assoc(a + b, c, d + (e + (f + g)));
    Assoc(a, b, c + (d + (e + (f + g))));
  }

  lemma RegroupWords(a: string, b: string, c: string, d: string, e: string, f: string, flags: seq<string>)
    ensures [a] + ([b] + ([c] + ([d] + ([e] + ([f] + flags))))) == [a, b, c, d, e, f] + flags
  {
  }

  lemma RedisLineIs(flags: seq<string>)
    ensures RedisLine(flags) == RedisStart + Behind(flags)
  {
    if flags == [] {
      assert RedisStart + "" == RedisStart;
    } else {
      BehindJoins(flags);
      Assoc(RedisStart, " ", Join(flags, " "));
    }
  }

  // ----- whatever was asked for -----

  lemma PlainKey(key: string)
    requires forall i :: 0 <= i < |key| ==> IsPlain(key[i])
    ensures IsPlainWord("--" + key)
  {
  }

  lemma KeysArePlain()
    ensures forall i :: 0 <= i < |Redis| ==> forall k :: 0 <= k < |Redis[i].key| ==> IsPlain(Redis[i].key[k])
  {
  }

  lemma {:induction false} FlagsArePlain(params: seq<Param>, values: map<string, string>)
    requires forall i :: 0 <= i < |params| ==> Valid(params[i], Effective(params[i], values))
    requires forall i :: 0 <= i < |params| ==> IsPlainWord("--" + params[i].key)
    ensures AllPlain(Flags(RedisEngine, params, values))
    decreases |params|
  {
    if params != [] {
      var (p, rest) := (params[|params| - 1], params[..|params| - 1]);
      FlagsArePlain(rest, values);
      assert IsPlainWord(Effective(p, values));
      assert RedisEngine.flag(p.key, Effective(p, values)) == ["--" + p.key, Effective(p, values)];
    }
  }

  /** Over any run of calls, the shell line Redis is started with holds, besides its fixed words, the
      flags of the stored values word for word: no value asked for ever means anything to the shell. */
  lemma RedisRunsWhatIsStored(dbs: seq<Db>, i: nat)
    requires IsRun(RedisEngine, dbs) && i < |dbs|
    ensures var flags := Flags(RedisEngine, Redis, dbs[i].stored);
            && dbs[i].command == Command(["sh", "-c", RedisLine(flags)], [])
            && S.Split(RedisLine(flags)) == RedisWords(flags)
            && AllPlain(flags)
  {
    EnginesAreSensible();
    RunExplained(RedisEngine, dbs, i);
    ExplainedIsPlain(dbs[i]);
    RedisLineSplits(Flags(RedisEngine, Redis, dbs[i].stored));
  }

  lemma ExplainedIsPlain(db: Db)
    requires Inv(RedisEngine, db)
    ensures AllPlain(Flags(RedisEngine, Redis, db.stored))
  {
    KeysArePlain();
    forall k | 0 <= k < |Redis| ensures IsPlainWord("--" + Redis[k].key) { PlainKey(Redis[k].key); }
    FlagsArePlain(Redis, db.stored);
  }

  /** So the line tells the flags. */
  lemma RedisLineTellsFlags(a: seq<string>, b: seq<string>)
    requires AllPlain(a) && AllPlain(b)
    requires RedisLine(a) == RedisLine(b)
    ensures a == b
  {
    RedisLineSplits(a);
    RedisLineSplits(b);
    assert RedisWords(a)[6..] == a && RedisWords(b)[6..] == b;
  }
}
