/** Tuning a database: the values kept, the command they are rendered into, and the history of
    changes (ConfigureDatabase in controllers/database_params.go, validate and applyDatabaseParams
    in controllers/database_engine.go). The two JSON annotations are the values they encode. */
module DatabaseParams {
  import opened Common

  datatype Kind = Whole | Size | Choice | Free

  datatype Param = Param(key: string, kind: Kind, initial: string, options: seq<string>)

  datatype Command = Command(command: seq<string>, args: seq<string>)

  /** An engine: its parameters, how it renders one, and how it makes a command of the flags. */
  datatype Engine = Engine(params: seq<Param>, flag: (string, string) -> seq<string>, run: seq<string> -> Command)

  datatype Change = Change(key: string, before: string, after: string)

  datatype Entry = Entry(at: string, changes: seq<Change>)

  datatype Db = Db(stored: map<string, string>, history: seq<Entry>, command: Command)

  datatype Result = Rejected | Changed(count: nat)

  const HistoryLimit := 20

  // ----- what a value may look like -----

  predicate IsDigit(c: char) { '0' <= c <= '9' }
  predicate IsLetter(c: char) { 'a' <= c <= 'z' || 'A' <= c <= 'Z' }
  predicate IsPlain(c: char) { IsDigit(c) || IsLetter(c) || c == '_' || c == '.' || c == '-' }

  predicate AllLetters(s: string) { forall i :: 0 <= i < |s| ==> IsLetter(s[i]) }

  /** -?[0-9A-Za-z_.-]{1,32} */
  predicate MatchesPattern(v: string) {
    && (forall i :: 0 <= i < |v| ==> IsPlain(v[i]))
    && (1 <= |v| <= 32 || (|v| == 33 && v[0] == '-'))
  }

  /** strconv.Atoi accepts it: digits behind an optional sign, within 64 bits. */
  predicate IsWhole(v: string) {
    var negative := v != "" && v[0] == '-';
    var digits := if v != "" && (v[0] == '-' || v[0] == '+') then v[1..] else v;
    && digits != "" && AllDigits(digits)
    && NumberOf(digits) <= if negative then 0x8000_0000_0000_0000 else 0x7fff_ffff_ffff_ffff
  }

  /** [0-9]+[A-Za-z]{0,2} */
  predicate IsSize(v: string) {
    exists n :: 0 < n <= |v| && AllDigits(v[..n]) && AllLetters(v[n..]) && |v| - n <= 2
  }

  predicate Valid(p: Param, v: string) {
    && MatchesPattern(v)
    && match p.kind
       case Whole => IsWhole(v)
       case Size => IsSize(v)
       case Choice => v in p.options
       case Free => true
  }

  /** The catalogue describes sensible engines: no key twice, and every default a valid value. */
  ghost predicate Sensible(e: Engine) { SensibleParams(e.params) }

  ghost predicate SensibleParams(params: seq<Param>) {
    && (forall i, j :: 0 <= i < j < |params| ==> params[i].key != params[j].key)
    && (forall i :: 0 <= i < |params| ==> Valid(params[i], params[i].initial))
  }

  // ----- one call -----

  function Effective(p: Param, values: map<string, string>): string {
    if p.key in values && values[p.key] != "" then values[p.key] else p.initial
  }

  /** A value left out, or left empty, asks for the default. */
  function Requested(p: Param, asked: map<string, string>): string { Effective(p, asked) }

  function NextValues(params: seq<Param>, asked: map<string, string>): map<string, string> {
    if params == [] then map[]
    else
      var (p, rest) := (params[|params| - 1], NextValues(params[..|params| - 1], asked));
      if Requested(p, asked) == p.initial then rest else rest[p.key := Requested(p, asked)]
  }

  function ChangesOf(params: seq<Param>, previous: map<string, string>, asked: map<string, string>): seq<Change> {
    if params == [] then []
    else
      var (p, rest) := (params[|params| - 1], ChangesOf(params[..|params| - 1], previous, asked));
      var (before, after) := (Effective(p, previous), Requested(p, asked));
      if before == after then rest else rest + [Change(p.key, before, after)]
  }

  predicate AllValid(params: seq<Param>, asked: map<string, string>) {
    forall i :: 0 <= i < |params| ==> Valid(params[i], Requested(params[i], asked))
  }

  function Flags(e: Engine, params: seq<Param>, values: map<string, string>): seq<string> {
    if params == [] then []
    else
      var (p, rest) := (params[|params| - 1], Flags(e, params[..|params| - 1], values));
      if Effective(p, values) == p.initial then rest else rest + e.flag(p.key, Effective(p, values))
  }

  function Rendered(e: Engine, values: map<string, string>): Command { e.run(Flags(e, e.params, values)) }

  function Newest(history: seq<Entry>): seq<Entry> {
    if |history| > HistoryLimit then history[..HistoryLimit] else history
  }

  function Configured(e: Engine, db: Db, asked: map<string, string>, at: string): Db {
    var next := NextValues(e.params, asked);
    Db(next, Newest([Entry(at, ChangesOf(e.params, db.stored, asked))] + db.history), Rendered(e, next))
  }

  class Database {
    var stored: map<string, string>
    var history: seq<Entry>
    var command: Command

    /** A database nobody has tuned. */
    constructor (e: Engine)
      ensures View() == Db(map[], [], e.run([]))
    {
      stored, history, command := map[], [], e.run([]);
    }

    ghost function View(): Db
      reads this
    {
      Db(stored, history, command)
    }

    /** ConfigureDatabase; at is the clock, saves whether saving the object works. */
    method ConfigureDatabase(e: Engine, asked: map<string, string>, at: string, saves: bool) returns (r: Result)
      requires Sensible(e)
      modifies this
      ensures var changes := ChangesOf(e.params, old(stored), asked);
              && (r == Rejected <==> !AllValid(e.params, asked) || (changes != [] && !saves))
              && (r.Changed? ==> r.count == |changes|)
              && View() == if r.Changed? && changes != [] then Configured(e, old(View()), asked, at) else old(View())
    {
      var valid, next, changes := Plan(e.params, stored, asked);
      if !valid { return Rejected; }
      if changes == [] { return Changed(0); }
      NextIsRenderable(e, asked);
      var ok, rendered := ApplyDatabaseParams(e, next);
      if !ok { return Rejected; }
      var grown := [Entry(at, changes)] + history;
      if !saves { return Rejected; }
      stored, command := next, rendered;
      history := if |grown| > HistoryLimit then grown[..HistoryLimit] else grown;
      return Changed(|changes|);
    }

    /** The values to store and the changes they make, unless a value asked for is no good. */
    static method Plan(params: seq<Param>, previous: map<string, string>, asked: map<string, string>)
      returns (valid: bool, next: map<string, string>, changes: seq<Change>)
      ensures valid <==> AllValid(params, asked)
      ensures valid ==> next == NextValues(params, asked) && changes == ChangesOf(params, previous, asked)
    {
      next, changes := map[], [];
      for i := 0 to |params|
        invariant next == NextValues(params[..i], asked) && changes == ChangesOf(params[..i], previous, asked)
        invariant AllValid(params[..i], asked)
      {
        var param := params[i];
        OneMore(params, previous, asked, i);
        var value := if param.key in asked && asked[param.key] != "" then asked[param.key] else param.initial;
        if !Valid(param, value) { return false, next, changes; }
        if value != param.initial { next := next[param.key := value]; }
        var before := Effective(param, previous);
        if before != value { changes := changes + [Change(param.key, before, value)]; }
      }
      assert params[..|params|] == params;
      return true, next, changes;
    }

    /** The flags of every value that is not the default, in the engine's order; each is checked. */
    static method ApplyDatabaseParams(e: Engine, values: map<string, string>) returns (ok: bool, c: Command)
      ensures ok <==> AllRenderable(e.params, values)
      ensures ok ==> c == Rendered(e, values)
    {
      var flags: seq<string> := [];
      for i := 0 to |e.params|
        invariant flags == Flags(e, e.params[..i], values) && AllRenderable(e.params[..i], values)
      {
        var param := e.params[i];
        FlagsNext(e, values, i);
        if param.key !in values || values[param.key] == "" || values[param.key] == param.initial { continue; }
        if !Valid(param, values[param.key]) { return false, Command([], []); }
        flags := flags + e.flag(param.key, values[param.key]);
      }
      assert e.params[..|e.params|] == e.params;
      return true, e.run(flags);
    }
  }

  /** Every value that would be rendered is a good one. */
  ghost predicate AllRenderable(params: seq<Param>, values: map<string, string>) {
    forall i :: 0 <= i < |params| ==> Renderable(params[i], values)
  }

  predicate Renderable(p: Param, values: map<string, string>) {
    Effective(p, values) == p.initial || Valid(p, Effective(p, values))
  }

  lemma FlagsNext(e: Engine, values: map<string, string>, i: nat)
    requires i < |e.params|
    ensures var (p, rest) := (e.params[i], Flags(e, e.params[..i], values));
            && Flags(e, e.params[..i + 1], values) ==
                 (if Effective(p, values) == p.initial then rest else rest + e.flag(p.key, Effective(p, values)))
            && (AllRenderable(e.params[..i + 1], values) <==>
                  AllRenderable(e.params[..i], values) && Renderable(p, values))
            && (AllRenderable(e.params, values) ==> Renderable(p, values))
  {
    assert e.params[..i + 1][..i] == e.params[..i] && e.params[..i + 1][i] == e.params[i];
  }

  /** What was just checked passes the check again. */
  lemma NextIsRenderable(e: Engine, asked: map<string, string>)
    requires Sensible(e) && AllValid(e.params, asked)
    ensures AllRenderable(e.params, NextValues(e.params, asked))
  {
    forall i | 0 <= i < |e.params|
      ensures Renderable(e.params[i], NextValues(e.params, asked))
    {
      AskedIsEffective(e, asked, i);
    }
  }

  lemma OneMore(params: seq<Param>, previous: map<string, string>, asked: map<string, string>, i: nat)
    requires i < |params|
    ensures var (p, next, changes) := (params[i], NextValues(params[..i], asked),
                                       ChangesOf(params[..i], previous, asked));
            var (before, after) := (Effective(p, previous), Requested(p, asked));
            && NextValues(params[..i + 1], asked) == (if after == p.initial then next else next[p.key := after])
            && ChangesOf(params[..i + 1], previous, asked) ==
                 (if before == after then changes else changes + [Change(p.key, before, after)])
            && (AllValid(params[..i + 1], asked) <==> AllValid(params[..i], asked) && Valid(p, after))
            && (AllValid(params, asked) ==> AllValid(params[..i + 1], asked))
  {
    assert params[..i + 1][..i] == params[..i] && params[..i + 1][i] == params[i];
  }

  // ----- what is asked for is what is then in effect -----

  lemma {:induction false} NextValuesAre(params: seq<Param>, asked: map<string, string>, k: string)
    requires forall i, j :: 0 <= i < j < |params| ==> params[i].key != params[j].key
    ensures var next := NextValues(params, asked);
            k in next <==>
              exists i :: 0 <= i < |params| && params[i].key == k && Requested(params[i], asked) != params[i].initial
    ensures forall i | 0 <= i < |params| && params[i].key == k && k in NextValues(params, asked) ::
              NextValues(params, asked)[k] == Requested(params[i], asked)
    decreases |params|
  {
    if params != [] {
      var n := |params| - 1;
      NextValuesAre(params[..n], asked, k);
      assert forall i :: 0 <= i < n ==> params[..n][i] == params[i];
    }
  }

  lemma AskedIsEffective(e: Engine, asked: map<string, string>, i: nat)
    requires Sensible(e) && i < |e.params|
    ensures Effective(e.params[i], NextValues(e.params, asked)) == Requested(e.params[i], asked)
  {
    NextValuesAre(e.params, asked, e.params[i].key);
  }

  /** What one call stores: of the values asked for those that are not empty and not the default. */
  lemma StoredAre(e: Engine, db: Db, asked: map<string, string>, at: string, k: string)
    requires Sensible(e)
    ensures var stored := Configured(e, db, asked, at).stored;
            && (k in stored <==> k in asked && asked[k] != ""
                                 && exists i :: 0 <= i < |e.params| && e.params[i].key == k
                                                   && asked[k] != e.params[i].initial)
            && (k in stored ==> stored[k] == asked[k])
  {
    NextValuesAre(e.params, asked, k);
  }

  /** The value in effect: the one stored, or the default. */
  function InEffect(p: Param, stored: map<string, string>): string {
    if p.key !in stored || stored[p.key] == "" then p.initial else stored[p.key]
  }

  /** The changes are those of the parameters at these places, each from its value in effect to the one
      asked for, in order. */
  ghost predicate ChangesAt(params: seq<Param>, stored: map<string, string>, asked: map<string, string>,
                            changes: seq<Change>, places: seq<nat>) {
    && |places| == |changes|
    && (forall i, j :: 0 <= i < j < |places| ==> places[i] < places[j])
    && (forall i :: 0 <= i < |places| ==>
          places[i] < |params| && changes[i] == ChangeOf(params[places[i]], stored, asked))
  }

  function ChangeOf(p: Param, stored: map<string, string>, asked: map<string, string>): Change {
    Change(p.key, InEffect(p, stored), InEffect(p, asked))
  }

  /** The changes of one call are those of the parameters whose value in effect is not the one asked for. */
  lemma {:induction false} ChangesAre(params: seq<Param>, stored: map<string, string>, asked: map<string, string>)
      returns (places: seq<nat>)
    ensures ChangesAt(params, stored, asked, ChangesOf(params, stored, asked), places)
    ensures forall k :: 0 <= k < |params| ==>
              (k in places <==> InEffect(params[k], stored) != InEffect(params[k], asked))
    decreases |params|
  {
    if params == [] {
      places := [];
    } else {
      var (n, some) := (|params| - 1, params[..|params| - 1]);
      var before := ChangesAre(some, stored, asked);
      OneMoreChange(params, stored, asked, ChangesOf(some, stored, asked), before);
      places := if InEffect(params[n], stored) == InEffect(params[n], asked) then before else before + [n];
      OneMorePlace(params, stored, asked, some, before, places);
    }
  }

  lemma OneMorePlace(params: seq<Param>, stored: map<string, string>, asked: map<string, string>, some: seq<Param>,
                     before: seq<nat>, places: seq<nat>)
    requires params != [] && some == params[..|params| - 1] && |params| - 1 !in before
    requires forall k :: 0 <= k < |some| ==> (k in before <==> InEffect(some[k], stored) != InEffect(some[k], asked))
    requires var n := |params| - 1;
             places == if InEffect(params[n], stored) == InEffect(params[n], asked) then before else before + [n]
    ensures forall k :: 0 <= k < |params| ==>
              (k in places <==> InEffect(params[k], stored) != InEffect(params[k], asked))
  {
    forall k | 0 <= k < |some| ensures k in places <==> InEffect(params[k], stored) != InEffect(params[k], asked) {
      assert some[k] == params[k];
    }
  }

  lemma OneMoreChange(params: seq<Param>, stored: map<string, string>, asked: map<string, string>,
                      changes: seq<Change>, places: seq<nat>)
    requires params != [] && ChangesAt(params[..|params| - 1], stored, asked, changes, places)
    ensures var n := |params| - 1;
            && ChangesAt(params, stored, asked, changes, places) && n !in places
            && ChangesAt(params, stored, asked, changes + [ChangeOf(params[n], stored, asked)], places + [n])
  {
  }

  /** A command renders every value that is the default or valid. */
  lemma RenderableIff(p: Param, stored: map<string, string>)
    ensures Renderable(p, stored) <==> InEffect(p, stored) == p.initial || Valid(p, InEffect(p, stored))
  {
  }

  /** The history gains the call's changes in front, and holds at most twenty entries. */
  lemma HistoryIs(e: Engine, db: Db, asked: map<string, string>, at: string)
    ensures var now := Configured(e, db, asked, at).history;
            && |now| == (if |db.history| < 20 then |db.history| + 1 else 20)
            && now[0] == Entry(at, ChangesOf(e.params, db.stored, asked))
            && forall i :: 1 <= i < |now| ==> now[i] == db.history[i - 1]
  {
  }

  /** The flags are those of the values that are not the default, in the order of the parameters. */
  lemma {:induction false} FlagsAre(e: Engine, n: nat, stored: map<string, string>)
    requires n <= |e.params|
    ensures n > 0 ==>
              var p := e.params[n - 1];
              Flags(e, e.params[..n], stored) ==
                Flags(e, e.params[..n - 1], stored) +
                if InEffect(p, stored) == p.initial then [] else e.flag(p.key, InEffect(p, stored))
    ensures n == 0 ==> Flags(e, e.params[..n], stored) == []
    ensures Rendered(e, stored) == e.run(Flags(e, e.params, stored))
  {
    if n > 0 { FlagsNext(e, stored, n - 1); }
  }

  /** The value of a key before the oldest change of it the history holds, newest entry first. */
  function Origin(history: seq<Entry>, key: string, current: string): string {
    if history == [] then current
    else Origin(history[1..], key,
                match ChangeIn(history[0].changes, key) case None => current case Some(c) => c.before)
  }

  function ChangeIn(changes: seq<Change>, key: string): Option<Change> {
    if changes == [] then None
    else if changes[|changes| - 1].key == key then Some(changes[|changes| - 1])
    else ChangeIn(changes[..|changes| - 1], key)
  }

  /** Read from the newest entry back, the changes of the key lead to its current value, each from
      where the one before it left off. */
  ghost predicate Chains(history: seq<Entry>, key: string, current: string) {
    history != [] ==>
      match ChangeIn(history[0].changes, key)
      case None => Chains(history[1..], key, current)
      case Some(c) => c.after == current && c.before != c.after && Chains(history[1..], key, c.before)
  }

  ghost predicate Inv(e: Engine, db: Db) {
    && db.command == Rendered(e, db.stored)
    && (forall i :: 0 <= i < |e.params| ==> Valid(e.params[i], Effective(e.params[i], db.stored)))
    && |db.history| <= HistoryLimit
    && (forall i :: 0 <= i < |db.history| ==>
          db.history[i].changes != [] && RealChanges(e.params, db.history[i].changes))
    && (forall i :: 0 <= i < |e.params| ==> Traced(e.params[i], db))
  }

  predicate IsKey(params: seq<Param>, key: string) { exists i :: 0 <= i < |params| && params[i].key == key }

  /** Each is a change, of a parameter there is, and no parameter is changed twice. */
  ghost predicate RealChanges(params: seq<Param>, changes: seq<Change>) {
    && (forall i :: 0 <= i < |changes| ==> changes[i].before != changes[i].after && IsKey(params, changes[i].key))
    && (forall i, j :: 0 <= i < j < |changes| ==> changes[i].key != changes[j].key)
  }

  lemma {:induction false} ChangesAreReal(params: seq<Param>, previous: map<string, string>, asked: map<string, string>)
    requires forall a, b :: 0 <= a < b < |params| ==> params[a].key != params[b].key
    ensures RealChanges(params, ChangesOf(params, previous, asked))
    decreases |params|
  {
    if params != [] {
      var n := |params| - 1;
      var rest := ChangesOf(params[..n], previous, asked);
      ChangesAreReal(params[..n], previous, asked);
      forall i | 0 <= i < |rest| ensures IsKey(params, rest[i].key) && rest[i].key != params[n].key {
        var k :| 0 <= k < n && params[..n][k].key == rest[i].key;
        assert params[k].key == rest[i].key;
      }
      assert IsKey(params, params[n].key);
    }
  }

  /** The history explains the value in effect; while it is short, all the way from the default. */
  ghost predicate Traced(p: Param, db: Db) {
    && Chains(db.history, p.key, Effective(p, db.stored))
    && (|db.history| < HistoryLimit ==> Origin(db.history, p.key, Effective(p, db.stored)) == p.initial)
  }

  lemma {:induction false} ChangeOfKey(params: seq<Param>, previous: map<string, string>, asked: map<string, string>,
                                       i: nat)
    requires i < |params| && forall a, b :: 0 <= a < b < |params| ==> params[a].key != params[b].key
    ensures var (before, after) := (Effective(params[i], previous), Requested(params[i], asked));
            ChangeIn(ChangesOf(params, previous, asked), params[i].key) ==
              if before == after then None else Some(Change(params[i].key, before, after))
    decreases |params|
  {
    var n := |params| - 1;
    var rest := ChangesOf(params[..n], previous, asked);
    var p := params[n];
    var mine := Change(p.key, Effective(p, previous), Requested(p, asked));
    assert (rest + [mine])[..|rest|] == rest && (rest + [mine])[|rest|] == mine;
    if i < n { ChangeOfKey(params[..n], previous, asked, i); }
    else { NoChangeOf(params[..n], previous, asked, p.key); }
  }

  lemma {:induction false} NoChangeOf(params: seq<Param>, previous: map<string, string>, asked: map<string, string>,
                                      key: string)
    requires forall a :: 0 <= a < |params| ==> params[a].key != key
    ensures ChangeIn(ChangesOf(params, previous, asked), key) == None
    decreases |params|
  {
    if params != [] {
      var n := |params| - 1;
      var rest := ChangesOf(params[..n], previous, asked);
      var mine := Change(params[n].key, Effective(params[n], previous), Requested(params[n], asked));
      assert (rest + [mine])[..|rest|] == rest && (rest + [mine])[|rest|] == mine;
      NoChangeOf(params[..n], previous, asked, key);
    }
  }

  lemma {:induction false} ChainsPrefix(history: seq<Entry>, n: nat, key: string, current: string)
    requires n <= |history| && Chains(history, key, current)
    ensures Chains(history[..n], key, current)
    decreases n
  {
    if n > 0 {
      assert history[..n][1..] == history[1..][..n - 1];
      match ChangeIn(history[0].changes, key)
      case None => ChainsPrefix(history[1..], n - 1, key, current);
      case Some(c) => ChainsPrefix(history[1..], n - 1, key, c.before);
    }
  }

  lemma ConfigureTraces(e: Engine, db: Db, asked: map<string, string>, at: string, i: nat)
    requires Sensible(e) && Inv(e, db) && i < |e.params|
    ensures Traced(e.params[i], Configured(e, db, asked, at))
  {
    var (p, t) := (e.params[i], Configured(e, db, asked, at));
    var entry := Entry(at, ChangesOf(e.params, db.stored, asked));
    var grown := [entry] + db.history;
    assert Traced(p, db);
    assert grown[1..] == db.history;
    AskedIsEffective(e, asked, i);
    ChangeOfKey(e.params, db.stored, asked, i);
    assert Chains(grown, p.key, Effective(p, t.stored));
    assert Origin(grown, p.key, Effective(p, t.stored)) == Origin(db.history, p.key, Effective(p, db.stored));
    if |grown| > HistoryLimit { ChainsPrefix(grown, HistoryLimit, p.key, Effective(p, t.stored)); }
  }

  lemma ConfigureKeepsInv(e: Engine, db: Db, asked: map<string, string>, at: string)
    requires Sensible(e) && Inv(e, db) && AllValid(e.params, asked) && ChangesOf(e.params, db.stored, asked) != []
    ensures Inv(e, Configured(e, db, asked, at))
  {
    var t := Configured(e, db, asked, at);
    forall i | 0 <= i < |e.params|
      ensures Traced(e.params[i], t) && Valid(e.params[i], Effective(e.params[i], t.stored))
    {
      ConfigureTraces(e, db, asked, at, i);
      AskedIsEffective(e, asked, i);
    }
    ChangesAreReal(e.params, db.stored, asked);
    EntriesStayReal(e.params, Entry(at, ChangesOf(e.params, db.stored, asked)), db.history);
  }

  lemma EntriesStayReal(params: seq<Param>, entry: Entry, history: seq<Entry>)
    requires entry.changes != [] && RealChanges(params, entry.changes)
    requires forall i :: 0 <= i < |history| ==> history[i].changes != [] && RealChanges(params, history[i].changes)
    ensures var now := Newest([entry] + history);
            forall i :: 0 <= i < |now| ==> now[i].changes != [] && RealChanges(params, now[i].changes)
  {
    var now := Newest([entry] + history);
    forall i | 0 <= i < |now| ensures now[i].changes != [] && RealChanges(params, now[i].changes) {
      assert now[i] == if i == 0 then entry else history[i - 1];
    }
  }

  lemma {:induction false} UntunedFlags(e: Engine, params: seq<Param>)
    ensures Flags(e, params, map[]) == []
    decreases |params|
  {
    if params != [] { UntunedFlags(e, params[..|params| - 1]); }
  }

  /** One call as ConfigureDatabase promises it, a failed one included. */
  ghost predicate Step(e: Engine, db: Db, t: Db) {
    t == db || exists asked, at ::
      AllValid(e.params, asked) && ChangesOf(e.params, db.stored, asked) != [] && t == Configured(e, db, asked, at)
  }

  ghost predicate IsRun(e: Engine, dbs: seq<Db>) {
    && dbs != [] && dbs[0] == Db(map[], [], e.run([]))
    && forall i {:trigger Step(e, dbs[i - 1], dbs[i])} :: 0 < i < |dbs| ==> Step(e, dbs[i - 1], dbs[i])
  }

  /** Over any run of calls: the command is the rendering of the stored values, the history has at
      most 20 entries, none empty, and it explains every value in effect, change by change. */
  lemma {:induction false} RunExplained(e: Engine, dbs: seq<Db>, i: nat)
    requires Sensible(e) && IsRun(e, dbs) && i < |dbs|
    ensures Inv(e, dbs[i])
  {
    if i == 0 {
      UntunedFlags(e, e.params);
    } else {
      RunExplained(e, dbs, i - 1);
      assert Step(e, dbs[i - 1], dbs[i]);
      if dbs[i] != dbs[i - 1] {
        var asked, at :| AllValid(e.params, asked) && ChangesOf(e.params, dbs[i - 1].stored, asked) != []
                         && dbs[i] == Configured(e, dbs[i - 1], asked, at);
        ConfigureKeepsInv(e, dbs[i - 1], asked, at);
      }
    }
  }

  /** The newest change the history holds of a key is what put its current value in effect. */
  lemma {:induction false} EffectiveIsNewestChange(history: seq<Entry>, key: string, current: string, n: nat)
    requires Chains(history, key, current) && n < |history| && ChangeIn(history[n].changes, key).Some?
    requires forall m :: 0 <= m < n ==> ChangeIn(history[m].changes, key).None?
    ensures ChangeIn(history[n].changes, key).value.after == current
    decreases n
  {
    if n > 0 {
      assert history[1..][n - 1] == history[n];
      assert forall m :: 0 <= m < n - 1 ==> history[1..][m] == history[m + 1];
      assert ChangeIn(history[0].changes, key).None?;
      EffectiveIsNewestChange(history[1..], key, current, n - 1);
    }
  }

  // ----- sending back what was read -----

  /** The values GetDatabaseParams answers. */
  function ValuesRead(params: seq<Param>, stored: map<string, string>): map<string, string> {
    if params == [] then map[]
    else
      var p := params[|params| - 1];
      ValuesRead(params[..|params| - 1], stored)[p.key := Effective(p, stored)]
  }

  lemma {:induction false} ValuesReadAre(params: seq<Param>, stored: map<string, string>, i: nat)
    requires i < |params| && forall a, b :: 0 <= a < b < |params| ==> params[a].key != params[b].key
    ensures var v := ValuesRead(params, stored); params[i].key in v && v[params[i].key] == Effective(params[i], stored)
    decreases |params|
  {
    if i < |params| - 1 { ValuesReadAre(params[..|params| - 1], stored, i); }
  }

  lemma {:induction false} NoChanges(params: seq<Param>, previous: map<string, string>, asked: map<string, string>)
    requires forall i :: 0 <= i < |params| ==> Requested(params[i], asked) == Effective(params[i], previous)
    ensures ChangesOf(params, previous, asked) == []
    decreases |params|
  {
    if params != [] { NoChanges(params[..|params| - 1], previous, asked); }
  }

  /** Sending back the values read is valid and changes nothing. */
  lemma ReadBackChangesNothing(e: Engine, db: Db)
    requires Sensible(e) && Inv(e, db)
    ensures AllValid(e.params, ValuesRead(e.params, db.stored))
    ensures ChangesOf(e.params, db.stored, ValuesRead(e.params, db.stored)) == []
  {
    var asked := ValuesRead(e.params, db.stored);
    forall i | 0 <= i < |e.params| ensures Requested(e.params[i], asked) == Effective(e.params[i], db.stored) {
      ValuesReadAre(e.params, db.stored, i);
      assert Valid(e.params[i], Effective(e.params[i], db.stored));
    }
    NoChanges(e.params, db.stored, asked);
  }

  /** Asking twice for the same values changes nothing the second time. */
  lemma AskingAgainChangesNothing(e: Engine, db: Db, asked: map<string, string>, at: string)
    requires Sensible(e)
    ensures ChangesOf(e.params, Configured(e, db, asked, at).stored, asked) == []
  {
    forall i | 0 <= i < |e.params|
      ensures Requested(e.params[i], asked) == Effective(e.params[i], NextValues(e.params, asked))
    {
      AskedIsEffective(e, asked, i);
    }
    NoChanges(e.params, NextValues(e.params, asked), asked);
  }

  // ----- the catalogue -----

  const Postgresql: seq<Param> := [
    Param("max_connections", Whole, "100", []),
    Param("shared_buffers", Size, "128MB", []),
    Param("work_mem", Size, "4MB", []),
    Param("effective_cache_size", Size, "4GB", []),
    Param("log_min_duration_statement", Whole, "-1", [])]

  const Mysql: seq<Param> := [
    Param("max_connections", Whole, "151", []),
    Param("innodb_buffer_pool_size", Size, "128M", []),
    Param("max_allowed_packet", Size, "64M", []),
    Param("slow_query_log", Choice, "OFF", ["OFF", "ON"]),
    Param("long_query_time", Whole, "10", [])]

  const Mongodb: seq<Param> := [
    Param("wiredTigerCacheSizeGB", Whole, "0", []),
    Param("slowms", Whole, "100", []),
    Param("profile", Choice, "0", ["0", "1", "2"])]

  const Redis: seq<Param> := [
    Param("maxmemory", Size, "0", []),
    Param("maxmemory-policy", Choice, "noeviction",
          ["noeviction", "allkeys-lru", "allkeys-lfu", "volatile-lru", "volatile-lfu", "volatile-ttl",
           "volatile-random", "allkeys-random"]),
    Param("timeout", Whole, "0", [])]

  lemma SmallNumber(digits: string)
    requires AllDigits(digits) && |digits| <= 3
    ensures NumberOf(digits) < 1000
  {
    if digits != "" {
      var a := digits[..|digits| - 1];
      if a != "" {
        var b := a[..|a| - 1];
        if b != "" { assert b[..|b| - 1] == ""; }
      }
    }
  }

  lemma DefaultIsWhole(p: Param)
    requires p.kind == Whole && 1 <= |p.initial| <= 3
    requires AllDigits(p.initial) || (|p.initial| > 1 && p.initial[0] == '-' && AllDigits(p.initial[1..]))
    ensures Valid(p, p.initial)
  {
    SmallNumber(if p.initial[0] == '-' then p.initial[1..] else p.initial);
  }

  lemma DefaultIsSize(p: Param, n: nat)
    requires p.kind == Size && 0 < n <= |p.initial| <= n + 2 && n <= 3 && AllDigits(p.initial[..n])
    requires AllLetters(p.initial[n..])
    ensures Valid(p, p.initial)
  {
    forall i | 0 <= i < |p.initial| ensures IsPlain(p.initial[i]) {
      if i < n { assert p.initial[i] == p.initial[..n][i]; } else { assert p.initial[i] == p.initial[n..][i - n]; }
    }
  }

  lemma PostgresqlKeys()
    ensures forall i, j :: 0 <= i < j < |Postgresql| ==> Postgresql[i].key != Postgresql[j].key
  {
  }

  lemma PostgresqlIsSensible()
    ensures SensibleParams(Postgresql)
  {
    PostgresqlKeys();
    DefaultIsWhole(Postgresql[0]);
    PostgresqlSizes();
    DefaultIsWhole(Postgresql[4]);
  }

  lemma PostgresqlSizes()
    ensures Valid(Postgresql[1], Postgresql[1].initial) && Valid(Postgresql[2], Postgresql[2].initial)
    ensures Valid(Postgresql[3], Postgresql[3].initial)
  {
    DefaultIsSize(Postgresql[1], 3);
    DefaultIsSize(Postgresql[2], 1);
    DefaultIsSize(Postgresql[3], 1);
  }

  lemma MysqlKeys()
    ensures forall i, j :: 0 <= i < j < |Mysql| ==> Mysql[i].key != Mysql[j].key
  {
  }

  lemma MysqlIsSensible()
    ensures SensibleParams(Mysql)
  {
    MysqlKeys();
    DefaultIsWhole(Mysql[0]);
    MysqlSizes();
    MysqlChoice();
    DefaultIsWhole(Mysql[4]);
  }

  lemma MysqlChoice()
    ensures Valid(Mysql[3], Mysql[3].initial)
  {
  }

  lemma MysqlSizes()
    ensures Valid(Mysql[1], Mysql[1].initial) && Valid(Mysql[2], Mysql[2].initial)
  {
    DefaultIsSize(Mysql[1], 3);
    DefaultIsSize(Mysql[2], 2);
  }

  lemma MongodbIsSensible()
    ensures SensibleParams(Mongodb)
  {
    DefaultIsWhole(Mongodb[0]);
    DefaultIsWhole(Mongodb[1]);
  }

  lemma RedisIsSensible()
    ensures SensibleParams(Redis)
  {
    DefaultIsSize(Redis[0], 1);
    DefaultIsWhole(Redis[2]);
  }

  /** Every engine that ships with casos is sensible, whatever its rendering. */
  lemma CatalogueIsSensible(e: Engine)
    requires e.params == Postgresql || e.params == Mysql || e.params == Mongodb || e.params == Redis
    ensures Sensible(e)
  {
    PostgresqlIsSensible();
    MysqlIsSensible();
    MongodbIsSensible();
    RedisIsSensible();
  }

  // ----- what a value may be, written out -----

  /** Numbers that fit 64 bits, with a sign if one likes. */
  lemma WholeNumbers(n: nat)
    ensures IsWhole(Decimal(n)) <==> n < 0x8000_0000_0000_0000
    ensures IsWhole("+" + Decimal(n)) <==> n < 0x8000_0000_0000_0000
    ensures IsWhole("-" + Decimal(n)) <==> n <= 0x8000_0000_0000_0000
    ensures !IsWhole("") && !IsWhole("+") && !IsWhole("-")
  {
    DecimalReads(n);
    var d := Decimal(n);
    assert ("+" + d)[1..] == d && ("-" + d)[1..] == d;
    assert d[0] != '-' && d[0] != '+';
  }

  lemma NoWholeNumbers(v: string, i: nat)
    requires i < |v| && !('0' <= v[i] <= '9') && (i == 0 ==> v[i] != '-' && v[i] != '+')
    ensures !IsWhole(v)
  {
    if v[0] == '-' || v[0] == '+' { assert v[1..][i - 1] == v[i]; }
  }

  /** A size is some digits and at most two letters. */
  lemma SizesAre(digits: string, letters: string)
    requires digits != "" && AllDigits(digits) && AllLetters(letters)
    ensures IsSize(digits + letters) <==> |letters| <= 2
  {
    var v := digits + letters;
    assert v[..|digits|] == digits && v[|digits|..] == letters;
    if n :| 0 < n <= |v| && AllDigits(v[..n]) && AllLetters(v[n..]) && |v| - n <= 2 {
      LettersFollow(v, |digits|, n);
      LettersFollow(v, n, |digits|);
    }
  }

  lemma LettersFollow(v: string, m: nat, n: nat)
    requires m <= |v| && n <= |v| && AllDigits(v[..m]) && AllLetters(v[n..])
    ensures m <= n
  {
    assert forall i :: 0 <= i < m ==> v[i] == v[..m][i];
    assert n < |v| ==> v[n] == v[n..][0] && IsLetter(v[n]);
  }

  /** A value is short and plain, and of its parameter's kind. */
  lemma ValidIs(p: Param, v: string)
    ensures Valid(p, v) ==> 1 <= |v| <= 33 && forall i :: 0 <= i < |v| ==> IsPlain(v[i])
    ensures Valid(p, v) && |v| == 33 ==> v[0] == '-'
    ensures (1 <= |v| <= 32 || (|v| == 33 && v[0] == '-')) && (forall i :: 0 <= i < |v| ==> IsPlain(v[i])) ==>
              (Valid(p, v) <==> match p.kind case Whole => IsWhole(v) case Size => IsSize(v)
                                             case Choice => v in p.options case Free => true)
  {
  }

  lemma PlainAre(c: char)
    ensures IsPlain(c) <==>
              c in {'a', 'b', 'c', 'd', 'e', 'f', 'g', 'h', 'i', 'j', 'k', 'l', 'm', 'n', 'o', 'p', 'q', 'r', 's', 't',
                    'u', 'v', 'w', 'x', 'y', 'z', 'A', 'B', 'C', 'D', 'E', 'F', 'G', 'H', 'I', 'J', 'K', 'L', 'M', 'N',
                    'O', 'P', 'Q', 'R', 'S', 'T', 'U', 'V', 'W', 'X', 'Y', 'Z', '0', '1', '2', '3', '4', '5', '6', '7',
                    '8', '9', '_', '.', '-'}
    ensures IsLetter(c) <==> IsPlain(c) && !('0' <= c <= '9') && c != '_' && c != '.' && c != '-'
  {
  }
}
