/** The two rewrites a rendered manifest goes through before it is applied (quoteEnvValues and
    stripMissingImagePullSecrets in controllers/template_apply.go), on the tree the decoder builds. */
module ManifestTree {
  import opened Common

  datatype Json =
    | Null | Bool(b: bool) | Int(i: int) | Float(f: Float64) | Str(s: string)
    | List(items: seq<Json>)
    | Object(fields: map<string, Json>)

  /** How numbers are written, and which secrets the namespace has. */
  datatype Host = Host(ofFloat: Float64 -> string, ofInt: int -> string, known: string -> bool)

  const Env := "env"
  const Variable := "value"
  const Pull := "imagePullSecrets"
  const Name := "name"

  // ----- quoteEnvValues -----

  function QuoteScalar(h: Host, v: Json): Json {
    match v
    case Float(f) => Str(h.ofFloat(f))
    case Int(i) => Str(h.ofInt(i))
    case Bool(b) => Str(if b then "true" else "false")
    case _ => v
  }

  function QuoteEntry(h: Host, e: Json): Json {
    if e.Object? && Variable in e.fields then Object(e.fields[Variable := QuoteScalar(h, e.fields[Variable])]) else e
  }

  function QuoteEntries(h: Host, items: seq<Json>): seq<Json> {
    seq(|items|, i requires 0 <= i < |items| => QuoteEntry(h, items[i]))
  }

  function Quote(h: Host, t: Json): Json {
    match t
    case List(items) => List(QuoteAll(h, items))
    case Object(fields) =>
      Object(map k | k in fields ::
        if k == Env && fields[k].List? then List(QuoteEntries(h, fields[k].items)) else Quote(h, fields[k]))
    case _ => t
  }

  function QuoteAll(h: Host, items: seq<Json>): seq<Json> {
    seq(|items|, i requires 0 <= i < |items| => Quote(h, items[i]))
  }

  // ----- stripMissingImagePullSecrets -----

  predicate Kept(h: Host, ref: Json) {
    ref.Object? ==>
      Name in ref.fields && ref.fields[Name].Str? && ref.fields[Name].s != "" && h.known(ref.fields[Name].s)
  }

  function KeptOnly(h: Host, refs: seq<Json>): seq<Json> {
    if refs == [] then []
    else KeptOnly(h, refs[..|refs| - 1]) + if Kept(h, refs[|refs| - 1]) then [refs[|refs| - 1]] else []
  }

  function PullOf(h: Host, pull: Json): Json { if pull.List? then List(KeptOnly(h, pull.items)) else pull }

  /** The pull secrets of an object that are left, if it has any to leave. */
  predicate LosesPull(h: Host, fields: map<string, Json>) {
    Pull in fields && fields[Pull].List? && KeptOnly(h, fields[Pull].items) == []
  }

  function Strip(h: Host, t: Json): Json {
    match t
    case List(items) => List(StripAll(h, items))
    case Object(fields) =>
      Object(map k | k in fields && !(k == Pull && LosesPull(h, fields)) ::
        if k != Pull then Strip(h, fields[k])
        else PullOf(h, fields[k]))
    case _ => t
  }

  function StripAll(h: Host, items: seq<Json>): seq<Json> {
    seq(|items|, i requires 0 <= i < |items| => Strip(h, items[i]))
  }

  // ----- what each is for -----

  predicate IsScalar(v: Json) { v.Float? || v.Int? || v.Bool? }

  predicate EntryQuoted(e: Json) { e.Object? && Variable in e.fields ==> !IsScalar(e.fields[Variable]) }

  /** No variable of a list-valued env the walk comes to has a bare number or boolean for a value. */
  predicate Quoted(t: Json) {
    match t
    case List(items) => forall i :: 0 <= i < |items| ==> Quoted(items[i])
    case Object(fields) => forall k :: k in fields ==>
        if k == Env && fields[k].List? then forall i :: 0 <= i < |fields[k].items| ==> EntryQuoted(fields[k].items[i])
        else Quoted(fields[k])
    case _ => true
  }

  /** Every list of pull secrets the walk comes to names only secrets there are, and is not empty. */
  predicate Stripped(h: Host, t: Json) {
    match t
    case List(items) => forall i :: 0 <= i < |items| ==> Stripped(h, items[i])
    case Object(fields) => forall k :: k in fields ==>
        if k != Pull then Stripped(h, fields[k])
        else fields[k].List? ==>
          fields[k].items != [] && forall i :: 0 <= i < |fields[k].items| ==> Kept(h, fields[k].items[i])
    case _ => true
  }

  /** Quoting reaches its goal. */
  lemma {:induction false} QuoteQuotes(h: Host, t: Json)
    ensures Quoted(Quote(h, t))
  {
    match t
    case List(items) => forall i | 0 <= i < |items| ensures Quoted(Quote(h, items[i])) { QuoteQuotes(h, items[i]); }
    case Object(fields) => forall k | k in fields ensures Quoted(Quote(h, fields[k])) { QuoteQuotes(h, fields[k]); }
    case _ =>
  }

  /** A tree is left as it is exactly when it has nothing to quote. */
  lemma {:induction false} QuoteLeavesIff(h: Host, t: Json)
    ensures Quote(h, t) == t <==> Quoted(t)
  {
    if Quote(h, t) == t { QuoteQuotes(h, t); }
    match t
    case List(items) =>
      forall i | 0 <= i < |items| ensures Quoted(items[i]) ==> Quote(h, items[i]) == items[i] {
        QuoteLeavesIff(h, items[i]);
      }
    case Object(fields) =>
      forall k | k in fields
        ensures Quoted(fields[k]) ==> Quote(h, fields[k]) == fields[k]
      {
        QuoteLeavesIff(h, fields[k]);
      }
      if Quoted(t) && Env in fields && fields[Env].List? {
        forall i | 0 <= i < |fields[Env].items| ensures QuoteEntry(h, fields[Env].items[i]) == fields[Env].items[i] {
        }
        assert QuoteEntries(h, fields[Env].items) == fields[Env].items;
      }
    case _ =>
  }

  lemma QuoteTwice(h: Host, t: Json)
    ensures Quote(h, Quote(h, t)) == Quote(h, t)
  {
    QuoteQuotes(h, t);
    QuoteLeavesIff(h, Quote(h, t));
  }

  lemma {:induction false} KeptOnlyKeeps(h: Host, refs: seq<Json>)
    ensures forall i :: 0 <= i < |KeptOnly(h, refs)| ==> Kept(h, KeptOnly(h, refs)[i])
    ensures (forall i :: 0 <= i < |refs| ==> Kept(h, refs[i])) <==> KeptOnly(h, refs) == refs
    ensures |KeptOnly(h, refs)| <= |refs|
    decreases |refs|
  {
    if refs != [] {
      var n := |refs| - 1;
      KeptOnlyKeeps(h, refs[..n]);
      assert refs == refs[..n] + [refs[n]];
    }
  }

  /** Stripping reaches its goal. */
  lemma {:induction false} StripStrips(h: Host, t: Json)
    ensures Stripped(h, Strip(h, t))
  {
    match t
    case List(items) =>
      forall i | 0 <= i < |items| ensures Stripped(h, Strip(h, items[i])) {
        StripStrips(h, items[i]);
      }
    case Object(fields) =>
      forall k | k in fields && k != Pull ensures Stripped(h, Strip(h, fields[k])) { StripStrips(h, fields[k]); }
      if Pull in fields && fields[Pull].List? { KeptOnlyKeeps(h, fields[Pull].items); }
    case _ =>
  }

  /** A tree is left as it is exactly when it names no missing secret. */
  lemma {:induction false} StripLeavesIff(h: Host, t: Json)
    ensures Strip(h, t) == t <==> Stripped(h, t)
  {
    if Strip(h, t) == t { StripStrips(h, t); }
    match t
    case List(items) =>
      forall i | 0 <= i < |items| ensures Stripped(h, items[i]) ==> Strip(h, items[i]) == items[i] {
        StripLeavesIff(h, items[i]);
      }
    case Object(fields) =>
      forall k | k in fields && k != Pull
        ensures Stripped(h, fields[k]) ==> Strip(h, fields[k]) == fields[k]
      {
        StripLeavesIff(h, fields[k]);
      }
      if Pull in fields && fields[Pull].List? { KeptOnlyKeeps(h, fields[Pull].items); }
    case _ =>
  }

  lemma StripTwice(h: Host, t: Json)
    ensures Strip(h, Strip(h, t)) == Strip(h, t)
  {
    StripStrips(h, t);
    StripLeavesIff(h, Strip(h, t));
  }

  // ----- either may go first -----

  lemma QuotingKeepsRef(h: Host, ref: Json)
    ensures Kept(h, Quote(h, ref)) <==> Kept(h, ref)
  {
  }

  lemma {:induction false} QuoteKeptOnly(h: Host, refs: seq<Json>)
    ensures KeptOnly(h, QuoteAll(h, refs)) == QuoteAll(h, KeptOnly(h, refs))
    decreases |refs|
  {
    if refs != [] {
      var n := |refs| - 1;
      QuoteKeptOnly(h, refs[..n]);
      assert QuoteAll(h, refs)[..n] == QuoteAll(h, refs[..n]);
      QuotingKeepsRef(h, refs[n]);
    }
  }

  lemma StripField(h: Host, fields: map<string, Json>, k: string)
    requires k in Strip(h, Object(fields)).fields
    ensures k in fields && Strip(h, Object(fields)).fields[k] ==
              if k != Pull then Strip(h, fields[k])
              else PullOf(h, fields[k])
  {
  }

  lemma EntryCommutes(h: Host, e: Json)
    ensures QuoteEntry(h, Strip(h, e)) == Strip(h, QuoteEntry(h, e))
  {
    if e.Object? {
      var (a, b) := (QuoteEntry(h, Strip(h, e)), Strip(h, QuoteEntry(h, e)));
      assert LosesPull(h, QuoteEntry(h, e).fields) <==> LosesPull(h, e.fields);
      assert a.fields.Keys == b.fields.Keys;
      forall k | k in a.fields ensures a.fields[k] == b.fields[k] {
        StripField(h, e.fields, k);
        StripField(h, QuoteEntry(h, e).fields, k);
      }
      assert a.fields == b.fields;
    }
  }

  lemma EntriesCommute(h: Host, items: seq<Json>)
    ensures QuoteEntries(h, StripAll(h, items)) == StripAll(h, QuoteEntries(h, items))
  {
    forall i | 0 <= i < |items|
      ensures QuoteEntry(h, Strip(h, items[i])) == Strip(h, QuoteEntry(h, items[i]))
    {
      EntryCommutes(h, items[i]);
    }
  }

  lemma SameKind(h: Host, t: Json)
    ensures Quote(h, t).List? <==> t.List?
    ensures Quote(h, t).Object? <==> t.Object?
    ensures !t.List? && !t.Object? ==> Quote(h, t) == t && Strip(h, t) == t
    ensures Strip(h, t).List? <==> t.List?
    ensures Strip(h, t).Object? <==> t.Object?
  {
  }

  lemma KeysDiffer()
    ensures Variable != Pull && Env != Pull && Name != Env
  {
    assert |Variable| == 5 && |Pull| == 16 && |Env| == 3 && |Name| == 4;
  }

  lemma QuoteField(h: Host, fields: map<string, Json>, k: string)
    requires k in fields
    ensures var q := Quote(h, Object(fields)).fields;
            k in q && q[k] ==
              if k == Env && fields[k].List? then List(QuoteEntries(h, fields[k].items)) else Quote(h, fields[k])
  {
  }

  lemma {:induction false} PullCommutes(h: Host, fields: map<string, Json>)
    requires Pull in fields
    ensures LosesPull(h, Quote(h, Object(fields)).fields) <==> LosesPull(h, fields)
    ensures fields[Pull].List? ==>
          QuoteAll(h, KeptOnly(h, fields[Pull].items)) == KeptOnly(h, Quote(h, fields[Pull]).items)
  {
    KeysDiffer();
    QuoteField(h, fields, Pull);
    SameKind(h, fields[Pull]);
    if fields[Pull].List? { QuoteKeptOnly(h, fields[Pull].items); }
  }

  /** The order the two rewrites run in makes no difference. */
  lemma {:induction false} RewritesCommute(h: Host, t: Json)
    ensures Quote(h, Strip(h, t)) == Strip(h, Quote(h, t))
  {
    match t
    case List(items) =>
      forall i | 0 <= i < |items| ensures Quote(h, Strip(h, items[i])) == Strip(h, Quote(h, items[i])) {
        RewritesCommute(h, items[i]);
      }
    case Object(fields) =>
      var (a, b) := (Quote(h, Strip(h, t)).fields, Strip(h, Quote(h, t)).fields);
      if Pull in fields { PullCommutes(h, fields); }
      assert a.Keys == b.Keys;
      forall k | k in a ensures a[k] == b[k] {
        RewritesCommute(h, fields[k]);
        FieldCommutes(h, fields, k);
      }
    case _ =>
  }

  lemma FieldCommutes(h: Host, fields: map<string, Json>, k: string)
    requires k in Strip(h, Object(fields)).fields && k in Strip(h, Quote(h, Object(fields))).fields
    requires Quote(h, Strip(h, fields[k])) == Strip(h, Quote(h, fields[k]))
    ensures Quote(h, Strip(h, Object(fields))).fields[k] == Strip(h, Quote(h, Object(fields))).fields[k]
  {
    StripField(h, fields, k);
    StripField(h, Quote(h, Object(fields)).fields, k);
    if k == Pull {
      PullCommutes(h, fields);
    } else if k == Env && fields[k].List? {
      EntriesCommute(h, fields[k].items);
    }
  }

  // ----- everything else stays where it is, as it is -----

  datatype Hop = Key(k: string) | Index(i: nat)

  function At(t: Json, path: seq<Hop>): Option<Json>
    decreases |path|
  {
    if path == [] then Some(t)
    else match Child(t, path[0])
      case None => None
      case Some(c) => At(c, path[1..])
  }

  function Child(t: Json, hop: Hop): Option<Json> {
    match hop
    case Key(k) => if t.Object? && k in t.fields then Some(t.fields[k]) else None
    case Index(i) => if t.List? && i < |t.items| then Some(t.items[i]) else None
  }

  /** The same node, whatever its children. */
  predicate SameNode(a: Json, b: Json) {
    match a
    case List(items) => b.List? && |b.items| == |items|
    case Object(fields) => b.Object? && b.fields.Keys == fields.Keys
    case _ => a == b
  }

  /** The path ends at the value of a variable in a list-valued env that the walk comes to. */
  predicate OnVariable(t: Json, path: seq<Hop>)
    decreases |path|
  {
    && path != []
    && Child(t, path[0]).Some?
    && var c := Child(t, path[0]).value;
       if path[0] == Key(Env) && c.List? then |path| == 3 && path[1].Index? && path[2] == Key(Variable)
       else OnVariable(c, path[1..])
  }

  lemma QuoteChild(h: Host, t: Json, hop: Hop)
    requires !(hop == Key(Env) && Child(t, hop).Some? && Child(t, hop).value.List?)
    ensures Child(Quote(h, t), hop) == match Child(t, hop) case None => None case Some(c) => Some(Quote(h, c))
  {
  }

  lemma EntryAt(h: Host, e: Json, path: seq<Hop>)
    ensures At(QuoteEntry(h, e), path).Some? <==> At(e, path).Some?
    ensures At(e, path).Some? && path != [Key(Variable)] ==>
          SameNode(At(e, path).value, At(QuoteEntry(h, e), path).value)
    ensures At(e, path).Some? && path == [Key(Variable)] ==>
          At(QuoteEntry(h, e), path).value == QuoteScalar(h, At(e, path).value)
  {
    if path != [] {
      if path[0] == Key(Variable) {
        if Child(e, path[0]).Some? {
          assert path[1..] == [] ==> path == [Key(Variable)];
        }
      } else {
        assert Child(QuoteEntry(h, e), path[0]) == Child(e, path[0]);
      }
    }
  }

  /** Quoting changes the values of such variables, into what they are quoted to, and no other node. */
  lemma {:induction false} QuoteAtPath(h: Host, t: Json, path: seq<Hop>)
    ensures At(Quote(h, t), path).Some? <==> At(t, path).Some?
    ensures At(t, path).Some? && !OnVariable(t, path) ==> SameNode(At(t, path).value, At(Quote(h, t), path).value)
    ensures At(t, path).Some? && OnVariable(t, path) ==>
          At(Quote(h, t), path).value == QuoteScalar(h, At(t, path).value)
    decreases |path|
  {
    if path != [] && Child(t, path[0]).Some? {
      var c := Child(t, path[0]).value;
      if path[0] == Key(Env) && c.List? {
        EntriesAt(h, c.items, path[1..]);
      } else {
        QuoteChild(h, t, path[0]);
        QuoteAtPath(h, c, path[1..]);
      }
    } else if path != [] {
      QuoteChild(h, t, path[0]);
    }
  }

  lemma EntriesAt(h: Host, items: seq<Json>, path: seq<Hop>)
    ensures var (a, b) := (At(List(items), path), At(List(QuoteEntries(h, items)), path));
            var variable := |path| == 2 && path[0].Index? && path[1] == Key(Variable);
            && (a.Some? <==> b.Some?)
            && (a.Some? ==> if variable then b.value == QuoteScalar(h, a.value) else SameNode(a.value, b.value))
  {
    if path != [] && Child(List(items), path[0]).Some? {
      EntryAt(h, items[path[0].i], path[1..]);
    }
  }

  /** The same node, but for the pull secrets, of which those that exist are left. */
  ghost predicate StrippedNode(h: Host, a: Json, b: Json) {
    match a
    case List(items) => b.List? && |b.items| == |items|
    case Object(fields) =>
      && b.Object? && b.fields.Keys - {Pull} == fields.Keys - {Pull}
      && (Pull in b.fields <==> Pull in fields && !LosesPull(h, fields))
      && (Pull in b.fields ==> b.fields[Pull] == PullOf(h, fields[Pull]))
    case _ => a == b
  }

  /** Stripping changes the pull secrets of the objects the walk comes to, and no other node. */
  lemma {:induction false} StripAtPath(h: Host, t: Json, path: seq<Hop>)
    requires Key(Pull) !in path
    ensures At(Strip(h, t), path).Some? <==> At(t, path).Some?
    ensures At(t, path).Some? ==> StrippedNode(h, At(t, path).value, At(Strip(h, t), path).value)
    decreases |path|
  {
    if path != [] {
      assert Child(Strip(h, t), path[0]) == match Child(t, path[0]) case None => None case Some(c) => Some(Strip(h, c));
      if Child(t, path[0]).Some? { StripAtPath(h, Child(t, path[0]).value, path[1..]); }
    }
  }

  // ----- what they turn into, written out -----

  /** How a scalar is written as a string; anything else stays. */
  ghost predicate BecomesString(h: Host, was: Json, now: Json) {
    && (was == Bool(true) ==> now == Str("true")) && (was == Bool(false) ==> now == Str("false"))
    && (was.Int? ==> now == Str(h.ofInt(was.i))) && (was.Float? ==> now == Str(h.ofFloat(was.f)))
    && (was == Null || was.Str? || was.List? || was.Object? ==> now == was)
  }

  /** The value of a variable becomes the string it is written as, wherever the walk comes to it. */
  lemma ValueBecomesString(h: Host, t: Json, path: seq<Hop>)
    requires OnVariable(t, path) && At(t, path).Some?
    ensures At(Quote(h, t), path).Some? && BecomesString(h, At(t, path).value, At(Quote(h, t), path).value)
  {
    QuoteAtPath(h, t, path);
  }

  /** So it is for every entry of a container's env, wherever the container stands. */
  lemma EnvBecomesStrings(h: Host, container: map<string, Json>, entry: map<string, Json>, i: nat)
    requires "env" in container && container["env"].List? && i < |container["env"].items|
    requires container["env"].items[i] == Object(entry) && "value" in entry
    ensures OnVariable(Object(container), [Key("env"), Index(i), Key("value")])
    ensures var path := [Key("env"), Index(i), Key("value")];
            var now := At(Quote(h, Object(container)), path);
            && At(Object(container), path) == Some(entry["value"])
            && now.Some? && BecomesString(h, entry["value"], now.value)
  {
    var path := [Key("env"), Index(i), Key("value")];
    var t := Object(container);
    assert Child(t, path[0]) == Some(container["env"]);
    assert path[1..] == [Index(i), Key("value")] && path[1..][1..] == [Key("value")];
    assert && Child(container["env"], Index(i)) == Some(Object(entry))
           && Child(Object(entry), Key("value")) == Some(entry["value"]);
    assert At(Object(entry), [Key("value")]) == At(entry["value"], [Key("value")][1..]) == Some(entry["value"]);
    assert At(container["env"], [Index(i), Key("value")]) == Some(entry["value"]);
    ValueBecomesString(h, t, path);
  }

  /** A reference to a secret is left when it is no object, or names a secret there is. */
  ghost predicate Stays(h: Host, ref: Json) {
    !ref.Object? || (exists s :: "name" in ref.fields && ref.fields["name"] == Str(s) && s != "" && h.known(s))
  }

  /** The references left are those that stay, in order, each as often as it was there. */
  lemma KeptOnlyPicks(h: Host, refs: seq<Json>) returns (places: seq<nat>)
    ensures PicksAt(refs, KeptOnly(h, refs), places)
    ensures forall k :: 0 <= k < |refs| ==> (k in places <==> Stays(h, refs[k]))
  {
    KeptOnlyFilters(h, refs, ref => Stays(h, ref));
    places := FilterPicks(refs, ref => Stays(h, ref));
  }

  lemma {:induction false} KeptOnlyFilters(h: Host, refs: seq<Json>, keep: Json -> bool)
    requires forall ref :: keep(ref) <==> Stays(h, ref)
    ensures KeptOnly(h, refs) == Filter(refs, keep)
    decreases |refs|
  {
    if refs != [] {
      KeptOnlyFilters(h, refs[..|refs| - 1], keep);
      KeptStays(h, refs[|refs| - 1]);
    }
  }

  lemma KeptStays(h: Host, ref: Json)
    ensures Kept(h, ref) <==> Stays(h, ref)
  {
  }

  /** The pull secrets of an object the walk comes to: those that stay, or none left to name. */
  lemma PullsStay(h: Host, t: Json, path: seq<Hop>) returns (places: seq<nat>)
    requires Key("imagePullSecrets") !in path
    requires At(t, path).Some? && At(t, path).value.Object? && "imagePullSecrets" in At(t, path).value.fields
    requires At(t, path).value.fields["imagePullSecrets"].List?
    ensures At(Strip(h, t), path).Some? && At(Strip(h, t), path).value.Object?
    ensures var (refs, now) := (At(t, path).value.fields["imagePullSecrets"].items, At(Strip(h, t), path).value.fields);
            && (forall k :: 0 <= k < |refs| ==> (k in places <==> Stays(h, refs[k])))
            && if "imagePullSecrets" in now then
                 now["imagePullSecrets"].List? && now["imagePullSecrets"].items != []
                 && PicksAt(refs, now["imagePullSecrets"].items, places)
               else places == []
  {
    StripAtPath(h, t, path);
    var fields := At(t, path).value.fields;
    places := KeptOnlyPicks(h, fields["imagePullSecrets"].items);
  }
}
