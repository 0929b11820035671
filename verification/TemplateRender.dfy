/** Placeholders in a text, and the two passes over a template's own names and its form
    (substitutePlaceholders in controllers/template_expr.go, renderedDefaults and renderTemplate
    in controllers/template.go). */
module TemplateRender {
  import opened Common
  import opened TemplateValues
  import opened TemplateTokenizer
  import opened TemplateBlocks
  import opened TemplateDraws
  import opened TemplateLines

  // ----- placeholders -----

  datatype Segment = Literal(c: char) | Placeholder(expression: string)

  /** After optional space, the closing braces: the length of both, if they are there. */
  function ClosingAt(s: string): (r: Option<nat>)
    ensures r.Some? ==> r.value <= |s|
  {
    if "}}" <= s then Some(2)
    else if s == "" || !IsSpace(s[0]) then None
    else match ClosingAt(s[1..])
      case None => None
      case Some(n) => Some(n + 1)
  }

  /** An expression, and how much of the text it and its braces are. */
  datatype Found = NotFound | Found(expression: string, length: nat)

  /** The shortest expression, on one line, that closing braces follow, and the length of both. */
  function ExpressionAt(s: string): (f: Found)
    ensures f.Found? ==> f.length <= |s|
  {
    if ClosingAt(s).Some? then Found("", ClosingAt(s).value)
    else if s == "" || s[0] == '\n' then NotFound
    else
      var rest := ExpressionAt(s[1..]);
      if rest.NotFound? then NotFound else Found([s[0]] + rest.expression, rest.length + 1)
  }

  /** A placeholder at the front of s, and its length. */
  function PlaceholderAt(s: string): (f: Found)
    ensures f.Found? ==> 0 < f.length <= |s|
  {
    if !("${{" <= s) then NotFound
    else
      var n := 3 + RunOf(s[3..], IsSpace);
      var e := ExpressionAt(s[n..]);
      if e.NotFound? then NotFound else Found(e.expression, n + e.length)
  }

  function Segments(s: string): seq<Segment>
    decreases |s|
  {
    var p := PlaceholderAt(s);
    if s == "" then []
    else if p.Found? then [Placeholder(p.expression)] + Segments(s[p.length..])
    else [Literal(s[0])] + Segments(s[1..])
  }

  /** A text, and the draws made so far. */
  datatype Drawn = Drawn(text: string, drawn: seq<nat>)

  /** A placeholder in error leaves nothing. What is inserted is not looked at again. */
  function Resolve(c: Context, segs: seq<Segment>, drawn: seq<nat>): Drawn {
    if segs == [] then Drawn("", drawn)
    else
      match segs[0]
      case Literal(ch) =>
        var rest := Resolve(c, segs[1..], drawn);
        Drawn([ch] + rest.text, rest.drawn)
      case Placeholder(expression) =>
        var v := EvaluateText(c, expression, drawn);
        var rest := Resolve(c, segs[1..], v.drawn);
        Drawn((if v.res.Ok? then ValueToString(c.host, v.res.value) else "") + rest.text, rest.drawn)
  }

  function Substitute(c: Context, text: string, drawn: seq<nat>): Drawn { Resolve(c, Segments(text), drawn) }

  // ----- what a text means -----

  /** A placeholder as an author writes it. */
  function Written(seg: Segment): string {
    match seg
    case Literal(c) => [c]
    case Placeholder(expression) => "${{ " + expression + " }}"
  }

  function WrittenAll(segs: seq<Segment>): string {
    if segs == [] then "" else Written(segs[0]) + WrittenAll(segs[1..])
  }

  ghost predicate Writable(seg: Segment) {
    match seg
    case Literal(_) => true
    case Placeholder(e) =>
      '}' !in e && '\n' !in e && (e != "" ==> !IsSpace(e[0]) && !IsSpace(e[|e| - 1]))
  }

  /** Where something other than a brace follows the blanks, nothing closes. */
  lemma {:induction false} NotClosing(e: string, s: string)
    requires e != "" && e <= s && '}' !in e && !IsSpace(e[|e| - 1])
    ensures ClosingAt(s).None?
    decreases |e|
  {
    assert s[0] == e[0] && e[0] in e;
    if IsSpace(s[0]) { NotClosing(e[1..], s[1..]); }
  }

  lemma TakeFirst(e: string, tail: string)
    requires e != ""
    ensures var s := e + " }}" + tail; s != "" && s[0] == e[0] && e <= s && s[1..] == e[1..] + " }}" + tail
  {
  }

  lemma NothingLeft(tail: string)
    ensures ExpressionAt("" + " }}" + tail) == Found("", 3)
  {
    var s := "" + " }}" + tail;
    assert s == " }}" + tail && s[1..] == "}}" + tail;
    assert s[0] == ' ' && ClosingAt(s[1..]) == Some(2);
  }

  lemma {:induction false} ExpressionEnds(e: string, tail: string)
    requires '}' !in e && '\n' !in e && (e != "" ==> !IsSpace(e[|e| - 1]))
    ensures ExpressionAt(e + " }}" + tail) == Found(e, |e| + 3)
    decreases |e|
  {
    if e == "" {
      NothingLeft(tail);
    } else {
      var s := e + " }}" + tail;
      TakeFirst(e, tail);
      NotClosing(e, s);
      ExpressionEnds(e[1..], tail);
      assert e[0] in e && [e[0]] + e[1..] == e;
    }
  }

  /** No dollar sign meant as it is happens to start a placeholder with what follows it. */
  ghost predicate DollarsStay(segs: seq<Segment>) {
    forall i :: 0 <= i < |segs| && segs[i] == Literal('$') ==> PlaceholderAt(WrittenAll(segs[i..])).NotFound?
  }

  lemma DollarsStayRest(segs: seq<Segment>)
    requires segs != []
    ensures DollarsStay(segs) <==>
              DollarsStay(segs[1..]) && (segs[0] == Literal('$') ==> PlaceholderAt(WrittenAll(segs)).NotFound?)
  {
    assert segs[0..] == segs;
    var rest := segs[1..];
    assert forall i :: 0 <= i < |rest| ==> rest[i] == segs[i + 1] && rest[i..] == segs[i + 1..];
    if DollarsStay(segs) {
      forall i | 0 <= i < |rest| && rest[i] == Literal('$') ensures PlaceholderAt(WrittenAll(rest[i..])).NotFound? {
        assert segs[i + 1] == Literal('$');
      }
    }
    if DollarsStay(rest) && (segs[0] == Literal('$') ==> PlaceholderAt(WrittenAll(segs)).NotFound?) {
      forall i | 0 <= i < |segs| && segs[i] == Literal('$') ensures PlaceholderAt(WrittenAll(segs[i..])).NotFound? {
        if i > 0 { assert rest[i - 1] == Literal('$'); }
      }
    }
  }

  /** What is written with placeholders is found again, piece by piece, exactly when no dollar sign
      among the rest starts one by accident. */
  lemma {:induction false} SegmentsOfWritten(segs: seq<Segment>)
    requires forall i :: 0 <= i < |segs| ==> Writable(segs[i])
    ensures Segments(WrittenAll(segs)) == segs <==> DollarsStay(segs)
    decreases |segs|
  {
    if segs != [] {
      SegmentsOfWritten(segs[1..]);
      DollarsStayRest(segs);
      match segs[0]
      case Literal(ch) => LiteralFirst(segs, ch);
      case Placeholder(e) => PlaceholderFirst(segs, e);
    }
  }

  lemma LiteralFirst(segs: seq<Segment>, ch: char)
    requires segs != [] && segs[0] == Literal(ch)
    ensures Segments(WrittenAll(segs)) == segs <==>
              Segments(WrittenAll(segs[1..])) == segs[1..] && (ch == '$' ==> PlaceholderAt(WrittenAll(segs)).NotFound?)
  {
    var s, tail := WrittenAll(segs), WrittenAll(segs[1..]);
    assert s == [ch] + tail && s[1..] == tail;
    assert ch != '$' ==> !("${{" <= s);
    FirstSegment(s, segs[0], segs[1..]);
    assert segs == [segs[0]] + segs[1..];
  }

  lemma PlaceholderFirst(segs: seq<Segment>, e: string)
    requires segs != [] && segs[0] == Placeholder(e) && Writable(segs[0])
    ensures Segments(WrittenAll(segs)) == segs <==> Segments(WrittenAll(segs[1..])) == segs[1..]
  {
    var s, tail := WrittenAll(segs), WrittenAll(segs[1..]);
    PlaceholderWritten(e, tail);
    FoundFirst(s, Written(segs[0]), e, tail, segs[1..]);
    assert segs == [segs[0]] + segs[1..];
  }

  lemma FoundFirst(s: string, written: string, e: string, tail: string, rest: seq<Segment>)
    requires s == written + tail && written != "" && PlaceholderAt(s) == Found(e, |written|)
    ensures Segments(s) == [Placeholder(e)] + rest <==> Segments(tail) == rest
  {
    assert s[|written|..] == tail;
    FirstSegment(s, Placeholder(e), rest);
  }

  lemma FirstSegment(s: string, first: Segment, rest: seq<Segment>)
    requires s != ""
    ensures var p := PlaceholderAt(s);
            Segments(s) == [first] + rest <==>
              if p.Found? then first == Placeholder(p.expression) && Segments(s[p.length..]) == rest
              else first == Literal(s[0]) && Segments(s[1..]) == rest
  {
    var p := PlaceholderAt(s);
    var head := if p.Found? then Placeholder(p.expression) else Literal(s[0]);
    var tail := Segments(if p.Found? then s[p.length..] else s[1..]);
    assert Segments(s) == [head] + tail;
    assert ([head] + tail)[0] == head && ([head] + tail)[1..] == tail;
    assert ([first] + rest)[0] == first && ([first] + rest)[1..] == rest;
  }

  lemma PlaceholderWritten(e: string, tail: string)
    requires Writable(Placeholder(e))
    ensures PlaceholderAt(Written(Placeholder(e)) + tail) == Found(e, |Written(Placeholder(e))|)
  {
    var s := Written(Placeholder(e)) + tail;
    var inner := " " + e + " }}" + tail;
    assert s == "${{" + inner && s[3..] == inner;
    if e == "" { NothingWritten(inner, tail); } else { SomethingWritten(e, inner, tail); }
    assert forall n :: 0 <= n <= |inner| ==> s[3 + n..] == inner[n..];
  }

  lemma NothingWritten(inner: string, tail: string)
    requires inner == " " + "" + " }}" + tail
    ensures RunOf(inner, IsSpace) == 2 && ExpressionAt(inner[2..]) == Found("", 2)
  {
    assert inner == "  }}" + tail;
    RunEnds(inner, IsSpace, 2);
    assert inner[2..] == "}}" + tail;
  }

  lemma SomethingWritten(e: string, inner: string, tail: string)
    requires Writable(Placeholder(e)) && e != "" && inner == " " + e + " }}" + tail
    ensures RunOf(inner, IsSpace) == 1 && ExpressionAt(inner[1..]) == Found(e, |e| + 3)
  {
    assert inner[1] == e[0];
    RunEnds(inner, IsSpace, 1);
    assert inner[1..] == e + " }}" + tail;
    ExpressionEnds(e, tail);
  }

  lemma {:induction false} ResolveQuietly(c: Context, segs: seq<Segment>, d: seq<nat>, d2: seq<nat>)
    ensures var r := Resolve(c, segs, d);
            d <= r.drawn && (r.drawn == d ==> Resolve(c, segs, d2) == r.(drawn := d2))
    decreases |segs|
  {
    if segs != [] {
      match segs[0]
      case Literal(ch) => ResolveQuietly(c, segs[1..], d, d2);
      case Placeholder(e) =>
        EvaluateQuietly(c, e, d, d2);
        ResolveQuietly(c, segs[1..], EvaluateText(c, e, d).drawn, EvaluateText(c, e, d2).drawn);
    }
  }

  /** renderTemplateText: the blocks first, so that a placeholder in a cut branch is never evaluated. */
  function RenderText(c: Context, manifests: string, drawn: seq<nat>): Drawn {
    var out := Conditionals(c, manifests, drawn);
    Substitute(c, Join(out.kept, "\n"), out.drawn)
  }

  lemma RenderTextQuietly(c: Context, manifests: string, d: seq<nat>, d2: seq<nat>)
    ensures var r := RenderText(c, manifests, d);
            d <= r.drawn && (r.drawn == d ==> RenderText(c, manifests, d2) == r.(drawn := d2))
  {
    RunQuietly(c, LinesOf(manifests), Machine([], Output([], [], d)), d2);
    var out := Conditionals(c, manifests, d);
    ResolveQuietly(c, Segments(Join(out.kept, "\n")), out.drawn, d2);
  }

  // ----- a template and its form -----

  datatype InputSpec = InputSpec(initial: string, required: bool, cond: string)

  /** The maps of a template as lists, in the order the sorted-key loops visit them. */
  datatype Template = Template(name: string, defaults: seq<(string, string)>, inputs: seq<(string, InputSpec)>,
                               manifests: string)

  /** Which domains the app gateway serves, and how it rewrites the addresses in a text. */
  datatype Gateway = Gateway(serves: string -> bool, addresses: (string, string, string) -> string)

  datatype Request = Request(defaults: map<string, string>, inputs: map<string, string>)

  predicate Given(m: map<string, string>, key: string) { key in m && m[key] != "" }

  datatype Defaults = Defaults(values: map<string, string>, drawn: seq<nat>)

  function DefaultsFrom(h: Host, env: map<string, string>, todo: seq<(string, string)>, given: map<string, string>,
                        values: map<string, string>, drawn: seq<nat>): Defaults
  {
    if todo == [] then Defaults(values, drawn)
    else
      var (key, text) := todo[0];
      var r := if Given(given, key) then Drawn(given[key], drawn)
               else Substitute(Context(h, Data(values, map[], env)), text, drawn);
      DefaultsFrom(h, env, todo[1..], given, values[key := r.text], r.drawn)
  }

  method RenderedDefaults(h: Host, env: map<string, string>, t: Template, given: map<string, string>, drawn: seq<nat>)
    returns (defaults: map<string, string>, after: seq<nat>)
    ensures Defaults(defaults, after) == DefaultsFrom(h, env, t.defaults, given, map[], drawn)
  {
    defaults, after := map[], drawn;
    for i := 0 to |t.defaults|
      invariant DefaultsFrom(h, env, t.defaults[i..], given, defaults, after)
            == DefaultsFrom(h, env, t.defaults, given, map[], drawn)
    {
      var (key, text) := t.defaults[i];
      assert t.defaults[i..][1..] == t.defaults[i + 1..];
      if Given(given, key) {
        defaults := defaults[key := given[key]];
        continue;
      }
      var r := Substitute(Context(h, Data(defaults, map[], env)), text, after);
      defaults, after := defaults[key := r.text], r.drawn;
    }
  }

  datatype Form = Form(inputs: map<string, string>, missing: seq<string>, drawn: seq<nat>)

  /** One field: its value, and whether a required one is left empty. */
  function Field(c: Context, spec: InputSpec, value: Drawn): (bool, seq<nat>) {
    if !spec.required || !Blank(value.text) then (false, value.drawn)
    else if Blank(spec.cond) then (true, value.drawn)
    else
      var v := EvaluateText(c, spec.cond, value.drawn);
      (v.res.Ok? && Truthy(c.host, v.res.value), v.drawn)
  }

  function FieldValue(c: Context, key: string, spec: InputSpec, given: map<string, string>, drawn: seq<nat>): Drawn {
    if Given(given, key) then Drawn(given[key], drawn) else Substitute(c, spec.initial, drawn)
  }

  function InputsFrom(h: Host, todo: seq<(string, InputSpec)>, given: map<string, string>, data: Data,
                      missing: seq<string>, drawn: seq<nat>): Form
  {
    if todo == [] then Form(data.inputs, missing, drawn)
    else
      var ((key, spec), c) := (todo[0], Context(h, data));
      var value := FieldValue(c, key, spec, given, drawn);
      var (lacking, after) := Field(c, spec, value);
      InputsFrom(h, todo[1..], given, data.(inputs := data.inputs[key := value.text]),
                 if lacking then missing + [key] else missing, after)
  }

  datatype Rendered = Rendered(instance: string, data: Data, documents: seq<string>, missing: seq<string>)

  function Env(env: map<string, string>, key: string): string { if key in env then env[key] else "" }

  /** The rendered text as the app gateway would have it, in documents. */
  function Published(g: Gateway, env: map<string, string>, text: string): seq<string> {
    var domain := Env(env, "SEALOS_CLOUD_DOMAIN");
    Documents(if g.serves(domain) then g.addresses(text, domain, Env(env, "CASOS_APP_PORT_SUFFIX")) else text)
  }

  /** renderTemplate. */
  function RenderAll(h: Host, g: Gateway, t: Template, req: Request, env: map<string, string>,
                     drawn: seq<nat>): Rendered {
    var d := DefaultsFrom(h, env, t.defaults, req.defaults, map[], drawn);
    var f := InputsFrom(h, t.inputs, req.inputs, Data(d.values, map[], env), [], d.drawn);
    var data := Data(d.values, f.inputs, env);
    if Given(d.values, "app_name") then
      var text := RenderText(Context(h, data), t.manifests, f.drawn).text;
      Rendered(d.values["app_name"], data, Published(g, env, text), f.missing)
    else
      var text := RenderText(Context(h, data), t.manifests, f.drawn + [6]).text;
      Rendered(t.name + "-" + h.random(|f.drawn|, 6), data, Published(g, env, text), f.missing)
  }

  method RenderTemplate(h: Host, g: Gateway, t: Template, req: Request, env: map<string, string>, drawn: seq<nat>)
    returns (r: Rendered)
    ensures r == RenderAll(h, g, t, req, env, drawn)
  {
    var defaults, after := RenderedDefaults(h, env, t, req.defaults, drawn);
    var data := Data(defaults, map[], env);
    var missing := [];
    ghost var all := InputsFrom(h, t.inputs, req.inputs, data, [], after);
    for i := 0 to |t.inputs|
      invariant data.defaults == defaults && data.env == env
      invariant InputsFrom(h, t.inputs[i..], req.inputs, data, missing, after) == all
    {
      assert t.inputs[i..][1..] == t.inputs[i + 1..];
      var (key, spec) := t.inputs[i];
      var value := FieldValue(Context(h, data), key, spec, req.inputs, after);
      var (lacking, now) := Field(Context(h, data), spec, value);
      if lacking { missing := missing + [key]; }
      data, after := data.(inputs := data.inputs[key := value.text]), now;
    }
    var instance := if Given(defaults, "app_name") then defaults["app_name"] else t.name + "-" + h.random(|after|, 6);
    if !Given(defaults, "app_name") { after := after + [6]; }
    var rendered := RenderText(Context(h, data), t.manifests, after);
    var (text, domain) := (rendered.text, Env(env, "SEALOS_CLOUD_DOMAIN"));
    if g.serves(domain) { text := g.addresses(text, domain, Env(env, "CASOS_APP_PORT_SUFFIX")); }
    var documents := SplitYamlDocuments(text);
    return Rendered(instance, data, documents, missing);
  }

  // ----- deploying what was previewed -----

  /** Rendering these defaults draws only for values that come out non-empty. */
  ghost predicate DefaultsSettle(h: Host, env: map<string, string>, todo: seq<(string, string)>,
                                 given: map<string, string>,
                                 values: map<string, string>, drawn: seq<nat>)
  {
    todo != [] ==>
      var (key, text) := todo[0];
      var r := if Given(given, key) then Drawn(given[key], drawn)
               else Substitute(Context(h, Data(values, map[], env)), text, drawn);
      (r.text == "" ==> r.drawn == drawn) && DefaultsSettle(h, env, todo[1..], given, values[key := r.text], r.drawn)
  }

  /** The same for the form's fields; the conditions on required fields draw nothing. */
  ghost predicate InputsSettle(h: Host, todo: seq<(string, InputSpec)>, given: map<string, string>, data: Data,
                               drawn: seq<nat>) {
    todo != [] ==>
      var ((key, spec), c) := (todo[0], Context(h, data));
      var value := FieldValue(c, key, spec, given, drawn);
      && (value.text == "" ==> value.drawn == drawn)
      && Field(c, spec, value).1 == value.drawn
      && InputsSettle(h, todo[1..], given, data.(inputs := data.inputs[key := value.text]), value.drawn)
  }

  /** Besides, the manifests draw nothing. */
  ghost predicate Settles(h: Host, t: Template, req: Request, env: map<string, string>, drawn: seq<nat>) {
    var d := DefaultsFrom(h, env, t.defaults, req.defaults, map[], drawn);
    var f := InputsFrom(h, t.inputs, req.inputs, Data(d.values, map[], env), [], d.drawn);
    var c := Context(h, Data(d.values, f.inputs, env));
    && DefaultsSettle(h, env, t.defaults, req.defaults, map[], drawn)
    && InputsSettle(h, t.inputs, req.inputs, Data(d.values, map[], env), d.drawn)
    && RenderText(c, t.manifests, f.drawn).drawn == f.drawn
  }

  ghost predicate DistinctKeys<T>(entries: seq<(string, T)>) {
    forall i, j :: 0 <= i < j < |entries| ==> entries[i].0 != entries[j].0
  }

  lemma {:induction false} DefaultsKeep(h: Host, env: map<string, string>, todo: seq<(string, string)>,
                                        given: map<string, string>, values: map<string, string>, drawn: seq<nat>,
                                        key: string)
    requires key in values && forall i :: 0 <= i < |todo| ==> todo[i].0 != key
    ensures var r := DefaultsFrom(h, env, todo, given, values, drawn).values; key in r && r[key] == values[key]
    decreases |todo|
  {
    if todo != [] {
      var (k, text) := todo[0];
      var r := if Given(given, k) then Drawn(given[k], drawn)
               else Substitute(Context(h, Data(values, map[], env)), text, drawn);
      DefaultsKeep(h, env, todo[1..], given, values[k := r.text], r.drawn, key);
    }
  }

  /** Handing back the values a first pass came to, a second pass comes to the same values. */
  lemma {:induction false} DefaultsAgain(h: Host, env: map<string, string>, todo: seq<(string, string)>,
                                         given: map<string, string>, again: map<string, string>,
                                         values: map<string, string>, d: seq<nat>, d2: seq<nat>)
    requires DistinctKeys(todo) && DefaultsSettle(h, env, todo, given, values, d)
    requires again == DefaultsFrom(h, env, todo, given, values, d).values
    ensures DefaultsFrom(h, env, todo, again, values, d2).values == again
    decreases |todo|
  {
    if todo != [] {
      var ((key, text), c) := (todo[0], Context(h, Data(values, map[], env)));
      var r := if Given(given, key) then Drawn(given[key], d) else Substitute(c, text, d);
      var r2 := if Given(again, key) then Drawn(again[key], d2) else Substitute(c, text, d2);
      DefaultsKeep(h, env, todo[1..], given, values[key := r.text], r.drawn, key);
      assert again[key] == r.text;
      if r.text == "" { ResolveQuietly(c, Segments(text), d, d2); }
      assert r2.text == r.text;
      DefaultsAgain(h, env, todo[1..], given, again, values[key := r.text], r.drawn, r2.drawn);
    }
  }

  lemma {:induction false} InputsKeep(h: Host, todo: seq<(string, InputSpec)>, given: map<string, string>, data: Data,
                                      missing: seq<string>, drawn: seq<nat>, key: string)
    requires key in data.inputs && forall i :: 0 <= i < |todo| ==> todo[i].0 != key
    ensures var r := InputsFrom(h, todo, given, data, missing, drawn).inputs; key in r && r[key] == data.inputs[key]
    decreases |todo|
  {
    if todo != [] {
      var ((k, spec), c) := (todo[0], Context(h, data));
      var value := FieldValue(c, k, spec, given, drawn);
      var (lacking, after) := Field(c, spec, value);
      InputsKeep(h, todo[1..], given, data.(inputs := data.inputs[k := value.text]),
                 if lacking then missing + [k] else missing, after, key);
    }
  }

  lemma {:induction false} InputsAgain(h: Host, todo: seq<(string, InputSpec)>, given: map<string, string>,
                                       again: map<string, string>, data: Data, missing: seq<string>,
                                       d: seq<nat>, d2: seq<nat>)
    requires DistinctKeys(todo) && InputsSettle(h, todo, given, data, d)
    requires again == InputsFrom(h, todo, given, data, missing, d).inputs
    ensures var f, f2 := InputsFrom(h, todo, given, data, missing, d), InputsFrom(h, todo, again, data, missing, d2);
            f2.inputs == f.inputs && f2.missing == f.missing
    decreases |todo|
  {
    if todo != [] {
      var ((key, spec), c) := (todo[0], Context(h, data));
      var value, value2 := FieldValue(c, key, spec, given, d), FieldValue(c, key, spec, again, d2);
      var ((lacking, after), (lacking2, after2)) := (Field(c, spec, value), Field(c, spec, value2));
      var next := data.(inputs := data.inputs[key := value.text]);
      var missing' := if lacking then missing + [key] else missing;
      InputsKeep(h, todo[1..], given, next, missing', after, key);
      assert again[key] == value.text;
      if value.text == "" { ResolveQuietly(c, Segments(spec.initial), d, d2); }
      assert value2.text == value.text;
      EvaluateQuietly(c, spec.cond, value.drawn, value2.drawn);
      assert lacking2 == lacking;
      InputsAgain(h, todo[1..], given, again, next, missing', after, after2);
    }
  }

  /** Both passes come to the same values again, and nothing is missing that was not. */
  lemma PassesAgain(h: Host, t: Template, req: Request, env: map<string, string>, d: seq<nat>, d2: seq<nat>)
    requires DistinctKeys(t.defaults) && DistinctKeys(t.inputs) && Settles(h, t, req, env, d)
    ensures var p := DefaultsFrom(h, env, t.defaults, req.defaults, map[], d);
            var q := DefaultsFrom(h, env, t.defaults, p.values, map[], d2);
            var f := InputsFrom(h, t.inputs, req.inputs, Data(p.values, map[], env), [], p.drawn);
            var g := InputsFrom(h, t.inputs, f.inputs, Data(q.values, map[], env), [], q.drawn);
            q.values == p.values && g.inputs == f.inputs && g.missing == f.missing
  {
    var p := DefaultsFrom(h, env, t.defaults, req.defaults, map[], d);
    DefaultsAgain(h, env, t.defaults, req.defaults, p.values, map[], d, d2);
    var q := DefaultsFrom(h, env, t.defaults, p.values, map[], d2);
    var data := Data(p.values, map[], env);
    var f := InputsFrom(h, t.inputs, req.inputs, data, [], p.drawn);
    InputsAgain(h, t.inputs, req.inputs, f.inputs, data, [], p.drawn, q.drawn);
  }

  /** Deploying with the defaults and inputs a preview answered renders the previewed documents, with the
      previewed values, whatever the random source answers the second time, when the preview drew
      only for defaults and fields that came out non-empty. */
  lemma DeployRendersPreview(h: Host, g: Gateway, t: Template, req: Request, env: map<string, string>, d: seq<nat>,
                             d2: seq<nat>)
    requires DistinctKeys(t.defaults) && DistinctKeys(t.inputs) && Settles(h, t, req, env, d)
    ensures var preview := RenderAll(h, g, t, req, env, d);
            var deploy := RenderAll(h, g, t, Request(preview.data.defaults, preview.data.inputs), env, d2);
            && deploy.data == preview.data && deploy.documents == preview.documents && deploy.missing == preview.missing
            && (Given(preview.data.defaults, "app_name") ==> deploy.instance == preview.instance)
  {
    PassesAgain(h, t, req, env, d, d2);
    var p := DefaultsFrom(h, env, t.defaults, req.defaults, map[], d);
    var f := InputsFrom(h, t.inputs, req.inputs, Data(p.values, map[], env), [], p.drawn);
    var q := DefaultsFrom(h, env, t.defaults, p.values, map[], d2);
    var again := InputsFrom(h, t.inputs, f.inputs, Data(q.values, map[], env), [], q.drawn);
    SameText(Context(h, Data(p.values, f.inputs, env)), t.manifests, f.drawn, again.drawn);
  }

  /** Manifests that draw nothing come out the same whatever has been drawn before. */
  lemma SameText(c: Context, manifests: string, d: seq<nat>, d2: seq<nat>)
    requires RenderText(c, manifests, d).drawn == d
    ensures RenderText(c, manifests, d2).text == RenderText(c, manifests, d).text
    ensures RenderText(c, manifests, d + [6]).text == RenderText(c, manifests, d).text
    ensures RenderText(c, manifests, d2 + [6]).text == RenderText(c, manifests, d).text
  {
    RenderTextQuietly(c, manifests, d, d2);
    RenderTextQuietly(c, manifests, d, d + [6]);
    RenderTextQuietly(c, manifests, d, d2 + [6]);
  }
}
