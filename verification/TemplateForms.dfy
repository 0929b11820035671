/** What rendering a template comes to, written out (controllers/template.go and
    controllers/template_expr.go): what a placeholder is replaced with, when a branch holds, which fields
    are missing, and what the instance is called. */
module TemplateForms {
  import opened Common
  import opened TemplateValues
  import opened TemplateTokenizer
  import opened TemplateMeaning
  import opened TemplateBlocks
  import opened TemplateRender
  import L = TemplateLines

  /** The expression, as text, evaluates to x. */
  ghost predicate Evaluates(c: Context, expression: string, drawn: seq<nat>, x: Value, after: seq<nat>) {
    EvaluateText(c, expression, drawn) == Evaluated(Ok(x), after)
  }

  /** An expression is given a value that counts as true; an error does not. */
  ghost predicate ComesTrue(c: Context, expression: string, drawn: seq<nat>) {
    exists x, after :: Evaluates(c, expression, drawn, x, after) && !CountsAsFalse(c.host, x)
  }

  // ----- placeholders -----

  /** A placeholder becomes what its expression is written as, or nothing if that is in error; whatever
      stands beside it comes out as it would alone, and draws are made from left to right. */
  lemma {:induction false} PlaceholderBecomes(c: Context, e: string, rest: seq<Segment>, drawn: seq<nat>, x: Value,
                                              text: string, after: seq<nat>)
    ensures var r := Resolve(c, rest, after);
            Evaluates(c, e, drawn, x, after) && WrittenAs(c.host, x, text) ==>
              Resolve(c, [Placeholder(e)] + rest, drawn) == Drawn(text + r.text, r.drawn)
    ensures forall error ::
              var r := Resolve(c, rest, after);
              EvaluateText(c, e, drawn) == Evaluated(Err(error), after) ==>
                Resolve(c, [Placeholder(e)] + rest, drawn) == r
  {
    assert ([Placeholder(e)] + rest)[1..] == rest;
    assert "" + Resolve(c, rest, after).text == Resolve(c, rest, after).text;
  }

  lemma {:induction false} LiteralStays(c: Context, ch: char, rest: seq<Segment>, drawn: seq<nat>)
    ensures var r := Resolve(c, rest, drawn);
            && Resolve(c, [Literal(ch)] + rest, drawn) == Drawn([ch] + r.text, r.drawn)
            && Resolve(c, [], drawn) == Drawn("", drawn)
  {
    assert ([Literal(ch)] + rest)[1..] == rest;
  }

  // ----- branches -----

  /** A branch holds when its condition comes true. */
  lemma HoldsIffTrue(c: Context, cond: string, out: Output)
    ensures Holds(c, cond, out) <==> ComesTrue(c, cond, out.drawn)
  {
    var v := EvaluateText(c, cond, out.drawn);
    if v.res.Ok? { assert Evaluates(c, cond, out.drawn, v.res.value, v.drawn); }
  }

  /** The blocks go first: what is cut is not looked at for placeholders, and what is left is. */
  lemma CutIsNotEvaluated(c: Context, d: Doc, end: string, drawn: seq<nat>)
    requires Flatten(d) != [] && (forall i :: 0 <= i < |Flatten(d)| ==> IsWritable(Flatten(d)[i]))
    requires end == "\n" || end == "\r\n"
    ensures var left := RenderDoc(c, d, Output([], [], drawn));
            RenderText(c, Join(WriteLines(Flatten(d)), end), drawn) ==
              Resolve(c, Segments(Join(left.kept, "\n")), left.drawn)
  {
    TextRendersTree(c, d, end, drawn);
  }

  // ----- the form -----

  /** A field's value: what was filled in, if anything, and otherwise its default. */
  ghost predicate IsValue(c: Context, spec: InputSpec, key: string, given: map<string, string>, drawn: seq<nat>,
                          value: Drawn) {
    if key in given && given[key] != "" then value == Drawn(given[key], drawn)
    else value == Resolve(c, Segments(spec.initial), drawn)
  }

  /** A field is missing when it is required, its value is blank, and it is asked for at all. */
  ghost predicate IsMissing(c: Context, spec: InputSpec, value: Drawn) {
    spec.required && Blank(value.text) && (Blank(spec.cond) || ComesTrue(c, spec.cond, value.drawn))
  }

  /** The condition is evaluated only to find out about a required field that is left blank. */
  ghost function AfterAsking(c: Context, spec: InputSpec, value: Drawn): seq<nat> {
    if spec.required && Blank(value.text) && !Blank(spec.cond) then EvaluateText(c, spec.cond, value.drawn).drawn
    else value.drawn
  }

  lemma FieldIsMissing(c: Context, spec: InputSpec, value: Drawn)
    ensures Field(c, spec, value).0 <==> IsMissing(c, spec, value)
    ensures Field(c, spec, value).1 == AfterAsking(c, spec, value)
  {
    var v := EvaluateText(c, spec.cond, value.drawn);
    if v.res.Ok? { assert Evaluates(c, spec.cond, value.drawn, v.res.value, v.drawn); }
  }

  /** The form, field by field: each has its value, the ones missing are listed in order, and each field
      sees the values of those before it. */
  ghost predicate FormIs(h: Host, todo: seq<(string, InputSpec)>, given: map<string, string>, data: Data,
                         missing: seq<string>, drawn: seq<nat>, f: Form)
    decreases |todo|
  {
    if todo == [] then f == Form(data.inputs, missing, drawn)
    else
      var ((key, spec), c) := (todo[0], Context(h, data));
      exists value :: IsValue(c, spec, key, given, drawn, value)
        && FormIs(h, todo[1..], given, data.(inputs := data.inputs[key := value.text]),
                  missing + (if IsMissing(c, spec, value) then [key] else []), AfterAsking(c, spec, value), f)
  }

  lemma {:induction false} InputsAre(h: Host, todo: seq<(string, InputSpec)>, given: map<string, string>, data: Data,
                                     missing: seq<string>, drawn: seq<nat>)
    ensures FormIs(h, todo, given, data, missing, drawn, InputsFrom(h, todo, given, data, missing, drawn))
    decreases |todo|
  {
    if todo != [] {
      var ((key, spec), c) := (todo[0], Context(h, data));
      var value := FieldValue(c, key, spec, given, drawn);
      var (lacking, after) := Field(c, spec, value);
      FieldIsMissing(c, spec, value);
      var now := if lacking then missing + [key] else missing;
      assert missing + [] == missing;
      InputsAre(h, todo[1..], given, data.(inputs := data.inputs[key := value.text]), now, after);
      assert IsValue(c, spec, key, given, drawn, value);
    }
  }

  // ----- a template's own values -----

  /** A value of the template itself: what is given back, if anything, and otherwise its text rendered
      with the values before it. */
  lemma {:induction false} DefaultIs(h: Host, env: map<string, string>, key: string, text: string,
                                     rest: seq<(string, string)>, given: map<string, string>,
                                     values: map<string, string>, drawn: seq<nat>)
    ensures var r := Resolve(Context(h, Data(values, map[], env)), Segments(text), drawn);
            DefaultsFrom(h, env, [(key, text)] + rest, given, values, drawn) ==
              if key in given && given[key] != "" then
                DefaultsFrom(h, env, rest, given, values[key := given[key]], drawn)
              else DefaultsFrom(h, env, rest, given, values[key := r.text], r.drawn)
    ensures DefaultsFrom(h, env, [], given, values, drawn) == Defaults(values, drawn)
  {
    assert ([(key, text)] + rest)[1..] == rest;
  }

  // ----- the whole -----

  /** The instance is called what the template's app_name is, and without one by the template's name and
      six characters drawn after everything else; the documents are those of the rendered text, with its
      addresses rewritten where the app gateway serves the domain. */
  lemma {:induction false} RenderedIs(h: Host, g: Gateway, t: Template, req: Request, env: map<string, string>,
                                      drawn: seq<nat>) returns (d: Defaults, f: Form)
    ensures d == DefaultsFrom(h, env, t.defaults, req.defaults, map[], drawn)
    ensures FormIs(h, t.inputs, req.inputs, Data(d.values, map[], env), [], d.drawn, f)
    ensures IsRendered(h, g, t, env, d.values, f, RenderAll(h, g, t, req, env, drawn))
  {
    d := DefaultsFrom(h, env, t.defaults, req.defaults, map[], drawn);
    f := InputsFrom(h, t.inputs, req.inputs, Data(d.values, map[], env), [], d.drawn);
    InputsAre(h, t.inputs, req.inputs, Data(d.values, map[], env), [], d.drawn);
  }

  ghost predicate IsRendered(h: Host, g: Gateway, t: Template, env: map<string, string>, values: map<string, string>,
                             f: Form, r: Rendered) {
    var named := "app_name" in values && values["app_name"] != "";
    && r.data == Data(values, f.inputs, env) && r.missing == f.missing
    && r.instance == (if named then values["app_name"] else t.name + "-" + h.random(|f.drawn|, 6))
    && DocumentsAre(h, g, t.manifests, r.data, env, if named then f.drawn else f.drawn + [6], r.documents)
  }

  ghost predicate DocumentsAre(h: Host, g: Gateway, manifests: string, data: Data, env: map<string, string>,
                               drawn: seq<nat>, documents: seq<string>) {
    var text := RenderText(Context(h, data), manifests, drawn).text;
    var domain := if "SEALOS_CLOUD_DOMAIN" in env then env["SEALOS_CLOUD_DOMAIN"] else "";
    var suffix := if "CASOS_APP_PORT_SUFFIX" in env then env["CASOS_APP_PORT_SUFFIX"] else "";
    documents == L.Documents(if g.serves(domain) then g.addresses(text, domain, suffix) else text)
  }
}
