/** Variables in a compose file (interpolate in controllers/compose.go): the regular expression that
    finds a reference written out as a scanner, and what each of the forms stands for. The forms are
    those of the "Interpolation" section of the Compose Specification. */
module Interpolate {
  import opened Common

  datatype Found = NotFound | Found(ref: Ref, length: nat)

  /** Plain, or one of - + ? with or without a colon before it. */
  datatype Form = Plain | Op(sign: char, colon: bool)

  datatype Ref = Dollar | Variable(name: string, form: Form, arg: string)

  predicate IsNameStart(c: char) { 'A' <= c <= 'Z' || 'a' <= c <= 'z' || c == '_' }
  predicate IsNameChar(c: char) { IsNameStart(c) || '0' <= c <= '9' }
  predicate IsSign(c: char) { c == '-' || c == '?' || c == '+' }
  predicate NotClosing(c: char) { c != '}' }

  // ----- finding references -----

  /** The length of the name at the front of s, 0 if there is none. */
  function NameLength(s: string): (n: nat)
    ensures n <= |s|
  {
    if s == "" || !IsNameStart(s[0]) then 0 else RunOf(s, IsNameChar)
  }

  /** What follows the name inside braces: the form, and the length of its sign. */
  function FormAt(s: string): (r: (Form, nat))
    ensures r.1 <= |s|
  {
    if |s| >= 2 && s[0] == ':' && IsSign(s[1]) then (Op(s[1], true), 2)
    else if |s| >= 1 && IsSign(s[0]) then (Op(s[0], false), 1)
    else (Plain, 0)
  }

  /** What follows an opening brace, up to and with the closing one. */
  function BracesAt(s: string): (r: Found)
    ensures r.Found? ==> 0 < r.length <= |s|
  {
    var n := NameLength(s);
    var (form, k) := FormAt(s[n..]);
    var rest := s[n + k..];
    var a := if form == Plain then 0 else RunOf(rest, NotClosing);
    if n == 0 || a == |rest| || rest[a] != '}' then NotFound
    else Found(Variable(s[..n], form, rest[..a]), n + k + a + 1)
  }

  /** The reference at the front of s, which starts with a dollar sign, and its length. */
  function RefAt(s: string): (r: Found)
    requires s != "" && s[0] == '$'
    ensures r.Found? ==> 0 < r.length <= |s|
  {
    if |s| >= 2 && s[1] == '$' then Found(Dollar, 2)
    else if |s| >= 2 && s[1] == '{' then
      var b := BracesAt(s[2..]);
      if b.NotFound? then b else Found(b.ref, b.length + 2)
    else
      var n := NameLength(s[1..]);
      if n == 0 then NotFound else Found(Variable(s[1..1 + n], Plain, ""), 1 + n)
  }

  // ----- what they stand for -----

  function Value(r: Ref, env: map<string, string>): string {
    if r.Dollar? then "$"
    else
      var isSet := r.name in env;
      var value := if isSet then env[r.name] else "";
      match r.form
      case Plain => value
      case Op(sign, colon) =>
        var absent := !isSet || (colon && value == "");
        if sign == '-' && absent then r.arg
        else if sign == '+' then if absent then "" else r.arg
        else value
  }

  /** The reference wants a value nothing gives it. */
  predicate Lacks(r: Ref, env: map<string, string>) {
    && r.Variable?
    && match r.form
       case Plain => r.name !in env
       case Op(sign, colon) => sign != '-' && sign != '+' && (r.name !in env || (colon && env[r.name] == ""))
  }

  /** The text with its references resolved, and the names found missing. */
  datatype Resolved = Resolved(text: string, missing: set<string>)

  /** What stands first in s: what it becomes, the names it lacks, and how much of s it is. A
      dollar sign that starts no reference stands for itself. */
  datatype Piece = Piece(text: string, lacking: set<string>, length: nat)

  function FirstPiece(s: string, env: map<string, string>): (p: Piece)
    requires s != ""
    ensures 0 < p.length <= |s|
  {
    var found := if s[0] == '$' then RefAt(s) else NotFound;
    if found.NotFound? then Piece([s[0]], {}, 1)
    else Piece(Value(found.ref, env), if Lacks(found.ref, env) then {found.ref.name} else {}, found.length)
  }

  function Resolve(s: string, env: map<string, string>): Resolved
    decreases |s|
  {
    if s == "" then Resolved("", {})
    else
      var p := FirstPiece(s, env);
      var rest := Resolve(s[p.length..], env);
      Resolved(p.text + rest.text, p.lacking + rest.missing)
  }

  /** Replaces every reference, left to right, adding to the names already known to be missing. */
  method Interpolate(text: string, env: map<string, string>, known: set<string>)
      returns (out: string, missing: set<string>)
    ensures out == Resolve(text, env).text && missing == known + Resolve(text, env).missing
  {
    out, missing := "", known;
    ghost var all := Resolve(text, env);
    var tail := text;
    assert "" + all.text == all.text;
    while tail != ""
      invariant MakeUp(all, known, out, missing, Resolve(tail, env))
      decreases |tail|
    {
      var p := FirstPiece(tail, env);
      MakeUpOn(all, known, out, missing, Resolve(tail, env), p, Resolve(tail[p.length..], env));
      out, missing, tail := out + p.text, missing + p.lacking, tail[p.length..];
    }
    assert out + "" == out;
  }

  /** What is resolved so far and what the rest of the text becomes make up the whole. */
  ghost predicate MakeUp(all: Resolved, known: set<string>, out: string, missing: set<string>, rest: Resolved) {
    out + rest.text == all.text && missing + rest.missing == known + all.missing
  }

  lemma MakeUpOn(all: Resolved, known: set<string>, out: string, missing: set<string>, rest: Resolved, p: Piece,
                 next: Resolved)
    requires MakeUp(all, known, out, missing, rest) && rest == Resolved(p.text + next.text, p.lacking + next.missing)
    ensures MakeUp(all, known, out + p.text, missing + p.lacking, next)
  {
    Assoc(out, p.text, next.text);
  }

  // ----- writing references and reading them back -----

  datatype Segment = Literal(text: string) | Braced(ref: Ref) | Bare(name: string)

  predicate IsName(s: string) { s != "" && IsNameStart(s[0]) && forall i :: 0 <= i < |s| ==> IsNameChar(s[i]) }

  predicate Writable(seg: Segment) {
    match seg
    case Literal(_) => true
    case Bare(name) => IsName(name)
    case Braced(ref) =>
      && ref.Variable? && IsName(ref.name) && '}' !in ref.arg
      && match ref.form case Plain => ref.arg == "" case Op(sign, _) => IsSign(sign)
  }

  /** Every dollar sign doubled. */
  function Doubled(s: string): string {
    if s == "" then "" else (if s[0] == '$' then "$$" else [s[0]]) + Doubled(s[1..])
  }

  function FormText(f: Form): string {
    match f case Plain => "" case Op(sign, colon) => if colon then [':', sign] else [sign]
  }

  function Write(seg: Segment): string {
    match seg
    case Literal(text) => Doubled(text)
    case Braced(ref) => if ref.Dollar? then "$$" else "${" + (ref.name + (FormText(ref.form) + (ref.arg + "}")))
    case Bare(name) => "$" + name
  }

  function WriteAll(segs: seq<Segment>): string {
    if segs == [] then "" else Write(segs[0]) + WriteAll(segs[1..])
  }

  /** All can be written, and no bare name runs into what follows it. */
  ghost predicate WritableAll(segs: seq<Segment>) {
    segs != [] ==>
      && Writable(segs[0]) && WritableAll(segs[1..])
      && (segs[0].Bare? && WriteAll(segs[1..]) != "" ==> !IsNameChar(WriteAll(segs[1..])[0]))
  }

  function RefOf(seg: Segment): Option<Ref> {
    match seg
    case Literal(_) => None
    case Braced(ref) => Some(ref)
    case Bare(name) => Some(Variable(name, Plain, ""))
  }

  function Denotes(segs: seq<Segment>, env: map<string, string>): string {
    if segs == [] then ""
    else (if segs[0].Literal? then segs[0].text else Value(RefOf(segs[0]).value, env)) + Denotes(segs[1..], env)
  }

  /** The names some reference of the list lacks. */
  ghost function MissingIn(segs: seq<Segment>, env: map<string, string>): set<string> {
    set i | 0 <= i < |segs| && RefOf(segs[i]).Some? && Lacks(RefOf(segs[i]).value, env) :: RefOf(segs[i]).value.name
  }

  lemma BareIsFound(name: string, tail: string)
    requires IsName(name) && (tail != "" ==> !IsNameChar(tail[0]))
    ensures RefAt("$" + name + tail) == Found(Variable(name, Plain, ""), |name| + 1)
  {
    var s := "$" + name + tail;
    assert s[1..] == name + tail && s[1] == name[0];
    RunEnds(s[1..], IsNameChar, |name|);
  }

  lemma BracedIsFound(ref: Ref, tail: string)
    requires Writable(Braced(ref))
    ensures RefAt(Write(Braced(ref)) + tail) == Found(ref, |Write(Braced(ref))|)
  {
    var s, form, rest := Write(Braced(ref)) + tail, FormText(ref.form), ref.arg + ("}" + tail);
    var body := ref.name + (form + rest);
    assert s == "${" + body by { AssocBraces(ref.name, form, ref.arg, tail); }
    BracesOpen(s, body);
    assert BracesAt(body) == Found(ref, |ref.name| + |form| + |ref.arg| + 1) by {
      BracesAreFound(ref, form, body, form + rest, rest);
    }
    assert |Write(Braced(ref))| == |ref.name| + |form| + |ref.arg| + 3;
  }

  lemma BracesOpen(s: string, body: string)
    requires s == "${" + body
    ensures RefAt(s) == var b := BracesAt(body); if b.NotFound? then b else Found(b.ref, b.length + 2)
  {
    assert s[2..] == body;
  }

  lemma AssocBraces(name: string, form: string, arg: string, tail: string)
    ensures ("${" + (name + (form + (arg + "}")))) + tail == "${" + (name + (form + (arg + ("}" + tail))))
  {
    Assoc(arg, "}", tail);
    Assoc(form, arg + "}", tail);
    Assoc(name, form + (arg + "}"), tail);
    Assoc("${", name + (form + (arg + "}")), tail);
  }

  lemma {:induction false} BracesAreFound(ref: Ref, form: string, s: string, afterName: string, afterForm: string)
    requires Writable(Braced(ref)) && form == FormText(ref.form)
    requires |ref.name| <= |s| && s[..|ref.name|] == ref.name && s[|ref.name|..] == afterName
    requires afterName == form + afterForm
    requires |ref.arg| < |afterForm| && afterForm[..|ref.arg|] == ref.arg && afterForm[|ref.arg|] == '}'
    ensures BracesAt(s) == Found(ref, |ref.name| + |form| + |ref.arg| + 1)
  {
    var (n, k, a) := (|ref.name|, |form|, |ref.arg|);
    assert afterName[0] == if ref.form.Plain? then '}' else form[0];
    NameEnds(ref.name, s, afterName);
    FormIsFound(ref.form, afterForm);
    CutPast(s, n, form, afterForm);
    RunEnds(afterForm, NotClosing, a);
    BracesAtIs(s, n, ref.form, k, a);
    assert ref == Variable(s[..n], ref.form, s[n + k..][..a]);
  }

  lemma CutPast(s: string, n: nat, form: string, rest: string)
    requires n <= |s| && s[n..] == form + rest
    ensures n + |form| <= |s| && s[n + |form|..] == rest
  {
    assert s[n..][|form|..] == rest;
  }

  /** The parts of a reference in braces, found one after the other. */
  lemma {:induction false} BracesAtIs(s: string, n: nat, form: Form, k: nat, a: nat)
    requires 0 < n == NameLength(s) && FormAt(s[n..]) == (form, k)
    requires n + k + a < |s| && s[n + k + a] == '}'
    requires a == if form == Plain then 0 else RunOf(s[n + k..], NotClosing)
    ensures BracesAt(s) == Found(Variable(s[..n], form, s[n + k..][..a]), n + k + a + 1)
  {
  }

  lemma NameEnds(name: string, s: string, rest: string)
    requires IsName(name) && |name| <= |s| && s[..|name|] == name && s[|name|..] == rest && rest != ""
    requires !IsNameChar(rest[0])
    ensures NameLength(s) == |name|
  {
    assert forall i :: 0 <= i < |name| ==> s[i] == name[i];
    RunEnds(s, IsNameChar, |name|);
  }

  lemma FormIsFound(f: Form, tail: string)
    requires f.Op? ==> IsSign(f.sign)
    requires f.Plain? ==> tail != "" && tail[0] == '}'
    ensures FormAt(FormText(f) + tail) == (f, |FormText(f)|)
  {
  }

  lemma {:induction false} ResolveDoubled(text: string, tail: string, env: map<string, string>)
    ensures var r, t := Resolve(Doubled(text) + tail, env), Resolve(tail, env);
            r.text == text + t.text && r.missing == t.missing
    decreases |text|
  {
    if text == "" { assert Doubled(text) + tail == tail && text + Resolve(tail, env).text == Resolve(tail, env).text; }
    else {
      ResolveDoubled(text[1..], tail, env);
      ResolveChar(text[0], Doubled(text[1..]) + tail, env);
      Assoc(if text[0] == '$' then "$$" else [text[0]], Doubled(text[1..]), tail);
      Assoc([text[0]], text[1..], Resolve(tail, env).text);
      assert [text[0]] + text[1..] == text;
    }
  }

  lemma ResolveChar(c: char, tail: string, env: map<string, string>)
    ensures var r, t := Resolve((if c == '$' then "$$" else [c]) + tail, env), Resolve(tail, env);
            r.text == [c] + t.text && r.missing == t.missing
  {
    var s := (if c == '$' then "$$" else [c]) + tail;
    assert s[(if c == '$' then 2 else 1)..] == tail;
  }

  lemma ResolveOne(seg: Segment, tail: string, env: map<string, string>)
    requires Writable(seg) && !seg.Literal? && (seg.Bare? && tail != "" ==> !IsNameChar(tail[0]))
    ensures var r, t, ref := Resolve(Write(seg) + tail, env), Resolve(tail, env), RefOf(seg).value;
            r.text == Value(ref, env) + t.text && r.missing == (if Lacks(ref, env) then {ref.name} else {}) + t.missing
  {
    var s := Write(seg) + tail;
    if seg.Bare? { BareIsFound(seg.name, tail); } else { BracedIsFound(seg.ref, tail); }
    assert s[0] == '$' && s[|Write(seg)|..] == tail;
  }

  /** Whatever literals and references are written down, interpolating gives what they denote, the
      inserted values untouched, and reports exactly the names that lack a value. */
  lemma {:induction false} ResolveWritten(segs: seq<Segment>, env: map<string, string>)
    requires WritableAll(segs)
    ensures Resolve(WriteAll(segs), env) == Resolved(Denotes(segs, env), MissingIn(segs, env))
    decreases |segs|
  {
    if segs != [] {
      var tail := WriteAll(segs[1..]);
      ResolveWritten(segs[1..], env);
      if segs[0].Literal? { ResolveDoubled(segs[0].text, tail, env); } else { ResolveOne(segs[0], tail, env); }
      MissingCons(segs, env);
    }
  }

  lemma MissingCons(segs: seq<Segment>, env: map<string, string>)
    requires segs != []
    ensures MissingIn(segs, env) == MissingIn(segs[1..], env) +
              if RefOf(segs[0]).Some? && Lacks(RefOf(segs[0]).value, env) then {RefOf(segs[0]).value.name} else {}
  {
    forall i | 0 < i < |segs| ensures segs[i] == segs[1..][i - 1] {}
  }

  // ----- what each form comes to -----

  /** A piece of text and the names it lacks, before the rest. */
  function Before(text: string, lacking: set<string>, rest: Resolved): Resolved {
    Resolved(text + rest.text, lacking + rest.missing)
  }

  lemma RefGives(ref: Ref, text: string, tail: string, env: map<string, string>)
    requires Writable(Braced(ref)) && text == Write(Braced(ref))
    ensures Resolve(text + tail, env) ==
              Before(Value(ref, env), if Lacks(ref, env) then {ref.name} else {}, Resolve(tail, env))
  {
    ResolveOne(Braced(ref), tail, env);
  }

  /** ${name:-arg}, ${name-arg}, ${name:+arg} and ${name+arg} are the value or arg, by whether the variable
      is set, and with a colon by whether it is set to something. None of them lacks anything. */
  lemma DefaultsGive(name: string, arg: string, tail: string, env: map<string, string>)
    requires IsName(name) && '}' !in arg
    ensures Resolve("${" + (name + (":-" + (arg + "}"))) + tail, env) ==
              Before(if name in env && env[name] != "" then env[name] else arg, {}, Resolve(tail, env))
    ensures Resolve("${" + (name + ("-" + (arg + "}"))) + tail, env) ==
              Before(if name in env then env[name] else arg, {}, Resolve(tail, env))
    ensures Resolve("${" + (name + (":+" + (arg + "}"))) + tail, env) ==
              Before(if name in env && env[name] != "" then arg else "", {}, Resolve(tail, env))
    ensures Resolve("${" + (name + ("+" + (arg + "}"))) + tail, env) ==
              Before(if name in env then arg else "", {}, Resolve(tail, env))
  {
    RefGives(Variable(name, Op('-', true), arg), "${" + (name + (":-" + (arg + "}"))), tail, env);
    RefGives(Variable(name, Op('-', false), arg), "${" + (name + ("-" + (arg + "}"))), tail, env);
    RefGives(Variable(name, Op('+', true), arg), "${" + (name + (":+" + (arg + "}"))), tail, env);
    RefGives(Variable(name, Op('+', false), arg), "${" + (name + ("+" + (arg + "}"))), tail, env);
  }

  /** ${name:?arg}, ${name?arg}, ${name} and $name are the value, empty if there is none; the name is
      missing when it is not set, and with a colon also when it is set to nothing. */
  lemma RequiredGive(name: string, arg: string, tail: string, env: map<string, string>)
    requires IsName(name) && '}' !in arg
    ensures var value := if name in env then env[name] else "";
            var unset := if name in env then {} else {name};
            var empty := if name in env && env[name] != "" then {} else {name};
            && Resolve("${" + (name + (":?" + (arg + "}"))) + tail, env) == Before(value, empty, Resolve(tail, env))
            && Resolve("${" + (name + ("?" + (arg + "}"))) + tail, env) == Before(value, unset, Resolve(tail, env))
            && Resolve("${" + (name + "}") + tail, env) == Before(value, unset, Resolve(tail, env))
            && (tail == "" || !IsNameChar(tail[0]) ==>
                  Resolve("$" + name + tail, env) == Before(value, unset, Resolve(tail, env)))
  {
    RefGives(Variable(name, Op('?', true), arg), "${" + (name + (":?" + (arg + "}"))), tail, env);
    RefGives(Variable(name, Op('?', false), arg), "${" + (name + ("?" + (arg + "}"))), tail, env);
    assert name + ("" + ("" + "}")) == name + "}";
    RefGives(Variable(name, Plain, ""), "${" + (name + "}"), tail, env);
    if tail == "" || !IsNameChar(tail[0]) { ResolveOne(Bare(name), tail, env); }
  }

  /** Two dollar signs are one, and any other character stands for itself. */
  lemma OthersGive(c: char, tail: string, env: map<string, string>)
    ensures Resolve("$$" + tail, env) == Before("$", {}, Resolve(tail, env))
    ensures c != '$' ==> Resolve([c] + tail, env) == Before([c], {}, Resolve(tail, env))
    ensures c != '$' && c != '{' && !IsNameStart(c) ==>
              Resolve("$" + ([c] + tail), env) == Before("$", {}, Resolve([c] + tail, env))
  {
    assert ("$$" + tail)[2..] == tail && ([c] + tail)[1..] == tail && ("$" + ([c] + tail))[1..] == [c] + tail;
  }

  /** Nothing else is taken for a reference: one that is found stands there as it is written. */
  lemma {:induction false} FoundIsWritten(s: string, ref: Ref, n: nat)
    requires s != "" && s[0] == '$' && RefAt(s) == Found(ref, n)
    ensures n <= |s|
    ensures if ref.Dollar? then s[..n] == "$$"
            else
                && Writable(Braced(ref))
                && (s[..n] == Write(Braced(ref)) || (ref.form == Plain && s[..n] == "$" + ref.name))
  {
    if |s| >= 2 && s[1] == '$' {
      assert s[..2] == "$$";
    } else if |s| >= 2 && s[1] == '{' {
      OpenedIsWritten(s, ref, n);
    } else {
      BareIsWritten(s, ref, n);
    }
  }

  lemma {:induction false} OpenedIsWritten(s: string, ref: Ref, n: nat)
    requires |s| >= 2 && s[0] == '$' && s[1] == '{' && RefAt(s) == Found(ref, n)
    ensures n <= |s| && ref.Variable? && Writable(Braced(ref)) && s[..n] == Write(Braced(ref))
  {
    assert BracesAt(s[2..]) == Found(ref, n - 2);
    BracesAreWritten(s[2..], ref, n - 2);
    assert s[..n] == "${" + s[2..][..n - 2];
  }

  lemma {:induction false} BareIsWritten(s: string, ref: Ref, n: nat)
    requires s != "" && s[0] == '$' && (|s| >= 2 ==> s[1] != '$' && s[1] != '{') && RefAt(s) == Found(ref, n)
    ensures n <= |s| && ref.Variable? && Writable(Braced(ref)) && ref.form == Plain && s[..n] == "$" + ref.name
  {
    assert ref == Variable(s[1..n], Plain, "") && n == 1 + NameLength(s[1..]);
    assert forall i :: 0 <= i < n - 1 ==> s[1..n][i] == s[1..][i];
  }

  lemma {:induction false} BracesAreWritten(s: string, ref: Ref, n: nat)
    requires BracesAt(s) == Found(ref, n)
    ensures ref.Variable? && Writable(Braced(ref)) && n <= |s|
    ensures s[..n] == ref.name + (FormText(ref.form) + (ref.arg + "}"))
  {
    var k := NameLength(s);
    var (m, a) := (FormAt(s[k..]).1, |ref.arg|);
    BracesAtHas(s, ref, n);
    FormIsWritten(s[k..]);
    CutInFour(s, k, k + m, k + m + a);
    assert s[k..k + m] == s[k..][..m] && s[k + m..k + m + a] == s[k + m..][..a];
  }

  lemma {:induction false} BracesAtHas(s: string, ref: Ref, n: nat)
    requires BracesAt(s) == Found(ref, n)
    ensures var k := NameLength(s);
            var (form, m) := FormAt(s[k..]);
            && ref.Variable? && ref.name == s[..k] && IsName(ref.name) && ref.form == form && '}' !in ref.arg
            && (form == Plain ==> ref.arg == "") && (form.Op? ==> IsSign(form.sign))
            && n == k + m + |ref.arg| + 1 <= |s| && s[k + m..][..|ref.arg|] == ref.arg && s[n - 1] == '}'
  {
  }

  lemma {:induction false} FormIsWritten(s: string)
    ensures s[..FormAt(s).1] == FormText(FormAt(s).0)
  {
  }

  lemma CutInFour(s: string, a: nat, b: nat, c: nat)
    requires a <= b <= c < |s|
    ensures s[..c + 1] == s[..a] + (s[a..b] + (s[b..c] + [s[c]]))
  {
  }

  /** The characters of a name, of which a digit is not the first. */
  lemma NamesAre(c: char)
    ensures IsNameStart(c) <==>
              c in {'a', 'b', 'c', 'd', 'e', 'f', 'g', 'h', 'i', 'j', 'k', 'l', 'm', 'n', 'o', 'p', 'q', 'r', 's', 't',
                    'u', 'v', 'w', 'x', 'y', 'z', 'A', 'B', 'C', 'D', 'E', 'F', 'G', 'H', 'I', 'J', 'K', 'L', 'M', 'N',
                    'O', 'P', 'Q', 'R', 'S', 'T', 'U', 'V', 'W', 'X', 'Y', 'Z', '_'}
    ensures IsNameChar(c) <==> IsNameStart(c) || c in {'0', '1', '2', '3', '4', '5', '6', '7', '8', '9'}
  {
  }
}
