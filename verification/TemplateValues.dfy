/** The values a template placeholder can take and the operations on them
    (controllers/template_expr.go). */
module TemplateValues {
  import opened Common

  datatype Value = Nil | Bool(b: bool) | Num(n: Float64) | Str(s: string)

  datatype Error =
    | UnterminatedString
    | UnexpectedChar(c: char)
    | Unexpected(token: string)
    | UnexpectedEnd
    | MissingParen
    | MissingParenAfter(name: string)
    | ExpectedName(after: string)
    | BadNumber(text: string)
    | UnknownFunction(name: string)

  /** What the evaluator takes from its surroundings. Every statement of this project that
      mentions a host holds for every host. random(n, length) is the string the n-th draw of
      the random source answers when asked for that many characters. */
  datatype Host = Host(
    parseFloat: string -> Option<Float64>,
    formatFloat: Float64 -> string,
    addFloat: (Float64, Float64) -> Float64,
    lessFloat: (Float64, Float64) -> bool,
    atMostFloat: (Float64, Float64) -> bool,
    isZero: Float64 -> bool,
    toInt: Float64 -> int,
    encode64: string -> string,
    decode64: string -> Option<string>,
    random: (nat, nat) -> string)

  /** Everything a placeholder may refer to. */
  datatype Data = Data(defaults: map<string, string>, inputs: map<string, string>, env: map<string, string>)
  {
    function Lookup(path: seq<string>): Option<string> {
      if |path| == 2 && path[0] == "defaults" then Find(defaults, path[1])
      else if |path| == 2 && path[0] == "inputs" then Find(inputs, path[1])
      else if |path| == 1 && path[0] in env then Some(env[path[0]])
      else if |path| == 1 && path[0] in defaults then Some(defaults[path[0]])
      else if |path| == 1 then Find(inputs, path[0])
      else None
    }
  }

  datatype Context = Context(host: Host, data: Data)

  function Find(m: map<string, string>, key: string): Option<string> {
    if key in m then Some(m[key]) else None
  }

  function Truthy(h: Host, v: Value): bool {
    match v
    case Nil => false
    case Bool(b) => b
    case Num(n) => !h.isZero(n)
    case Str(s) => s != "" && s != "false"
  }

  function ValueToString(h: Host, v: Value): string {
    match v
    case Nil => ""
    case Bool(b) => if b then "true" else "false"
    case Num(n) => h.formatFloat(n)
    case Str(s) => s
  }

  function ToNumber(h: Host, v: Value): Option<Float64> {
    match v
    case Num(n) => Some(n)
    case Str(s) => h.parseFloat(s)
    case _ => None
  }

  const CompareOps: set<string> := {"===", "!==", "==", "!=", ">=", "<=", ">", "<"}

  type CompareOp = s: string | s in CompareOps witness "=="

  /** Go orders strings by their bytes, which for UTF-8 is the order of the characters. */
  predicate StringLess(a: string, b: string) {
    if b == "" then false
    else if a == "" then true
    else a[0] < b[0] || (a[0] == b[0] && StringLess(a[1..], b[1..]))
  }

  function CompareValues(h: Host, op: CompareOp, left: Value, right: Value): bool {
    var l, r := ToNumber(h, left), ToNumber(h, right);
    var lt, rt := ValueToString(h, left), ValueToString(h, right);
    if l.Some? && r.Some? && op == ">=" then h.atMostFloat(r.value, l.value)
    else if l.Some? && r.Some? && op == "<=" then h.atMostFloat(l.value, r.value)
    else if l.Some? && r.Some? && op == ">" then h.lessFloat(r.value, l.value)
    else if l.Some? && r.Some? && op == "<" then h.lessFloat(l.value, r.value)
    else if op == "===" || op == "==" then lt == rt
    else if op == "!==" || op == "!=" then lt != rt
    else if op == ">" then StringLess(rt, lt)
    else if op == "<" then StringLess(lt, rt)
    else if op == ">=" then !StringLess(lt, rt)
    else !StringLess(rt, lt)
  }

  /** Of two strings one is less, or they are the same. */
  lemma {:induction false} StringsAreOrdered(a: string, b: string)
    ensures a == b ==> !StringLess(a, b) && !StringLess(b, a)
    ensures a != b ==> StringLess(a, b) == !StringLess(b, a)
    decreases |a|
  {
    if a != "" && b != "" && a[0] == b[0] {
      StringsAreOrdered(a[1..], b[1..]);
      assert a == [a[0]] + a[1..] && b == [b[0]] + b[1..];
    }
  }

  lemma {:induction false} StringLessOn(a: string, b: string, c: string)
    requires StringLess(a, b) && StringLess(b, c)
    ensures StringLess(a, c)
    decreases |a|
  {
    if a != "" && a[0] == b[0] == c[0] { StringLessOn(a[1..], b[1..], c[1..]); }
  }

  /** Unless both are numbers, two values compare in exactly one of the three ways, and the other
      operators say what these do; when both are numbers, equality still goes by how they are written. */
  lemma TextComparesOneWay(h: Host, l: Value, r: Value)
    ensures CompareValues(h, "!=", l, r) == !CompareValues(h, "==", l, r)
    ensures CompareValues(h, "==", l, r) <==> ValueToString(h, l) == ValueToString(h, r)
    ensures ToNumber(h, l).None? || ToNumber(h, r).None? ==>
              var (less, same, more) := (CompareValues(h, "<", l, r), CompareValues(h, "==", l, r),
                                         CompareValues(h, ">", l, r));
              && (less || same || more) && !(less && same) && !(less && more) && !(same && more)
              && CompareValues(h, "<=", l, r) == (less || same) && CompareValues(h, ">=", l, r) == (more || same)
  {
    StringsAreOrdered(ValueToString(h, l), ValueToString(h, r));
  }

  predicate Less(h: Host, l: Value, r: Value) { CompareValues(h, "<", l, r) }

  predicate IsNumber(h: Host, v: Value) { ToNumber(h, v).Some? }

  ghost predicate OrdersFloats(h: Host) {
    && (forall x :: !h.lessFloat(x, x))
    && (forall x, y, z :: h.lessFloat(x, y) && h.lessFloat(y, z) ==> h.lessFloat(x, z))
  }

  /** Numbers compare as numbers and everything else by how it is written, so `<` can go round in a
      circle; but only where exactly two of the three are numbers. */
  lemma CircleNeedsTwoNumbers(h: Host, a: Value, b: Value, c: Value)
    requires OrdersFloats(h) && Less(h, a, b) && Less(h, b, c) && Less(h, c, a)
    ensures multiset{IsNumber(h, a), IsNumber(h, b), IsNumber(h, c)} == multiset{true, true, false}
  {
    var (x, y, z) := (ValueToString(h, a), ValueToString(h, b), ValueToString(h, c));
    if StringLess(x, y) && StringLess(y, z) && StringLess(z, x) {
      StringLessOn(x, y, z);
      StringsAreOrdered(x, z);
    }
  }

  /** 9 is less than 10 as a number, "10" less than "1x" and "1x" less than "9" as texts. */
  lemma CircleOfThree(h: Host, nine: Float64, ten: Float64)
    requires h.parseFloat("9") == Some(nine) && h.parseFloat("10") == Some(ten) && h.lessFloat(nine, ten)
    requires h.parseFloat("1x") == None
    ensures Less(h, Str("9"), Str("10")) && Less(h, Str("10"), Str("1x")) && Less(h, Str("1x"), Str("9"))
  {
    assert StringLess("10"[1..], "1x"[1..]);
  }

  function AddValues(h: Host, left: Value, right: Value): Value {
    var l, r := ToNumber(h, left), ToNumber(h, right);
    if l.Some? && r.Some? then Num(h.addFloat(l.value, r.value))
    else Str(ValueToString(h, left) + ValueToString(h, right))
  }

  /** The length randomString really draws. */
  function RandomLength(length: int): nat {
    if length <= 0 then 8 else if length > 64 then 64 else length
  }

  /** The result of evaluating something, and the lengths of all strings drawn so far, in order. */
  datatype Evaluated<+T> = Evaluated(res: Result<T, Error>, drawn: seq<nat>)

  function CallFunction(h: Host, name: string, args: seq<Value>, drawn: seq<nat>): Evaluated<Value> {
    if name == "random" then
      var asked := if args != [] && ToNumber(h, args[0]).Some? then h.toInt(ToNumber(h, args[0]).value) else 8;
      var length := RandomLength(asked);
      Evaluated(Ok(Str(h.random(|drawn|, length))), drawn + [length])
    else if name == "base64" then
      Evaluated(Ok(Str(if args == [] then "" else h.encode64(ValueToString(h, args[0])))), drawn)
    else if name == "base64Decode" then
      var decoded := if args == [] then None else h.decode64(ValueToString(h, args[0]));
      Evaluated(Ok(Str(if decoded.Some? then decoded.value else "")), drawn)
    else
      Evaluated(Err(UnknownFunction(name)), drawn)
  }

  /** What a bare or dotted name stands for. */
  function NameValue(c: Context, path: seq<string>): Value {
    var joined := Join(path, ".");
    if joined == "true" then Bool(true)
    else if joined == "false" then Bool(false)
    else
      var found := c.data.Lookup(path);
      Str(if found.Some? then found.value else "")
  }
}
