/** What several modules use. */
module Common {

  datatype Option<+T> = None | Some(value: T)

  datatype Result<+T, +E> = Ok(value: T) | Err(error: E)

  /** A 64-bit float, carried as its bit pattern: arithmetic and formatting belong to the host. */
  newtype Float64 = n: int | 0 <= n < 0x1_0000_0000_0000_0000

  /** The length of the longest prefix whose characters all satisfy p. */
  function RunOf(s: string, p: char -> bool): (n: nat)
    ensures n <= |s| && (forall i :: 0 <= i < n ==> p(s[i])) && (n < |s| ==> !p(s[n]))
  {
    if s == "" || !p(s[0]) then 0 else 1 + RunOf(s[1..], p)
  }

  lemma {:induction false} RunEnds(s: string, p: char -> bool, n: nat)
    requires n <= |s| && (forall i :: 0 <= i < n ==> p(s[i])) && (n < |s| ==> !p(s[n]))
    ensures RunOf(s, p) == n
  {
    if n > 0 { RunEnds(s[1..], p, n - 1); }
  }

  lemma Assoc<T>(a: seq<T>, b: seq<T>, c: seq<T>)
    ensures a + b + c == a + (b + c)
  {
  }

  // ----- what is kept of a list -----

  ghost function Filter<T>(a: seq<T>, keep: T -> bool): seq<T> {
    if a == [] then []
    else Filter(a[..|a| - 1], keep) + if keep(a[|a| - 1]) then [a[|a| - 1]] else []
  }

  /** b is those of a at these places, in their order, each once. */
  ghost predicate PicksAt<T>(a: seq<T>, b: seq<T>, places: seq<nat>) {
    && |places| == |b|
    && (forall i :: 0 <= i < |b| ==> places[i] < |a| && b[i] == a[places[i]])
    && (forall i, j :: 0 <= i < j < |b| ==> places[i] < places[j])
  }

  lemma {:induction false} FilterPicks<T>(a: seq<T>, keep: T -> bool) returns (places: seq<nat>)
    ensures PicksAt(a, Filter(a, keep), places)
    ensures forall k :: 0 <= k < |a| ==> (k in places <==> keep(a[k]))
    decreases |a|
  {
    if a == [] {
      places := [];
    } else {
      var n := |a| - 1;
      var before := FilterPicks(a[..n], keep);
      OneMorePick(a, Filter(a[..n], keep), before);
      places := if keep(a[n]) then before + [n] else before;
      OneMorePlace(a, keep, before, places);
    }
  }

  lemma OneMorePick<T>(a: seq<T>, b: seq<T>, places: seq<nat>)
    requires a != [] && PicksAt(a[..|a| - 1], b, places)
    ensures PicksAt(a, b, places) && PicksAt(a, b + [a[|a| - 1]], places + [|a| - 1])
    ensures |a| - 1 !in places
  {
  }

  lemma {:induction false} OneMorePlace<T>(a: seq<T>, keep: T -> bool, before: seq<nat>, places: seq<nat>)
    requires a != [] && |a| - 1 !in before
    requires forall k :: 0 <= k < |a| - 1 ==> (k in before <==> keep(a[..|a| - 1][k]))
    requires places == if keep(a[|a| - 1]) then before + [|a| - 1] else before
    ensures forall k :: 0 <= k < |a| ==> (k in places <==> keep(a[k]))
  {
    forall k | 0 <= k < |a| - 1 ensures k in places <==> keep(a[k]) { assert a[..|a| - 1][k] == a[k]; }
  }

  /** strings.Join. */
  function Join(parts: seq<string>, sep: string): string {
    if parts == [] then ""
    else if |parts| == 1 then parts[0]
    else parts[0] + sep + Join(parts[1..], sep)
  }

  lemma JoinIs(first: string, rest: seq<string>, sep: string)
    ensures Join([], sep) == "" && Join([first], sep) == first
    ensures rest != [] ==> Join([first] + rest, sep) == first + (sep + Join(rest, sep))
  {
    assert ([first] + rest)[1..] == rest;
  }

  /** unicode.IsSpace. */
  predicate IsUnicodeSpace(c: char) {
    || c == ' ' || '\t' <= c <= '\r' || c == '\U{85}' || c == '\U{A0}' || c == '\U{1680}'
    || '\U{2000}' <= c <= '\U{200A}'
    || c == '\U{2028}' || c == '\U{2029}' || c == '\U{202F}' || c == '\U{205F}' || c == '\U{3000}'
  }

  lemma SpacesAre(c: char)
    ensures IsUnicodeSpace(c) <==>
              c in {'\t', '\n', '\U{0B}', '\U{0C}', '\r', ' ', '\U{85}', '\U{A0}', '\U{1680}', '\U{2000}', '\U{2001}',
                    '\U{2002}', '\U{2003}', '\U{2004}', '\U{2005}', '\U{2006}', '\U{2007}', '\U{2008}', '\U{2009}',
                    '\U{200A}', '\U{2028}', '\U{2029}', '\U{202F}', '\U{205F}', '\U{3000}'}
  {
  }

  /** strings.TrimSpace leaves nothing of it. */
  predicate Blank(s: string) { forall i :: 0 <= i < |s| ==> IsUnicodeSpace(s[i]) }

  predicate AllDigits(s: string) { forall i :: 0 <= i < |s| ==> '0' <= s[i] <= '9' }

  /** The number a string of digits is. */
  function NumberOf(digits: string): nat
    requires AllDigits(digits)
  {
    if digits == "" then 0
    else NumberOf(digits[..|digits| - 1]) * 10 + (digits[|digits| - 1] as int - '0' as int)
  }

  /** A number as fmt writes it. */
  function Decimal(n: nat): string {
    if n < 10 then [('0' as int + n) as char] else Decimal(n / 10) + [('0' as int + n % 10) as char]
  }

  lemma {:induction false} DecimalReads(n: nat)
    ensures Decimal(n) != "" && AllDigits(Decimal(n)) && NumberOf(Decimal(n)) == n
    decreases n
  {
    if n >= 10 {
      DecimalReads(n / 10);
      assert Decimal(n)[..|Decimal(n)| - 1] == Decimal(n / 10);
    } else {
      assert Decimal(n)[..0] == "";
    }
  }
}
