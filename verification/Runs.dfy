/** Runs of a state machine whose steps are enabled in some states and have one effect each. */
module Runs {

  datatype Machine<!S, !T> = Machine(enabled: (S, T) -> bool, apply: (S, T) -> S)

  ghost predicate CanRun<S, T>(m: Machine<S, T>, s: S, steps: seq<T>)
    decreases |steps|
  {
    steps != [] ==> m.enabled(s, steps[0]) && CanRun(m, m.apply(s, steps[0]), steps[1..])
  }

  ghost function Run<S, T>(m: Machine<S, T>, s: S, steps: seq<T>): S
    decreases |steps|
  {
    if steps == [] then s else Run(m, m.apply(s, steps[0]), steps[1..])
  }

  lemma RunFirst<S, T>(m: Machine<S, T>, s: S, step: T, rest: seq<T>)
    ensures CanRun(m, s, [step] + rest) <==> m.enabled(s, step) && CanRun(m, m.apply(s, step), rest)
    ensures Run(m, s, [step] + rest) == Run(m, m.apply(s, step), rest)
  {
    assert ([step] + rest)[1..] == rest;
  }

  lemma {:induction false} RunAppend<S, T>(m: Machine<S, T>, s: S, a: seq<T>, b: seq<T>)
    requires CanRun(m, s, a)
    ensures Run(m, s, a + b) == Run(m, Run(m, s, a), b)
    ensures CanRun(m, s, a + b) <==> CanRun(m, Run(m, s, a), b)
    decreases |a|
  {
    if a == [] {
      assert a + b == b;
    } else {
      RunFirst(m, s, a[0], a[1..] + b);
      assert a + b == [a[0]] + (a[1..] + b);
      RunAppend(m, m.apply(s, a[0]), a[1..], b);
    }
  }

  lemma {:induction false} CanRunPrefix<S, T>(m: Machine<S, T>, s: S, a: seq<T>, b: seq<T>)
    requires CanRun(m, s, a + b)
    ensures CanRun(m, s, a)
    decreases |a|
  {
    if a != [] {
      assert a + b == [a[0]] + (a[1..] + b);
      RunFirst(m, s, a[0], a[1..] + b);
      CanRunPrefix(m, m.apply(s, a[0]), a[1..], b);
    }
  }

  ghost predicate Reaches<S, T(!new)>(m: Machine<S, T>, s: S, t: S) {
    exists steps :: CanRun(m, s, steps) && Run(m, s, steps) == t
  }

  lemma ReachesSelf<S, T(!new)>(m: Machine<S, T>, s: S)
    ensures Reaches(m, s, s)
  {
    assert CanRun(m, s, []) && Run(m, s, []) == s;
  }

  lemma ReachesOn<S, T(!new)>(m: Machine<S, T>, s: S, t: S, u: S)
    requires Reaches(m, s, t) && Reaches(m, t, u)
    ensures Reaches(m, s, u)
  {
    var a :| CanRun(m, s, a) && Run(m, s, a) == t;
    var b :| CanRun(m, t, b) && Run(m, t, b) == u;
    RunAppend(m, s, a, b);
  }

  lemma ReachesNext<S, T(!new)>(m: Machine<S, T>, s: S, t: S, step: T)
    requires Reaches(m, s, t) && m.enabled(t, step)
    ensures Reaches(m, s, m.apply(t, step))
  {
    RunFirst(m, t, step, []);
    ReachesSelf(m, m.apply(t, step));
    assert CanRun(m, t, [step] + []) && Run(m, t, [step] + []) == m.apply(t, step);
    ReachesOn(m, s, t, m.apply(t, step));
  }
}
