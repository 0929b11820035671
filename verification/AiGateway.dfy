/** The model gateway's list of Ollama servers and its counts of requests in flight
    (controllers/ai_gateway.go). A counter or a transport the code shares by pointer is a number
    here, never given out twice. */
module AiGateway {
  import opened Common

  // ----- finding the servers -----

  datatype Pod = Pod(namespace: string, name: string, labels: map<string, string>, deleting: bool, ready: bool)
  {
    function Key(): string { namespace + "/" + name }
  }

  /** ollama: some port of the service is Ollama's. */
  datatype Service = Service(namespace: string, selector: map<string, string>, ollama: bool)

  /** A server found, with the models it answered, none if it did not answer. */
  datatype Found = Found(key: string, models: seq<string>)

  predicate Matches(selector: map<string, string>, labels: map<string, string>) {
    forall k | k in selector :: k in labels && labels[k] == selector[k]
  }

  predicate Serves(svc: Service, pod: Pod) {
    && svc.selector != map[] && svc.ollama
    && pod.namespace == svc.namespace && Matches(svc.selector, pod.labels) && !pod.deleting && pod.ready
  }

  /** A service with a selector serves the ready pods of its namespace that have every label of it. */
  lemma ServesIff(svc: Service, pod: Pod)
    ensures Serves(svc, pod) <==>
              && svc.ollama && svc.selector.Keys != {} && svc.selector.Items <= pod.labels.Items
              && pod.namespace == svc.namespace && pod.ready && !pod.deleting
    ensures pod.Key() == pod.namespace + "/" + pod.name
  {
    assert Matches(svc.selector, pod.labels) <==> svc.selector.Items <= pod.labels.Items by {
      if svc.selector.Items <= pod.labels.Items {
        forall k | k in svc.selector ensures k in pod.labels && pod.labels[k] == svc.selector[k] {
          assert (k, svc.selector[k]) in svc.selector.Items;
        }
      }
    }
  }

  ghost predicate DistinctKeys(found: seq<Found>) {
    forall i, j :: 0 <= i < j < |found| ==> found[i].key != found[j].key
  }

  /** findOllamaPods before its final sort: a pod several services select is found once. */
  method FindOllamaPods(services: seq<Service>, pods: seq<Pod>) returns (keys: seq<string>)
    ensures forall i, j :: 0 <= i < j < |keys| ==> keys[i] != keys[j]
    ensures forall k :: k in keys <==> exists s, p :: s in services && p in pods && Serves(s, p) && p.Key() == k
  {
    keys := [];
    var seen: set<string> := {};
    for i := 0 to |services|
      invariant forall a, b :: 0 <= a < b < |keys| ==> keys[a] != keys[b]
      invariant forall k :: k in seen <==> k in keys
      invariant forall k :: k in keys <==>
            exists s, p :: s in services[..i] && p in pods && Serves(s, p) && p.Key() == k
    {
      var svc := services[i];
      assert services[..i + 1] == services[..i] + [svc];
      if svc.selector == map[] || !svc.ollama { continue; }
      ghost var before := keys;
      for j := 0 to |pods|
        invariant forall a, b :: 0 <= a < b < |keys| ==> keys[a] != keys[b]
        invariant forall k :: k in seen <==> k in keys
        invariant forall k :: k in keys <==> k in before || exists p :: p in pods[..j] && Serves(svc, p) && p.Key() == k
      {
        var pod := pods[j];
        assert pods[..j + 1] == pods[..j] + [pod];
        var key := pod.Key();
        if key in seen || pod.namespace != svc.namespace || !Matches(svc.selector, pod.labels)
          || pod.deleting || !pod.ready
        {
          continue;
        }
        seen := seen + {key};
        keys := keys + [key];
      }
      assert pods[..|pods|] == pods;
    }
    assert services[..|services|] == services;
  }

  // ----- the gateway's state -----

  datatype Backend = Backend(key: string, models: seq<string>, counter: nat, transport: nat)

  /** counts: requests in flight by counter. closes: how often each transport was told to close.
      held: the counter each request in flight has taken. next: numbers below it have been given out. */
  datatype State = State(list: seq<Backend>, counts: map<nat, int>, closes: map<nat, int>, held: map<nat, nat>,
                         next: nat)

  ghost predicate Listed(list: seq<Backend>, key: string) { exists i :: 0 <= i < |list| && list[i].key == key }

  ghost function At(list: seq<Backend>, key: string): (b: Backend)
    requires Listed(list, key)
    ensures b in list && b.key == key
  {
    var i :| 0 <= i < |list| && list[i].key == key; list[i]
  }

  ghost function FoundKeys(found: seq<Found>): set<string> { set i | 0 <= i < |found| :: found[i].key }

  /** The transport of a listed key that is not found again. */
  ghost predicate Vanishes(s: State, found: seq<Found>, transport: nat) {
    exists i :: 0 <= i < |s.list| && s.list[i].transport == transport && s.list[i].key !in FoundKeys(found)
  }

  /** A key that was listed keeps its counter and transport; another gets new ones. */
  ghost function Renew(s: State, f: Found, i: nat): Backend {
    if Listed(s.list, f.key) then Backend(f.key, f.models, At(s.list, f.key).counter, At(s.list, f.key).transport)
    else Backend(f.key, f.models, s.next + i, s.next + i)
  }

  /** The number was given out for a key that was not listed. */
  ghost predicate Given(s: State, found: seq<Found>, id: nat) {
    exists i :: 0 <= i < |found| && !Listed(s.list, found[i].key) && id == s.next + i
  }

  /** now is before, and a zero for each number given out. */
  ghost predicate WithNew(s: State, found: seq<Found>, before: map<nat, int>, now: map<nat, int>) {
    && (forall id :: id in now <==> id in before || Given(s, found, id))
    && (forall id | id in now :: now[id] == if id in before then before[id] else 0)
  }

  ghost predicate Renewed(s: State, found: seq<Found>, list: seq<Backend>) {
    |list| == |found| && forall i :: 0 <= i < |found| ==> list[i] == Renew(s, found[i], i)
  }

  /** Between two maps, the transports of the keys that vanish were told to close once more. */
  ghost predicate ClosesVanished(s: State, found: seq<Found>, before: map<nat, int>, now: map<nat, int>) {
    && now.Keys == before.Keys
    && forall x | x in now :: now[x] == before[x] + if Vanishes(s, found, x) then 1 else 0
  }

  ghost predicate Refreshes(s: State, found: seq<Found>, t: State) {
    && Renewed(s, found, t.list) && t.next == s.next + |found| && t.held == s.held
    && WithNew(s, found, s.counts, t.counts)
    && exists closes :: WithNew(s, found, s.closes, closes) && ClosesVanished(s, found, closes, t.closes)
  }

  datatype Op = Refresh(found: seq<Found>) | Begin(request: nat, counter: nat) | End(request: nat)

  /** A request begins on a backend of any list it once got, so on any counter ever given out. */
  ghost predicate Next(s: State, op: Op, t: State) {
    match op
    case Refresh(found) => DistinctKeys(found) && Refreshes(s, found, t)
    case Begin(r, c) =>
      r !in s.held && c in s.counts && t == s.(counts := s.counts[c := s.counts[c] + 1], held := s.held[r := c])
    case End(r) =>
      && r in s.held && s.held[r] in s.counts
      && t == s.(counts := s.counts[s.held[r] := s.counts[s.held[r]] - 1], held := s.held - {r})
  }

  ghost function Holders(held: map<nat, nat>, c: nat): set<nat> { set r | r in held && held[r] == c }

  ghost predicate Inv(s: State) {
    && AllDistinct(s.list)
    && AllOpen(s)
    && (forall c | c in s.counts :: c < s.next && s.counts[c] == |Holders(s.held, c)|)
    && (forall x | x in s.closes :: x < s.next && 0 <= s.closes[x] <= 1)
    && (forall r | r in s.held :: s.held[r] in s.counts)
  }

  ghost predicate AllDistinct(list: seq<Backend>) {
    forall i, j :: 0 <= i < j < |list| ==>
      list[i].key != list[j].key && list[i].counter != list[j].counter && list[i].transport != list[j].transport
  }

  ghost predicate AllOpen(s: State) {
    forall i :: 0 <= i < |s.list| ==>
      s.list[i].counter in s.counts && s.list[i].transport in s.closes && s.closes[s.list[i].transport] == 0
  }

  lemma HoldersAdd(held: map<nat, nat>, r: nat, c: nat, d: nat)
    requires r !in held
    ensures |Holders(held[r := c], d)| == |Holders(held, d)| + if d == c then 1 else 0
  {
    if d == c { assert Holders(held[r := c], d) == Holders(held, d) + {r}; }
    else { assert Holders(held[r := c], d) == Holders(held, d); }
  }

  lemma HoldersRemove(held: map<nat, nat>, r: nat, d: nat)
    requires r in held
    ensures |Holders(held - {r}, d)| == |Holders(held, d)| - if d == held[r] then 1 else 0
  {
    if d == held[r] { assert Holders(held, d) == Holders(held - {r}, d) + {r}; }
    else { assert Holders(held - {r}, d) == Holders(held, d); }
  }

  lemma RefreshKeepsInv(s: State, found: seq<Found>, t: State)
    requires Inv(s) && DistinctKeys(found) && Refreshes(s, found, t)
    ensures Inv(t)
  {
    RefreshKeepsApart(s, found, t);
    RefreshKeepsCloses(s, found, t);
  }

  lemma RefreshKeepsApart(s: State, found: seq<Found>, t: State)
    requires Inv(s) && DistinctKeys(found) && Renewed(s, found, t.list)
    ensures AllDistinct(t.list)
  {
    forall i, j | 0 <= i < j < |t.list|
      ensures t.list[i].key != t.list[j].key && t.list[i].counter != t.list[j].counter
      ensures t.list[i].transport != t.list[j].transport
    {
    }
  }

  lemma RefreshKeepsCloses(s: State, found: seq<Found>, t: State)
    requires Inv(s) && DistinctKeys(found) && Refreshes(s, found, t)
    ensures AllOpen(t) && forall x | x in t.closes :: x < t.next && 0 <= t.closes[x] <= 1
  {
    var closes :| WithNew(s, found, s.closes, closes) && ClosesVanished(s, found, closes, t.closes);
    forall x | x in t.closes ensures x < t.next && 0 <= t.closes[x] <= 1 {
      ClosedAtMostOnce(s, found, closes, t, x);
    }
    forall i | 0 <= i < |t.list|
      ensures t.list[i].counter in t.counts && t.list[i].transport in t.closes && t.closes[t.list[i].transport] == 0
    {
      KeptIsOpen(s, found, i, closes, t);
    }
  }

  /** What vanishes was listed, and so still open. */
  lemma ClosedAtMostOnce(s: State, found: seq<Found>, closes: map<nat, int>, t: State, x: nat)
    requires Inv(s) && t.next == s.next + |found| && x in t.closes
    requires WithNew(s, found, s.closes, closes) && ClosesVanished(s, found, closes, t.closes)
    ensures x < t.next && 0 <= t.closes[x] <= 1
  {
    if x !in s.closes { assert Given(s, found, x); }
  }

  /** A backend on the new list has a transport nobody has closed. */
  lemma KeptIsOpen(s: State, found: seq<Found>, i: nat, closes: map<nat, int>, t: State)
    requires Inv(s) && Renewed(s, found, t.list) && WithNew(s, found, s.counts, t.counts) && i < |found|
    requires WithNew(s, found, s.closes, closes) && ClosesVanished(s, found, closes, t.closes)
    ensures var b := t.list[i]; b.counter in t.counts && b.transport in t.closes && t.closes[b.transport] == 0
  {
    if Listed(s.list, found[i].key) {
    } else {
      assert Given(s, found, s.next + i);
    }
  }

  lemma NextKeepsInv(s: State, op: Op, t: State)
    requires Inv(s) && Next(s, op, t)
    ensures Inv(t)
  {
    match op
    case Refresh(found) => RefreshKeepsInv(s, found, t);
    case Begin(r, c) => forall d | d in t.counts { HoldersAdd(s.held, r, c, d); }
    case End(r) => forall d | d in t.counts { HoldersRemove(s.held, r, d); }
  }

  const Empty := State([], map[], map[], map[], 0)

  ghost predicate IsRun(states: seq<State>, ops: seq<Op>) {
    |states| == |ops| + 1 && forall i {:trigger ops[i]} :: 0 <= i < |ops| ==> Next(states[i], ops[i], states[i + 1])
  }

  lemma {:induction false} RunKeepsInv(states: seq<State>, ops: seq<Op>, i: nat)
    requires IsRun(states, ops) && Inv(states[0]) && i < |states|
    ensures Inv(states[i])
  {
    if i > 0 { RunKeepsInv(states, ops, i - 1); NextKeepsInv(states[i - 1], ops[i - 1], states[i]); }
  }

  /** In every run, every counter is the number of requests that hold it, so it is never negative,
      and backends listed together share neither a counter nor a transport. */
  lemma CountersCount(states: seq<State>, ops: seq<Op>, i: nat)
    requires IsRun(states, ops) && states[0] == Empty && i < |states|
    ensures forall c | c in states[i].counts :: states[i].counts[c] == |Holders(states[i].held, c)| >= 0
    ensures forall a, b :: 0 <= a < b < |states[i].list| ==>
              && states[i].list[a].counter != states[i].list[b].counter
              && states[i].list[a].transport != states[i].list[b].transport
  {
    RunKeepsInv(states, ops, i);
  }

  /** In every run a transport is closed at most once, and never while a backend with it is listed. */
  lemma ListedIsOpen(states: seq<State>, ops: seq<Op>, i: nat)
    requires IsRun(states, ops) && states[0] == Empty && i < |states|
    ensures forall x | x in states[i].closes :: 0 <= states[i].closes[x] <= 1
    ensures forall a :: 0 <= a < |states[i].list| ==>
              states[i].list[a].transport in states[i].closes && states[i].closes[states[i].list[a].transport] == 0
  {
    RunKeepsInv(states, ops, i);
  }

  /** A key listed at every moment from i to j has the same counter and transport at both. */
  lemma {:induction false} ListedKeepsCounter(states: seq<State>, ops: seq<Op>, i: nat, j: nat, key: string)
    requires IsRun(states, ops) && states[0] == Empty && i <= j < |states|
    requires forall k :: i <= k <= j ==> Listed(states[k].list, key)
    ensures At(states[j].list, key).counter == At(states[i].list, key).counter
    ensures At(states[j].list, key).transport == At(states[i].list, key).transport
    decreases j
  {
    if i < j {
      ListedKeepsCounter(states, ops, i, j - 1, key);
      RunKeepsCounter(states, ops, j - 1, key);
    }
  }

  lemma RunKeepsCounter(states: seq<State>, ops: seq<Op>, i: nat, key: string)
    requires IsRun(states, ops) && states[0] == Empty && i + 1 < |states|
    requires Listed(states[i].list, key) && Listed(states[i + 1].list, key)
    ensures At(states[i + 1].list, key).counter == At(states[i].list, key).counter
    ensures At(states[i + 1].list, key).transport == At(states[i].list, key).transport
  {
    RunKeepsInv(states, ops, i);
    var s, t := states[i], states[i + 1];
    assert Next(s, ops[i], t);
    NextKeepsInv(s, ops[i], t);
  }

  // ----- what a counter misses -----

  ghost predicate Has(list: seq<Backend>, key: string, c: nat) {
    exists i :: 0 <= i < |list| && list[i].key == key && list[i].counter == c
  }

  /** The requests in flight that began on a counter the key has had. */
  ghost function InFlight(states: seq<State>, i: nat, key: string): set<nat>
    requires i < |states|
  {
    set r | r in states[i].held && HasHad(states, i, key, states[i].held[r])
  }

  ghost predicate HasHad(states: seq<State>, i: nat, key: string, c: nat)
    requires i < |states|
  {
    exists m: nat :: m <= i && Has(states[m].list, key, c)
  }

  /** Since some moment when the counter was the key's, the key has been listed without a gap. */
  ghost predicate ListedSince(states: seq<State>, i: nat, key: string, c: nat)
    requires i < |states|
  {
    exists m: nat :: m <= i && Has(states[m].list, key, c) && forall n :: m <= n <= i ==> Listed(states[n].list, key)
  }

  /** In every run a counter is only ever one key's, so each request is in flight for one key. */
  lemma {:induction false} OneOwner(states: seq<State>, ops: seq<Op>, m: nat, n: nat, j: string, k: string, c: nat)
    requires IsRun(states, ops) && states[0] == Empty && m <= n < |states|
    requires Has(states[m].list, j, c) && Has(states[n].list, k, c)
    ensures j == k
    decreases n
  {
    if m == n {
      RunKeepsInv(states, ops, n);
      HasApart(states[n].list, j, k, c);
    } else {
      KnownOn(states, ops, m, n - 1, c);
      RunKeepsInv(states, ops, n - 1);
      assert Next(states[n - 1], ops[n - 1], states[n]);
      KeptFrom(states[n - 1], ops[n - 1], states[n], k, c);
      OneOwner(states, ops, m, n - 1, j, k, c);
    }
  }

  lemma HasApart(list: seq<Backend>, j: string, k: string, c: nat)
    requires AllDistinct(list) && Has(list, j, c) && Has(list, k, c)
    ensures j == k
  {
  }

  /** A counter once given out stays below the next number. */
  lemma {:induction false} KnownOn(states: seq<State>, ops: seq<Op>, m: nat, n: nat, c: nat)
    requires IsRun(states, ops) && states[0] == Empty && m <= n < |states|
    requires exists k :: Has(states[m].list, k, c)
    ensures c < states[n].next
    decreases n
  {
    RunKeepsInv(states, ops, m);
    if m < n {
      KnownOn(states, ops, m, n - 1, c);
      assert Next(states[n - 1], ops[n - 1], states[n]);
    }
  }

  /** A listed counter that was given out before was its key's already. */
  lemma KeptFrom(s: State, op: Op, t: State, key: string, c: nat)
    requires Inv(s) && Next(s, op, t) && Has(t.list, key, c) && c < s.next
    ensures Has(s.list, key, c)
  {
    if op.Refresh? {
      var i :| 0 <= i < |t.list| && t.list[i].key == key && t.list[i].counter == c;
      assert t.list[i] == Renew(s, op.found[i], i);
      assert Listed(s.list, key);
      assert At(s.list, key) in s.list;
    }
  }

  /** What a listed server is taken to be busy with is all it is busy with exactly when it has been
      listed without a gap since each request in flight got it: after a gap its old requests no
      longer count, and the server looks idler than it is. */
  lemma CountsAllIff(states: seq<State>, ops: seq<Op>, i: nat, key: string)
    requires IsRun(states, ops) && states[0] == Empty && i < |states| && Listed(states[i].list, key)
    ensures var (s, all) := (states[i], InFlight(states, i, key));
            && At(s.list, key).counter in s.counts && s.counts[At(s.list, key).counter] <= |all|
            && (s.counts[At(s.list, key).counter] == |all| <==>
                  forall r :: r in all ==> ListedSince(states, i, key, s.held[r]))
  {
    var (s, all, c) := (states[i], InFlight(states, i, key), At(states[i].list, key).counter);
    RunKeepsInv(states, ops, i);
    var counted := Holders(s.held, c);
    assert Has(s.list, key, c);
    forall r | r in counted ensures r in all { assert HasHad(states, i, key, s.held[r]); }
    SubsetCounts(counted, all);
    forall r | r in all ensures r in counted <==> ListedSince(states, i, key, s.held[r]) {
      SinceIffNow(states, ops, i, key, s.held[r]);
    }
  }

  lemma SubsetCounts(some: set<nat>, all: set<nat>)
    requires some <= all
    ensures |some| <= |all| && (|some| == |all| <==> forall r :: r in all ==> r in some)
  {
    assert all == some + (all - some);
    if |some| == |all| { assert all - some == {}; }
    if forall r :: r in all ==> r in some { assert some == all; }
  }

  lemma SinceIffNow(states: seq<State>, ops: seq<Op>, i: nat, key: string, c: nat)
    requires IsRun(states, ops) && states[0] == Empty && i < |states| && Listed(states[i].list, key)
    ensures ListedSince(states, i, key, c) <==> At(states[i].list, key).counter == c
  {
    if ListedSince(states, i, key, c) {
      var m: nat :| m <= i && Has(states[m].list, key, c) && forall n :: m <= n <= i ==> Listed(states[n].list, key);
      RunKeepsInv(states, ops, m);
      ListedKeepsCounter(states, ops, m, i, key);
    } else if At(states[i].list, key).counter == c {
      assert Has(states[i].list, key, c);
    }
  }

  /** A server listed, given a request, not found once and found again: its new counter says zero
      while the request is still in flight. */
  lemma GapIsForgotten(key: string, models: seq<string>)
    ensures exists states: seq<State>, ops: seq<Op> ::
              && IsRun(states, ops) && |ops| == 4 && states[0] == Empty && Listed(states[4].list, key)
              && InFlight(states, 4, key) == {0}
              && var c := At(states[4].list, key).counter; c in states[4].counts && states[4].counts[c] == 0
  {
    var states := GapStates(key, models);
    GapIsRun(key, models);
    assert Has(states[1].list, key, 0) by { assert states[1].list[0].key == key; }
    assert HasHad(states, 4, key, 0);
    assert states[4].list[0].key == key;
    assert At(states[4].list, key) == states[4].list[0];
    assert states[4].held.Keys == {0};
  }

  ghost function GapOps(key: string, models: seq<string>): seq<Op> {
    [Refresh([Found(key, models)]), Begin(0, 0), Refresh([]), Refresh([Found(key, models)])]
  }

  lemma GapIsRun(key: string, models: seq<string>)
    ensures IsRun(GapStates(key, models), GapOps(key, models))
  {
    GapSteps(key, models);
    var (states, ops) := (GapStates(key, models), GapOps(key, models));
    forall i | 0 <= i < |ops| ensures Next(states[i], ops[i], states[i + 1]) {}
  }

  ghost function GapStates(key: string, models: seq<string>): seq<State> {
    [Empty,
     State([Backend(key, models, 0, 0)], map[0 := 0], map[0 := 0], map[], 1),
     State([Backend(key, models, 0, 0)], map[0 := 1], map[0 := 0], map[0 := 0], 1),
     State([], map[0 := 1], map[0 := 1], map[0 := 0], 1),
     State([Backend(key, models, 1, 1)], map[0 := 1, 1 := 0], map[0 := 1, 1 := 0], map[0 := 0], 2)]
  }

  lemma GapSteps(key: string, models: seq<string>)
    ensures var (s, found) := (GapStates(key, models), [Found(key, models)]);
            && Next(s[0], Refresh(found), s[1]) && Next(s[1], Begin(0, 0), s[2])
            && Next(s[2], Refresh([]), s[3]) && Next(s[3], Refresh(found), s[4])
  {
    var (s, f) := (GapStates(key, models), Found(key, models));
    FirstListed(s[0], f, s[1]);
    FirstListed(s[3], f, s[4]);
    LastGone(s[2], Backend(key, models, 0, 0), s[3]);
  }

  /** A server is found where none was listed. */
  lemma FirstListed(s: State, f: Found, t: State)
    requires s.list == [] && s.next !in s.counts && s.next !in s.closes
    requires t == State([Backend(f.key, f.models, s.next, s.next)], s.counts[s.next := 0], s.closes[s.next := 0],
                        s.held, s.next + 1)
    ensures Next(s, Refresh([f]), t)
  {
    assert forall id :: Given(s, [f], id) <==> id == s.next + 0 by {
      assert [f][0] == f && !Listed(s.list, f.key);
    }
    assert WithNew(s, [f], s.closes, t.closes) && ClosesVanished(s, [f], t.closes, t.closes);
  }

  /** The only server listed is not found. */
  lemma LastGone(s: State, b: Backend, t: State)
    requires s.list == [b] && b.transport in s.closes
    requires t == s.(list := [], closes := s.closes[b.transport := s.closes[b.transport] + 1])
    ensures Next(s, Refresh([]), t)
  {
    assert Vanishes(s, [], b.transport) by { assert s.list[0] == b; }
    assert WithNew(s, [], s.closes, s.closes) && ClosesVanished(s, [], s.closes, t.closes);
  }

  /** Backend i has the model, no other that has it carries less, and none before it as little. */
  ghost predicate IsPick(counts: map<nat, int>, backends: seq<Backend>, model: string, i: int)
    requires forall j :: 0 <= j < |backends| ==> backends[j].counter in counts
  {
    && 0 <= i < |backends| && model in backends[i].models
    && forall j :: 0 <= j < |backends| && model in backends[j].models ==>
         if j < i then counts[backends[i].counter] < counts[backends[j].counter]
         else counts[backends[i].counter] <= counts[backends[j].counter]
  }

  // ----- the code -----

  class Gateway {
    var list: seq<Backend>
    var counts: map<nat, int>
    var closes: map<nat, int>
    ghost var held: map<nat, nat>
    var next: nat

    constructor ()
      ensures View() == Empty
    {
      list, counts, closes, held, next := [], map[], map[], map[], 0;
    }

    ghost function View(): State
      reads this
    {
      State(list, counts, closes, held, next)
    }

    /** currentAIBackends past its cache: the list of what was found, told apart by key from what
        was listed before. */
    method RefreshList(found: seq<Found>)
      requires Inv(View()) && DistinctKeys(found)
      modifies this
      ensures Next(old(View()), Refresh(found), View()) && Inv(View())
    {
      ghost var s := View();
      var previous := Remember();
      var renewed, gone := RenewAll(found, previous);
      ghost var before := closes;
      VanishedAreRemembered(s, found, previous, gone);
      TransportsApart(s, found, previous, gone, closes);
      CloseAll(gone);
      list, next := renewed, next + |found|;
      Assembled(s, found, View(), before, Transports(gone, gone.Keys));
      RefreshKeepsInv(s, found, View());
    }

    /** pickAIBackend: of the backends that have the model, the first with the fewest in flight. */
    method PickAIBackend(backends: seq<Backend>, model: string) returns (best: Option<Backend>)
      requires forall i :: 0 <= i < |backends| ==> backends[i].counter in counts
      ensures best.None? <==> forall i :: 0 <= i < |backends| ==> model !in backends[i].models
      ensures best.Some? ==> exists i :: IsPick(counts, backends, model, i) && backends[i] == best.value
    {
      best := None;
      ghost var at := 0;
      for i := 0 to |backends|
        invariant best.None? ==> forall j :: 0 <= j < i ==> model !in backends[j].models
        invariant best.Some? ==> 0 <= at < i && backends[at] == best.value && IsPick(counts, backends[..i], model, at)
      {
        assert backends[..i + 1] == backends[..i] + [backends[i]];
        if model in backends[i].models && (best.None? || counts[backends[i].counter] < counts[best.value.counter]) {
          best, at := Some(backends[i]), i;
        }
      }
      assert backends[..|backends|] == backends;
    }

    method BeginRequest(ghost request: nat, backend: Backend)
      requires request !in held && backend.counter in counts
      modifies this`counts, this`held
      ensures Next(old(View()), Begin(request, backend.counter), View())
    {
      counts := counts[backend.counter := counts[backend.counter] + 1];
      held := held[request := backend.counter];
    }

    method EndRequest(ghost request: nat, backend: Backend)
      requires request in held && held[request] == backend.counter && backend.counter in counts
      modifies this`counts, this`held
      ensures Next(old(View()), End(request), View())
    {
      counts := counts[backend.counter := counts[backend.counter] - 1];
      held := held - {request};
    }

    /** Each server found takes over what its key had, or gets a counter and a transport of its own. */
    method RenewAll(found: seq<Found>, all: map<string, Backend>)
        returns (renewed: seq<Backend>, previous: map<string, Backend>)
      requires Inv(View()) && DistinctKeys(found)
      requires Remembered(list, all)
      modifies this`counts, this`closes
      ensures Renewed(old(View()), found, renewed) && previous == all - FoundKeys(found)
      ensures WithNew(old(View()), found, old(counts), counts) && WithNew(old(View()), found, old(closes), closes)
    {
      ghost var s := View();
      renewed, previous := [], all;
      for i := 0 to |found|
        invariant next == s.next && Halfway(s, found, i, all, renewed, previous, counts, closes)
      {
        var f := found[i];
        if f.key in previous {
          var kept := previous[f.key];
          HalfwayKept(s, found, i, all, renewed, previous, counts, closes, kept);
          renewed, previous := renewed + [Backend(f.key, f.models, kept.counter, kept.transport)], previous - {f.key};
        } else {
          var id := next + i;
          HalfwayNew(s, found, i, all, renewed, previous, counts, closes, id);
          renewed, counts, closes := renewed + [Backend(f.key, f.models, id, id)], counts[id := 0], closes[id := 0];
        }
      }
      HalfwayAll(s, found, all, renewed, previous, counts, closes);
    }

    /** The listed backends by key. */
    method Remember() returns (previous: map<string, Backend>)
      requires Inv(View())
      ensures Remembered(list, previous)
    {
      previous := map[];
      for i := 0 to |list|
        invariant forall k :: k in previous <==> exists j :: 0 <= j < i && list[j].key == k
        invariant forall j :: 0 <= j < i ==> previous[list[j].key] == list[j]
      {
        previous := previous[list[i].key := list[i]];
      }
    }

    /** The transports of what is gone are told to close their idle connections. */
    method CloseAll(previous: map<string, Backend>)
      requires Apart(previous, closes)
      modifies this`closes
      ensures Told(closes, old(closes), Transports(previous, previous.Keys))
    {
      var keys := previous.Keys;
      ghost var before := closes;
      while keys != {}
        invariant keys <= previous.Keys && Told(closes, before, Transports(previous, previous.Keys - keys))
        decreases |keys|
      {
        var k :| k in keys;
        closes := closes[previous[k].transport := closes[previous[k].transport] + 1];
        keys := keys - {k};
      }
      assert previous.Keys - {} == previous.Keys;
    }
  }

  /** The listed backends by key. */
  ghost predicate Remembered(list: seq<Backend>, all: map<string, Backend>) {
    && (forall k :: k in all <==> Listed(list, k))
    && (forall k | k in all :: all[k] == At(list, k))
  }

  /** No two of the backends share a transport, and all transports are known. */
  ghost predicate Apart(previous: map<string, Backend>, closes: map<nat, int>) {
    && (forall k | k in previous :: previous[k].transport in closes)
    && (forall j, k | j in previous && k in previous && j != k :: previous[j].transport != previous[k].transport)
  }

  /** The parts of a refresh make one. */
  lemma Assembled(s: State, found: seq<Found>, t: State, before: map<nat, int>, told: set<nat>)
    requires Renewed(s, found, t.list) && t.next == s.next + |found| && t.held == s.held
    requires WithNew(s, found, s.counts, t.counts) && WithNew(s, found, s.closes, before)
    requires Told(t.closes, before, told) && forall x :: Vanishes(s, found, x) <==> x in told
    ensures Refreshes(s, found, t)
  {
    assert ClosesVanished(s, found, before, t.closes);
  }

  lemma ForgetNext(all: map<string, Backend>, found: seq<Found>, i: nat)
    requires i < |found|
    ensures (all - FoundKeys(found[..i])) - {found[i].key} == all - FoundKeys(found[..i + 1])
  {
    KeysNext(found, i);
  }

  ghost function Transports(previous: map<string, Backend>, ks: set<string>): set<nat> {
    set k | k in ks && k in previous :: previous[k].transport
  }

  ghost predicate Told(now: map<nat, int>, before: map<nat, int>, done: set<nat>) {
    now.Keys == before.Keys && forall x | x in now :: now[x] == before[x] + if x in done then 1 else 0
  }

  lemma KeysNext(found: seq<Found>, i: nat)
    requires i < |found|
    ensures FoundKeys(found[..i + 1]) == FoundKeys(found[..i]) + {found[i].key}
  {
    forall j | 0 <= j < i ensures found[..i + 1][j] == found[..i][j] {}
    assert found[..i + 1][i] == found[i];
  }

  lemma VanishedAreRemembered(s: State, found: seq<Found>, all: map<string, Backend>, gone: map<string, Backend>)
    requires Inv(s) && Remembered(s.list, all) && gone == all - FoundKeys(found)
    ensures forall x :: Vanishes(s, found, x) <==> x in Transports(gone, gone.Keys)
  {
    forall x ensures Vanishes(s, found, x) <==> x in Transports(gone, gone.Keys) {
      if Vanishes(s, found, x) { VanishingIsGone(s, found, all, gone, x); }
      if x in Transports(gone, gone.Keys) {
        var k :| k in gone && gone[k].transport == x;
        GoneVanishes(s, found, all, gone, k);
      }
    }
  }

  lemma AtUnique(list: seq<Backend>, i: nat)
    requires AllDistinct(list) && i < |list|
    ensures Listed(list, list[i].key) && At(list, list[i].key) == list[i]
  {
    var n :| 0 <= n < |list| && list[n] == At(list, list[i].key);
  }

  lemma VanishingIsGone(s: State, found: seq<Found>, all: map<string, Backend>, gone: map<string, Backend>, x: nat)
    requires Inv(s) && Remembered(s.list, all) && gone == all - FoundKeys(found) && Vanishes(s, found, x)
    ensures x in Transports(gone, gone.Keys)
  {
    var i :| 0 <= i < |s.list| && s.list[i].transport == x && s.list[i].key !in FoundKeys(found);
    AtUnique(s.list, i);
    assert s.list[i].key in gone;
  }

  lemma GoneVanishes(s: State, found: seq<Found>, all: map<string, Backend>, gone: map<string, Backend>, k: string)
    requires Remembered(s.list, all) && gone == all - FoundKeys(found) && k in gone
    ensures Vanishes(s, found, gone[k].transport)
  {
    var i :| 0 <= i < |s.list| && s.list[i] == gone[k];
  }

  lemma TransportsApart(s: State, found: seq<Found>, all: map<string, Backend>, gone: map<string, Backend>,
                        closes: map<nat, int>)
    requires Inv(s) && Remembered(s.list, all) && gone == all - FoundKeys(found)
    requires forall x | x in s.closes :: x in closes
    ensures Apart(gone, closes)
  {
    forall k | k in gone ensures exists n :: 0 <= n < |s.list| && s.list[n] == gone[k] {}
  }

  /** The refresh of state s once the first i servers found have been placed. */
  ghost predicate Halfway(s: State, found: seq<Found>, i: nat, all: map<string, Backend>, renewed: seq<Backend>,
                          previous: map<string, Backend>, counts: map<nat, int>, closes: map<nat, int>)
    requires i <= |found|
  {
    && Renewed(s, found[..i], renewed) && previous == all - FoundKeys(found[..i])
    && WithNew(s, found[..i], s.counts, counts) && WithNew(s, found[..i], s.closes, closes)
  }

  lemma HalfwayAll(s: State, found: seq<Found>, all: map<string, Backend>, renewed: seq<Backend>,
                   previous: map<string, Backend>, counts: map<nat, int>, closes: map<nat, int>)
    requires Halfway(s, found, |found|, all, renewed, previous, counts, closes)
    ensures Renewed(s, found, renewed) && previous == all - FoundKeys(found)
    ensures WithNew(s, found, s.counts, counts) && WithNew(s, found, s.closes, closes)
  {
    assert found[..|found|] == found;
  }

  lemma HalfwayKept(s: State, found: seq<Found>, i: nat, all: map<string, Backend>, renewed: seq<Backend>,
                    previous: map<string, Backend>, counts: map<nat, int>, closes: map<nat, int>, kept: Backend)
    requires Inv(s) && DistinctKeys(found) && i < |found|
    requires Remembered(s.list, all)
    requires Halfway(s, found, i, all, renewed, previous, counts, closes)
    requires found[i].key in previous && kept == previous[found[i].key]
    ensures Halfway(s, found, i + 1, all, renewed + [Backend(found[i].key, found[i].models, kept.counter,
                                                             kept.transport)],
                    previous - {found[i].key}, counts, closes)
  {
    assert Listed(s.list, found[i].key);
    ForgetNext(all, found, i);
    RenewedNext(s, found, i, renewed);
    WithNewNext(s, found, i, s.counts, counts);
    WithNewNext(s, found, i, s.closes, closes);
  }

  lemma HalfwayNew(s: State, found: seq<Found>, i: nat, all: map<string, Backend>, renewed: seq<Backend>,
                   previous: map<string, Backend>, counts: map<nat, int>, closes: map<nat, int>, id: nat)
    requires Inv(s) && DistinctKeys(found) && i < |found|
    requires Remembered(s.list, all)
    requires Halfway(s, found, i, all, renewed, previous, counts, closes)
    requires found[i].key !in previous && id == s.next + i
    ensures Halfway(s, found, i + 1, all, renewed + [Backend(found[i].key, found[i].models, id, id)], previous,
                    counts[id := 0], closes[id := 0])
  {
    assert !Listed(s.list, found[i].key);
    ForgetNext(all, found, i);
    RenewedNext(s, found, i, renewed);
    WithNewNext(s, found, i, s.counts, counts);
    WithNewNext(s, found, i, s.closes, closes);
  }

  lemma WithNewNext(s: State, found: seq<Found>, i: nat, before: map<nat, int>, now: map<nat, int>)
    requires i < |found| && WithNew(s, found[..i], before, now) && forall id | id in before :: id < s.next
    ensures WithNew(s, found[..i + 1], before, if Listed(s.list, found[i].key) then now else now[s.next + i := 0])
  {
  }

  lemma RenewedNext(s: State, found: seq<Found>, i: nat, list: seq<Backend>)
    requires i < |found| && Renewed(s, found[..i], list)
    ensures Renewed(s, found[..i + 1], list + [Renew(s, found[i], i)])
  {
  }

}
