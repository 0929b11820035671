/** The cluster as one app's namespace sees it: objects by kind and name, and calls on them. A script
    says how each call goes and in what order a listing comes, so what a program makes of the cluster
    is a function of the script. */
module ClusterStore {
  import opened Common
  import P = PublishDomain

  datatype Kind = Deployment | Service | Ingress | Claim | Autoscaler | ConfigMap | Secret | Job

  datatype Key = Key(kind: Kind, name: string)

  /** A claim in a pod, and where it is mounted. */
  datatype Mount = Mount(claim: string, path: string)

  datatype Content =
    | Workload(image: string, mounts: seq<Mount>)
    | Routes(ports: seq<int>)
    | Headless
    | Hosts(domains: seq<P.Domain>, className: Option<string>, tls: seq<P.Tls>)
    | Disk(size: string)
    | Other(id: nat)

  datatype Object = Object(labels: map<string, string>, content: Content)

  type Store = map<Key, Object>

  // ----- what belongs to an app -----

  const Component := "app.kubernetes.io/component"
  const GitBuild := "casos.io/git-build"

  function Labels(owner: string, component: string): map<string, string> {
    P.OwnershipLabels(owner) + if component == "" then map[] else map[Component := component]
  }

  predicate Owned(o: Object, app: string) {
    && P.ManagedBy in o.labels && o.labels[P.ManagedBy] == "casos"
    && P.Instance in o.labels && o.labels[P.Instance] == app
  }

  /** What an uninstall of the app deletes; a build belongs to the app it builds. */
  predicate Belongs(k: Key, o: Object, app: string) {
    if k.kind == Job then GitBuild in o.labels && o.labels[GitBuild] == app else Owned(o, app)
  }

  lemma BelongsIff(k: Key, o: Object, app: string)
    ensures k.kind == Job ==>
              (Belongs(k, o, app) <==> "casos.io/git-build" in o.labels && o.labels["casos.io/git-build"] == app)
    ensures k.kind != Job ==>
              (Belongs(k, o, app) <==>
                 && "app.kubernetes.io/managed-by" in o.labels && o.labels["app.kubernetes.io/managed-by"] == "casos"
                 && "app.kubernetes.io/instance" in o.labels && o.labels["app.kubernetes.io/instance"] == app)
  {
  }

  /** The store without what belongs to the app, as far as these kinds go. */
  function Without(store: Store, kinds: set<Kind>, app: string): Store {
    map k | k in store && !(k.kind in kinds && Belongs(k, store[k], app)) :: store[k]
  }

  /** Nothing is added or changed, and what is missing belonged to the app. */
  ghost predicate OnlyLoses(before: Store, after: Store, app: string) {
    && (forall k :: k in after ==> k in before && after[k] == before[k])
    && (forall k :: k in before && k !in after ==> Belongs(k, before[k], app))
  }

  ghost predicate HasKind(store: Store, kind: Kind, app: string) {
    exists k :: k in store && k.kind == kind && Belongs(k, store[k], app)
  }

  lemma OnlyLosesOn(a: Store, b: Store, c: Store, app: string)
    requires OnlyLoses(a, b, app) && OnlyLoses(b, c, app)
    ensures OnlyLoses(a, c, app)
  {
  }

  lemma WithoutNothing(store: Store, app: string)
    ensures Without(store, {}, app) == store
  {
  }

  lemma WithoutMore(store: Store, some: set<Kind>, more: set<Kind>, app: string)
    ensures Without(Without(store, some, app), more, app) == Without(store, some + more, app)
  {
  }

  // ----- calls -----

  /** A call works, fails, or fails for the caller after it has taken effect. */
  datatype Answer = Works | Fails | FailsAfter

  datatype Item = Item(key: Key, object_: Object)

  ghost predicate Listed(item: Item, store: Store, kind: Kind) {
    item.key in store && store[item.key] == item.object_ && item.key.kind == kind
  }

  /** The objects of a kind, each once, in some order. */
  ghost predicate Lists(items: seq<Item>, store: Store, kind: Kind) {
    && (forall i :: 0 <= i < |items| ==> Listed(items[i], store, kind))
    && (forall k :: k in store && k.kind == kind ==> Item(k, store[k]) in items)
    && (forall i, j :: 0 <= i < j < |items| ==> items[i] != items[j])
  }

  /** How call number n goes, and what order it lists in if it is a listing. */
  datatype Script = Script(answer: nat -> Answer, order: (nat, Store, Kind) -> seq<Item>)

  ghost predicate Fair(c: Script) {
    forall n, store, kind :: Lists(c.order(n, store, kind), store, kind)
  }

  /** The objects there are, and how many calls have been made. */
  datatype World = World(store: Store, calls: nat)

  ghost predicate AllWork(c: Script, from: nat) { forall n: nat :: n >= from ==> c.answer(n) == Works }

  datatype Found = Got(object_: Object) | Missing | NoAnswer

  function GetBy(c: Script, w: World, k: Key): Found {
    if c.answer(w.calls) != Works then NoAnswer
    else if k in w.store then Got(w.store[k])
    else Missing
  }

  function Called(w: World): World { w.(calls := w.calls + 1) }

  datatype Added = Created | Exists | AddFailed

  function AddBy(c: Script, w: World, k: Key): Added {
    if c.answer(w.calls) != Works then AddFailed else if k in w.store then Exists else Created
  }

  function AddLeaves(c: Script, w: World, k: Key, o: Object): World {
    if c.answer(w.calls) == Fails || k in w.store then Called(w) else World(w.store[k := o], w.calls + 1)
  }

  function UpdateBy(c: Script, w: World, k: Key): bool { c.answer(w.calls) == Works && k in w.store }

  function UpdateLeaves(c: Script, w: World, k: Key, o: Object): World {
    if c.answer(w.calls) == Fails || k !in w.store then Called(w) else World(w.store[k := o], w.calls + 1)
  }

  /** False when the call fails; an object that is not there counts as deleted. */
  function DeleteBy(c: Script, w: World): bool { c.answer(w.calls) == Works }

  function DeleteLeaves(c: Script, w: World, k: Key): World {
    if c.answer(w.calls) == Fails then Called(w) else World(w.store - {k}, w.calls + 1)
  }

  /** One that works tells what it did; one that fails does nothing, or fails only for the caller. */
  lemma CallsGo(c: Script, w: World, k: Key, o: Object)
    ensures c.answer(w.calls) == Works ==>
              && GetBy(c, w, k) == (if k in w.store then Got(w.store[k]) else Missing)
              && AddBy(c, w, k) == (if k in w.store then Exists else Created)
              && UpdateBy(c, w, k) == (k in w.store) && DeleteBy(c, w)
    ensures c.answer(w.calls) != Works ==>
              GetBy(c, w, k) == NoAnswer && AddBy(c, w, k) == AddFailed && !UpdateBy(c, w, k) && !DeleteBy(c, w)
    ensures c.answer(w.calls) != Fails ==>
              && AddLeaves(c, w, k, o).store == (if k in w.store then w.store else w.store[k := o])
              && UpdateLeaves(c, w, k, o).store == (if k in w.store then w.store[k := o] else w.store)
              && DeleteLeaves(c, w, k).store == map j | j in w.store && j != k :: w.store[j]
    ensures c.answer(w.calls) == Fails ==>
              AddLeaves(c, w, k, o).store == UpdateLeaves(c, w, k, o).store == DeleteLeaves(c, w, k).store == w.store
    ensures forall t :: t in {Called(w), AddLeaves(c, w, k, o), UpdateLeaves(c, w, k, o), DeleteLeaves(c, w, k)} ==>
              t.calls == w.calls + 1
    ensures Called(w).store == w.store
  {
  }

  /** The cluster, run by a script. */
  class Cluster {
    const script: Script
    var store: Store
    var calls: nat

    constructor (script: Script, store: Store)
      ensures this.script == script && View() == World(store, 0)
    {
      this.script, this.store, this.calls := script, store, 0;
    }

    function View(): World
      reads this
    {
      World(store, calls)
    }

    /** A step that may fail without touching the cluster. */
    method Check() returns (ok: bool)
      modifies this
      ensures ok == (script.answer(old(calls)) == Works) && View() == Called(old(View()))
    {
      ok := script.answer(calls) == Works;
      calls := calls + 1;
    }

    method Get(k: Key) returns (found: Found)
      modifies this
      ensures found == GetBy(script, old(View()), k) && View() == Called(old(View()))
    {
      found := if script.answer(calls) != Works then NoAnswer else if k in store then Got(store[k]) else Missing;
      calls := calls + 1;
    }

    method Add(k: Key, o: Object) returns (added: Added)
      modifies this
      ensures added == AddBy(script, old(View()), k) && View() == AddLeaves(script, old(View()), k, o)
    {
      var answer := script.answer(calls);
      added := if answer != Works then AddFailed else if k in store then Exists else Created;
      if answer != Fails && k !in store { store := store[k := o]; }
      calls := calls + 1;
    }

    method Update(k: Key, o: Object) returns (ok: bool)
      modifies this
      ensures ok == UpdateBy(script, old(View()), k) && View() == UpdateLeaves(script, old(View()), k, o)
    {
      var answer := script.answer(calls);
      ok := answer == Works && k in store;
      if answer != Fails && k in store { store := store[k := o]; }
      calls := calls + 1;
    }

    method Delete(k: Key) returns (ok: bool)
      modifies this
      ensures ok == DeleteBy(script, old(View())) && View() == DeleteLeaves(script, old(View()), k)
    {
      var answer := script.answer(calls);
      ok := answer == Works;
      if answer != Fails { store := store - {k}; }
      calls := calls + 1;
    }

    method List(kind: Kind) returns (answered: bool, items: seq<Item>)
      modifies this
      ensures answered == (script.answer(old(calls)) == Works) && View() == Called(old(View()))
      ensures items == script.order(old(calls), store, kind)
    {
      answered, items := script.answer(calls) == Works, script.order(calls, store, kind);
      calls := calls + 1;
    }
  }
}
