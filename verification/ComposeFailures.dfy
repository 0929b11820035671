/** Two ways a failed compose deploy leaves something behind, call by call (controllers/compose.go,
    controllers/image_app.go, controllers/launchpad.go). */
module ComposeFailures {
  import opened Common
  import opened ClusterStore
  import opened AppUninstall
  import opened ComposeDeploy
  import P = PublishDomain

  function Web(name: string, domain: P.Domain): Request {
    Request(name, "image", "", "", [80], [], Some([domain]))
  }

  function Worker(name: string, owner: string): Request {
    Request(name, "image", owner, name, [], [], None)
  }

  /** A web service with a domain, and a worker beside it. */
  function WebPlan(name: string, other: string, domain: P.Domain): Plan {
    Plan(name, [Web(name, domain), Worker(other, name)])
  }

  lemma WebIsPlanned(name: string, other: string, domain: P.Domain)
    requires P.IsValid(domain) && name != "" && other != name
    ensures Planned(WebPlan(name, other, domain))
  {
  }

  /** Every call works but these two. */
  function AllBut(a: nat, b: nat): nat -> Answer { n => if n == a || n == b then Fails else Works }

  // ----- an Ingress that stays -----

  function WebDepl(name: string, domain: P.Domain): Object { DeploymentOf(Web(name, domain)) }
  function WebSvc(name: string, domain: P.Domain): Object { Object(LabelsOf(Web(name, domain)), Routes([80])) }
  function WebIng(name: string, domain: P.Domain): Object {
    Object(LabelsOf(Web(name, domain)), Hosts([domain], ClassOf([domain]), []))
  }

  function DeplOnly(name: string, domain: P.Domain): Store { map[Key(Deployment, name) := WebDepl(name, domain)] }

  function DeplAndSvc(name: string, domain: P.Domain): Store {
    DeplOnly(name, domain)[Key(Service, name) := WebSvc(name, domain)]
  }

  function WebBuilt(name: string, domain: P.Domain): Store {
    DeplAndSvc(name, domain)[Key(Ingress, name) := WebIng(name, domain)]
  }

  function SvcAndIng(name: string, domain: P.Domain): Store {
    map[Key(Service, name) := WebSvc(name, domain), Key(Ingress, name) := WebIng(name, domain)]
  }

  function IngOnly(name: string, domain: P.Domain): Store { map[Key(Ingress, name) := WebIng(name, domain)] }

  /** The stages of a service that is deployed and has ports. */
  lemma ServiceIs(c: Script, w: World, req: Request, claims: World, depl: World, svc: World, ing: World)
    requires req.ports != [] && c.answer(w.calls) == Works && c.answer(claims.calls) == Works
    requires EnsureClaims(c, Called(w), req, 0) == Did(true, claims)
    requires AddBy(c, Called(claims), Key(Deployment, req.name)).Created?
    requires AddLeaves(c, Called(claims), Key(Deployment, req.name), DeploymentOf(req)) == depl
    requires ReconcileService(c, depl, req) == Did(true, svc) && ReconcileIngress(c, svc, req) == Did(true, ing)
    ensures DeployService(c, w, req) == Did(true, ing)
  {
  }

  lemma WebDeploys(c: Script, name: string, domain: P.Domain)
    requires P.IsValid(domain) && c.answer == AllBut(10, 15)
    ensures DeployService(c, World(map[], 3), Web(name, domain)) == Did(true, World(WebBuilt(name, domain), 10))
  {
    var (s1, s2, s3) := (DeplOnly(name, domain), DeplAndSvc(name, domain), WebBuilt(name, domain));
    WebAdded(c, name, domain);
    WebServed(c, name, domain);
    WebRouted(c, name, domain);
    ServiceIs(c, World(map[], 3), Web(name, domain), World(map[], 4), World(s1, 6), World(s2, 8), World(s3, 10));
  }

  lemma WebAdded(c: Script, name: string, domain: P.Domain)
    requires c.answer == AllBut(10, 15)
    ensures var (req, k, w) := (Web(name, domain), Key(Deployment, name), World(map[], 4));
            && c.answer(3) == Works && c.answer(4) == Works && EnsureClaims(c, w, req, 0) == Did(true, w)
            && AddBy(c, Called(w), k).Created?
            && AddLeaves(c, Called(w), k, DeploymentOf(req)) == World(DeplOnly(name, domain), 6)
  {
  }

  lemma WebServed(c: Script, name: string, domain: P.Domain)
    requires c.answer == AllBut(10, 15)
    ensures ReconcileService(c, World(DeplOnly(name, domain), 6), Web(name, domain))
          == Did(true, World(DeplAndSvc(name, domain), 8))
  {
  }

  lemma WebRouted(c: Script, name: string, domain: P.Domain)
    requires P.IsValid(domain) && c.answer == AllBut(10, 15)
    ensures ReconcileIngress(c, World(DeplAndSvc(name, domain), 8), Web(name, domain))
          == Did(true, World(WebBuilt(name, domain), 10))
  {
    OneDomain(Web(name, domain));
    IngressIs(c, World(DeplAndSvc(name, domain), 8), Web(name, domain), [domain]);
  }

  /** An Ingress is added where there was none. */
  lemma IngressIs(c: Script, w: World, req: Request, domains: seq<P.Domain>)
    requires req.domains == Some(domains) && domains != [] && P.ValidOnly(domains) == domains
    requires c.answer(w.calls) == c.answer(w.calls + 1) == Works && Key(Ingress, req.name) !in w.store
    ensures var o := Object(LabelsOf(req), Hosts(domains, ClassOf(domains), []));
            ReconcileIngress(c, w, req) == Did(true, World(w.store[Key(Ingress, req.name) := o], w.calls + 2))
  {
    assert GetBy(c, w, Key(Ingress, req.name)) == Missing;
  }

  /** A listing of a single object. */
  lemma ListsOne(items: seq<Item>, store: Store, kind: Kind, k: Key)
    requires Lists(items, store, kind) && k in store && k.kind == kind
    requires forall m :: m in store && m.kind == kind ==> m == k
    ensures items == [Item(k, store[k])]
  {
    assert Item(k, store[k]) in items;
    forall i | 0 <= i < |items| ensures items[i] == Item(k, store[k]) { assert Listed(items[i], store, kind); }
    var j := if |items| > 1 then 1 else 0;
    assert items[j] == items[0];
  }

  lemma ListsNone(items: seq<Item>, store: Store, kind: Kind)
    requires Lists(items, store, kind) && forall m :: m in store ==> m.kind != kind
    ensures items == []
  {
    assert items != [] ==> Listed(items[0], store, kind);
  }

  /** A kind with one object, which belongs to the app: two calls take it away. */
  lemma DeletesOne(c: Script, w: World, kind: Kind, app: string, k: Key)
    requires Fair(c) && c.answer(w.calls) == c.answer(w.calls + 1) == Works
    requires k in w.store && k.kind == kind && Belongs(k, w.store[k], app)
    requires forall m :: m in w.store && m.kind == kind ==> m == k
    ensures DeleteKind(c, w, kind, app) == Purged(true, 1, 0, World(w.store - {k}, w.calls + 2))
  {
    var items := c.order(w.calls, w.store, kind);
    assert Lists(items, w.store, kind);
    ListsOne(items, w.store, kind, k);
    var next := DeleteLeaves(c, Called(w), k);
    assert next == World(w.store - {k}, w.calls + 2) && items[1..] == [];
    assert DeleteItems(c, next, items[1..], app, 1, 0) == Purged(true, 1, 0, next);
  }

  lemma DeletesNone(c: Script, w: World, kind: Kind, app: string)
    requires Fair(c) && c.answer(w.calls) == Works && forall m :: m in w.store ==> m.kind != kind
    ensures DeleteKind(c, w, kind, app) == Purged(true, 0, 0, Called(w))
  {
    var items := c.order(w.calls, w.store, kind);
    assert Lists(items, w.store, kind);
    ListsNone(items, w.store, kind);
  }

  /** The first of the kinds to be swept, and the rest. */
  lemma SweepsFirst(c: Script, w: World, kind: Kind, rest: seq<Kind>, app: string, answered: set<Kind>, failures: nat)
    ensures var p := DeleteKind(c, w, kind, app);
            DeleteKinds(c, w, [kind] + rest, app, answered, failures) ==
              DeleteKinds(c, p.world, rest, app, if p.answered then answered + {kind} else answered,
                          failures + p.failures)
  {
    assert ([kind] + rest)[1..] == rest;
  }

  /** Kinds there is nothing of are listed one after the other. */
  lemma {:induction false} SweepsEmpty(c: Script, w: World, kinds: seq<Kind>, app: string, answered: set<Kind>,
                                       failures: nat)
    requires Fair(c) && forall n :: w.calls <= n < w.calls + |kinds| ==> c.answer(n) == Works
    requires forall m :: m in w.store ==> m.kind !in kinds
    ensures DeleteKinds(c, w, kinds, app, answered, failures) ==
              Swept(answered + (set k | k in kinds), failures, World(w.store, w.calls + |kinds|))
    decreases |kinds|
  {
    if kinds == [] {
      assert answered + (set k | k in kinds) == answered;
    } else {
      var (kind, rest) := (kinds[0], kinds[1..]);
      assert [kind] + rest == kinds;
      SweepsFirst(c, w, kind, rest, app, answered, failures);
      DeletesNone(c, w, kind, app);
      SweepsEmpty(c, Called(w), rest, app, answered + {kind}, failures);
      assert answered + {kind} + (set k | k in rest) == answered + (set k | k in kinds);
    }
  }

  /** The first kind cannot be listed, and of the rest there is nothing. */
  lemma SweepsRest(c: Script, w: World, kind: Kind, rest: seq<Kind>, app: string)
    requires Fair(c) && c.answer(w.calls) == Fails && forall m :: m in w.store ==> m.kind !in rest
    requires forall n :: w.calls < n <= w.calls + |rest| ==> c.answer(n) == Works
    ensures DeleteKinds(c, w, [kind] + rest, app, {}, 0) ==
              Swept(set k | k in rest, 0, World(w.store, w.calls + 1 + |rest|))
  {
    SweepsFirst(c, w, kind, rest, app, {}, 0);
    SweepsEmpty(c, Called(w), rest, app, {}, 0);
    assert {} + (set k | k in rest) == set k | k in rest;
  }

  lemma SweepsNothing(c: Script, store: Store, app: string)
    requires Fair(c) && c.answer == AllBut(10, 15) && forall k :: k in store ==> k.kind == Ingress
    ensures DeleteExtras(c, World(store, 15), app) == Swept({Autoscaler, ConfigMap, Secret, Job}, 0, World(store, 20))
  {
    var rest := [Autoscaler, ConfigMap, Secret, Job];
    assert ExtraKinds == [Ingress] + rest;
    assert (set k | k in rest) == {Autoscaler, ConfigMap, Secret, Job};
    SweepsRest(c, World(store, 15), Ingress, rest, app);
  }

  /** The stages of an uninstall that finds a Deployment and lists what it has to. */
  lemma UninstallIs(c: Script, w: World, app: string, d: Purged, s: Purged, e: Swept, v: Purged)
    requires d == DeleteKind(c, w, Deployment, app) && d.answered && d.removed > 0
    requires s == DeleteKind(c, d.world, Service, app) && s.answered
    requires e == DeleteExtras(c, s.world, app) && v == DeleteKind(c, e.world, Claim, app) && v.answered
    ensures Uninstall(c, w, app, true)
            == Uninstalled(d.failures + s.failures + e.failures + v.failures == 0, e.answered, v.world)
  {
  }

  lemma WebKinds(name: string, domain: P.Domain)
    requires name != ""
    ensures var (built, both, left) := (WebBuilt(name, domain), SvcAndIng(name, domain), IngOnly(name, domain));
            && built - {Key(Deployment, name)} == both && both - {Key(Service, name)} == left
            && (forall k :: k in built ==> Belongs(k, built[k], name))
            && (forall k :: k in both ==> Belongs(k, both[k], name))
            && (forall k :: k in built && k.kind == Deployment ==> k == Key(Deployment, name))
            && (forall k :: k in both && k.kind == Service ==> k == Key(Service, name))
            && (forall k :: k in left ==> k.kind == Ingress)
  {
    OwnLabels(Web(name, domain));
  }

  lemma WebGoes(c: Script, name: string, domain: P.Domain)
    requires Fair(c) && c.answer == AllBut(10, 15) && name != ""
    ensures var (built, both, left) := (WebBuilt(name, domain), SvcAndIng(name, domain), IngOnly(name, domain));
            && DeleteKind(c, World(built, 11), Deployment, name) == Purged(true, 1, 0, World(both, 13))
            && DeleteKind(c, World(both, 13), Service, name) == Purged(true, 1, 0, World(left, 15))
  {
    WebKinds(name, domain);
    DeletesOne(c, World(WebBuilt(name, domain), 11), Deployment, name, Key(Deployment, name));
    DeletesOne(c, World(SvcAndIng(name, domain), 13), Service, name, Key(Service, name));
  }

  lemma CleansUpButIngress(c: Script, name: string, domain: P.Domain)
    requires Fair(c) && c.answer == AllBut(10, 15) && name != ""
    ensures Uninstall(c, World(WebBuilt(name, domain), 11), name, true)
            == Uninstalled(true, {Autoscaler, ConfigMap, Secret, Job}, World(IngOnly(name, domain), 21))
  {
    var (built, both, left) := (WebBuilt(name, domain), SvcAndIng(name, domain), IngOnly(name, domain));
    WebKinds(name, domain);
    WebGoes(c, name, domain);
    SweepsNothing(c, left, name);
    DeletesNone(c, World(left, 20), Claim, name);
    UninstallIs(c, World(built, 11), name, Purged(true, 1, 0, World(both, 13)), Purged(true, 1, 0, World(left, 15)),
                Swept({Autoscaler, ConfigMap, Secret, Job}, 0, World(left, 20)), Purged(true, 0, 0, World(left, 21)));
  }

  /** The web service is deployed, the worker fails at once, the Ingresses cannot be listed: the
      clean-up reports success, and the Ingress of the app that is gone is all there is. */
  lemma IngressLeftBehind(c: Script, name: string, other: string, domain: P.Domain)
    requires Fair(c) && c.answer == AllBut(10, 15)
    requires P.IsValid(domain) && name != "" && other != "" && other != name
    ensures var e := Deploy(c, World(map[], 0), WebPlan(name, other, domain));
            && Planned(WebPlan(name, other, domain)) && e.outcome == Failed(true)
            && e.world.store == IngOnly(name, domain) && HasKind(e.world.store, Ingress, name)
  {
    var plan := WebPlan(name, other, domain);
    WebIsPlanned(name, other, domain);
    WebNames(c, plan);
    WebFails(c, name, other, domain);
    CleansUpButIngress(c, name, domain);
    var (w, left) := (World(WebBuilt(name, domain), 11), IngOnly(name, domain));
    DeployIs(c, World(map[], 0), plan, Names(true, [], World(map[], 3)), Did(false, w),
             Uninstalled(true, {Autoscaler, ConfigMap, Secret, Job}, World(left, 21)));
    OwnLabels(Web(name, domain));
    var k := Key(Ingress, name);
    assert k in left && Belongs(k, left[k], name);
  }

  lemma WebNames(c: Script, plan: Plan)
    requires c.answer == AllBut(10, 15) && |plan.requests| == 2
    ensures CheckNames(c, World(map[], 1), plan, 0, []) == Names(true, [], World(map[], 3))
  {
    assert CheckNames(c, World(map[], 3), plan, 2, []) == Names(true, [], World(map[], 3));
    assert CheckNames(c, World(map[], 2), plan, 1, []) == Names(true, [], World(map[], 3));
  }

  lemma WebFails(c: Script, name: string, other: string, domain: P.Domain)
    requires c.answer == AllBut(10, 15) && P.IsValid(domain)
    ensures DeployFrom(c, World(map[], 3), WebPlan(name, other, domain), 0)
          == Did(false, World(WebBuilt(name, domain), 11))
  {
    var (plan, w) := (WebPlan(name, other, domain), World(WebBuilt(name, domain), 10));
    WebDeploys(c, name, domain);
    assert DeployService(c, w, plan.requests[1]) == Did(false, Called(w));
    assert DeployFrom(c, w, plan, 1) == Did(false, Called(w));
  }

  /** The stages of a deploy that fails. */
  lemma DeployIs(c: Script, w: World, plan: Plan, names: Names, d: Did, u: Uninstalled)
    requires c.answer(w.calls) == Works
    requires names == CheckNames(c, Called(w), plan, 0, []) && names.answered && names.taken == []
    requires d == DeployFrom(c, names.world, plan, 0) && !d.ok && u == Uninstall(c, d.world, plan.main, true)
    ensures Deploy(c, w, plan) == Ended(Failed(u.ok), d.world.store, u.answered, u.world)
  {
  }

  /** The stages of one that does not. */
  lemma DoneIs(c: Script, w: World, plan: Plan, names: Names, done: World)
    requires c.answer(w.calls) == Works
    requires names == CheckNames(c, Called(w), plan, 0, []) && names.answered && names.taken == []
    requires DeployFrom(c, names.world, plan, 0) == Did(true, done)
    ensures Deploy(c, w, plan) == Ended(Done, done.store, {}, done)
  {
  }

  // ----- claims that stay -----

  function Stored(name: string): Request { Request(name, "image", "", "", [], [Volume("/data", "1Gi")], None) }

  function StoredPlan(name: string): Plan { Plan(name, [Stored(name)]) }

  function ClaimOnly(name: string): Store { map[Key(Claim, ClaimName(name, 0)) := ClaimOf(Stored(name), 0)] }

  /** A service's claim is made and its Deployment refused; every other call works, and the clean-up
      fails all the same, leaving the claim: there is no Deployment to tell it the app was there. */
  lemma ClaimLeftBehind(c: Script, name: string)
    requires Fair(c) && c.answer == AllBut(6, 6) && name != ""
    ensures var e := Deploy(c, World(map[], 0), StoredPlan(name));
            Planned(StoredPlan(name)) && e.outcome == Failed(false) && e.world.store == ClaimOnly(name)
  {
    var (plan, req) := (StoredPlan(name), Stored(name));
    assert CheckNames(c, World(map[], 1), plan, 0, []) == Names(true, [], World(map[], 2));
    var (k, left) := (Key(Claim, ClaimName(name, 0)), ClaimOnly(name));
    assert AddLeaves(c, World(map[], 4), k, ClaimOf(req, 0)) == World(left, 5);
    assert EnsureClaims(c, World(left, 5), req, 1) == Did(true, World(left, 5));
    assert EnsureClaims(c, World(map[], 3), req, 0) == Did(true, World(left, 5));
    assert DeployService(c, World(map[], 2), req) == Did(false, World(left, 7));
    assert DeployFrom(c, World(map[], 2), plan, 0) == Did(false, World(left, 7));
    DeletesNone(c, World(left, 7), Deployment, name);
  }

  // ----- data that goes -----

  /** The stages of a service that is deployed and has no ports, up to its headless Service. */
  lemma PortlessIs(c: Script, w: World, req: Request, claims: World, depl: World)
    requires req.ports == [] && req.domains.None? && c.answer(w.calls) == Works && c.answer(claims.calls) == Works
    requires EnsureClaims(c, Called(w), req, 0) == Did(true, claims)
    requires AddBy(c, Called(claims), Key(Deployment, req.name)).Created?
    requires AddLeaves(c, Called(claims), Key(Deployment, req.name), DeploymentOf(req)) == depl
    requires c.answer(depl.calls) == Works && Key(Service, req.name) !in depl.store
    ensures DeployService(c, w, req) == AddHeadless(c, Called(depl), req)
  {
  }

  function StoredDepl(name: string): Store { ClaimOnly(name)[Key(Deployment, name) := DeploymentOf(Stored(name))] }

  function StoredBuilt(name: string): Store {
    StoredDepl(name)[Key(Service, name) := Object(LabelsOf(Stored(name)), Headless)]
  }

  ghost predicate WorkFrom(c: Script, from: nat, count: nat) {
    forall n: nat :: from <= n < from + count ==> c.answer(n) == Works
  }

  /** The claim is made, or the one that is there is used. */
  lemma StoredClaims(c: Script, w: World, name: string)
    requires w.store == map[] || w.store == ClaimOnly(name)
    requires WorkFrom(c, w.calls, 2)
    ensures EnsureClaims(c, w, Stored(name), 0) == Did(true, World(ClaimOnly(name), w.calls + 2))
  {
    var (req, k, w1) := (Stored(name), Key(Claim, ClaimName(name, 0)), Called(w));
    assert AddLeaves(c, w1, k, ClaimOf(req, 0)) == World(ClaimOnly(name), w.calls + 2);
    var w2 := World(ClaimOnly(name), w.calls + 2);
    assert EnsureClaims(c, w2, req, 1) == Did(true, w2);
  }

  /** With the calls before it working, the deploy comes down to whether the headless Service is added. */
  lemma StoredRuns(c: Script, w: World, name: string)
    requires w.store == map[] || w.store == ClaimOnly(name)
    requires WorkFrom(c, w.calls, 8)
    ensures var (plan, w1) := (StoredPlan(name), World(w.store, w.calls + 2));
            && CheckNames(c, Called(w), plan, 0, []) == Names(true, [], w1)
            && DeployFrom(c, w1, plan, 0) == AddHeadless(c, World(StoredDepl(name), w.calls + 8), Stored(name))
  {
    var (plan, req, w1, k) := (StoredPlan(name), Stored(name), World(w.store, w.calls + 2), Key(Deployment, name));
    assert CheckNames(c, w1, plan, 1, []) == Names(true, [], w1);
    StoredClaims(c, Called(w1), name);
    var (claims, depl) := (World(ClaimOnly(name), w.calls + 5), World(StoredDepl(name), w.calls + 7));
    PortlessIs(c, w1, req, claims, depl);
    var d := DeployService(c, w1, req);
    assert DeployFrom(c, d.world, plan, 1) == Did(true, d.world);
  }

  lemma StoredKinds(name: string)
    requires name != ""
    ensures var (built, both, left) := (StoredBuilt(name), StoredDepl(name), ClaimOnly(name));
            && built - {Key(Deployment, name)} - {Key(Service, name)} == left && both - {Key(Deployment, name)} == left
            && left - {Key(Claim, ClaimName(name, 0))} == map[]
            && (forall k :: k in built ==> Belongs(k, built[k], name) && k.kind in {Deployment, Service, Claim})
            && (forall k :: k in built && k.kind == Deployment ==> k == Key(Deployment, name))
            && (forall k :: k in built && k.kind == Service ==> k == Key(Service, name))
            && (forall k :: k in left ==> k == Key(Claim, ClaimName(name, 0)))
  {
    OwnLabels(Stored(name));
  }

  lemma SweepsNoExtras(c: Script, w: World, app: string)
    requires Fair(c) && WorkFrom(c, w.calls, 5) && forall k :: k in w.store ==> k.kind !in ExtraKinds
    ensures DeleteExtras(c, w, app) == Swept(Extras, 0, World(w.store, w.calls + 5))
  {
    SweepsEmpty(c, w, ExtraKinds, app, {}, 0);
    ExtrasListed();
  }

  lemma ExtrasListed()
    ensures {} + (set k | k in ExtraKinds) == Extras
  {
  }

  /** The app is uninstalled and its data kept. */
  lemma KeepsClaim(c: Script, name: string)
    requires Fair(c) && WorkFrom(c, 9, 9) && name != ""
    ensures Uninstall(c, World(StoredBuilt(name), 9), name, false)
            == Uninstalled(true, Extras, World(ClaimOnly(name), 18))
  {
    var (built, both) := (StoredBuilt(name), StoredBuilt(name) - {Key(Deployment, name)});
    StoredKinds(name);
    DeletesOne(c, World(built, 9), Deployment, name, Key(Deployment, name));
    DeletesOne(c, World(both, 11), Service, name, Key(Service, name));
    SweepsNoExtras(c, World(ClaimOnly(name), 13), name);
  }

  lemma ClaimGoes(c: Script, name: string)
    requires Fair(c) && WorkFrom(c, 27, 10) && name != ""
    ensures var (built, left) := (StoredDepl(name), ClaimOnly(name));
            && DeleteKind(c, World(built, 27), Deployment, name) == Purged(true, 1, 0, World(left, 29))
            && DeleteKind(c, World(left, 35), Claim, name) == Purged(true, 1, 0, World(map[], 37))
  {
    StoredKinds(name);
    DeletesOne(c, World(StoredDepl(name), 27), Deployment, name, Key(Deployment, name));
    DeletesOne(c, World(ClaimOnly(name), 35), Claim, name, Key(Claim, ClaimName(name, 0)));
  }

  /** The roll-back of the app takes the data with it. */
  lemma TakesClaim(c: Script, name: string)
    requires Fair(c) && WorkFrom(c, 27, 10) && name != ""
    ensures Uninstall(c, World(StoredDepl(name), 27), name, true) == Uninstalled(true, Extras, World(map[], 37))
  {
    var left := ClaimOnly(name);
    ClaimGoes(c, name);
    DeletesNone(c, World(left, 29), Service, name);
    SweepsNoExtras(c, World(left, 30), name);
    UninstallIs(c, World(StoredDepl(name), 27), name, Purged(true, 1, 0, World(left, 29)),
                Purged(true, 0, 0, World(left, 30)), Swept(Extras, 0, World(left, 35)),
                Purged(true, 1, 0, World(map[], 37)));
  }

  /** An app is deployed, and uninstalled with its data kept. Deploying it again fails at its headless
      Service, and the roll-back deletes the data, which the deploy had found and not made. */
  lemma KeptDataLost(c: Script, name: string)
    requires Fair(c) && c.answer == AllBut(26, 26) && name != ""
    ensures var first := Deploy(c, World(map[], 0), StoredPlan(name));
            var gone := Uninstall(c, first.world, name, false);
            var again := Deploy(c, gone.world, StoredPlan(name));
            && Planned(StoredPlan(name)) && first.outcome == Done
            && gone.ok && gone.world.store == ClaimOnly(name) && Clear(StoredPlan(name), ClaimOnly(name))
            && again.outcome == Failed(true) && Ingress in again.answered && again.world.store == map[]
  {
    StoredIsPlanned(name);
    StoredDeploys(c, name);
    KeepsClaim(c, name);
    StoredFails(c, name);
  }

  lemma StoredIsPlanned(name: string)
    requires name != ""
    ensures Planned(StoredPlan(name)) && Clear(StoredPlan(name), ClaimOnly(name)) && Ingress in Extras
  {
    assert OwnerOf(StoredPlan(name).requests[0]) == name;
  }

  lemma StoredDeploys(c: Script, name: string)
    requires c.answer == AllBut(26, 26)
    ensures Deploy(c, World(map[], 0), StoredPlan(name))
            == Ended(Done, StoredBuilt(name), {}, World(StoredBuilt(name), 9))
  {
    var (w, done) := (World(map[], 0), World(StoredBuilt(name), 9));
    StoredRuns(c, w, name);
    assert AddHeadless(c, World(StoredDepl(name), 8), Stored(name)) == Did(true, done);
    DoneIs(c, w, StoredPlan(name), Names(true, [], World(map[], 2)), done);
  }

  lemma StoredFails(c: Script, name: string)
    requires Fair(c) && c.answer == AllBut(26, 26) && name != ""
    ensures Deploy(c, World(ClaimOnly(name), 18), StoredPlan(name))
            == Ended(Failed(true), StoredDepl(name), Extras, World(map[], 37))
  {
    var w := World(ClaimOnly(name), 18);
    StoredRuns(c, w, name);
    assert AddHeadless(c, World(StoredDepl(name), 26), Stored(name)) == Did(false, World(StoredDepl(name), 27));
    TakesClaim(c, name);
    DeployIs(c, w, StoredPlan(name), Names(true, [], World(w.store, 20)), Did(false, World(StoredDepl(name), 27)),
             Uninstalled(true, Extras, World(map[], 37)));
  }

  // ----- there are such scripts -----

  /** The objects of a kind in some order. */
  ghost function Ordered(store: Store, kind: Kind): seq<Item>
    ensures Lists(Ordered(store, kind), store, kind)
  {
    if store == map[] then []
    else
      var k :| k in store;
      var rest := Ordered(store - {k}, kind);
      assert forall m :: m in store && m != k ==> m in store - {k};
      if k.kind == kind then [Item(k, store[k])] + rest else rest
  }

  /** So every choice of answers belongs to a fair script. */
  lemma SomeScriptIsFair(answer: nat -> Answer)
    ensures exists c :: Fair(c) && c.answer == answer
  {
    var c := Script(answer, (n: nat, store: Store, kind: Kind) => Ordered(store, kind));
    assert Fair(c);
  }
}
