/** Deploying a compose project and taking it back when a service fails: deployCompose in
    controllers/compose.go, deployAppWorkload in controllers/app.go, reconcileAppService in
    controllers/image_app.go, reconcileAppIngress in controllers/launchpad.go and ensureDeploymentPVCs in
    controllers/deployment_storage.go. All of it happens in the project's own namespace; what happens is
    a function of the script that answers the calls. */
module ComposeDeploy {
  import opened Common
  import opened ClusterStore
  import opened AppUninstall
  import P = PublishDomain

  datatype Volume = Volume(path: string, size: string)

  datatype Request = Request(
    name: string, image: string, owner: string, component: string,
    ports: seq<int>, volumes: seq<Volume>, domains: Option<seq<P.Domain>>)

  datatype Plan = Plan(main: string, requests: seq<Request>)

  function OwnerOf(req: Request): string { if req.owner == "" then req.name else req.owner }

  function LabelsOf(req: Request): map<string, string> { Labels(OwnerOf(req), req.component) }

  function ClaimName(name: string, i: nat): string { name + "-vol-" + Decimal(i) }

  // ----- one service -----

  /** Whether it worked, and the world it left. */
  datatype Did = Did(ok: bool, world: World)

  function ClaimOf(req: Request, i: nat): Object
    requires i < |req.volumes|
  {
    Object(LabelsOf(req), Disk(if req.volumes[i].size == "" then "1Gi" else req.volumes[i].size))
  }

  /** The claims from volume i on. A size that cannot be read is a failure; a claim that is there
      already is used as it is. */
  function EnsureClaims(c: Script, w: World, req: Request, i: nat): Did
    requires i <= |req.volumes|
    decreases |req.volumes| - i
  {
    if i == |req.volumes| then Did(true, w)
    else if req.volumes[i].path == "" then EnsureClaims(c, w, req, i + 1)
    else if c.answer(w.calls) != Works then Did(false, Called(w))
    else
      var (k, claim) := (Key(Claim, ClaimName(req.name, i)), ClaimOf(req, i));
      if AddBy(c, Called(w), k).AddFailed? then Did(false, AddLeaves(c, Called(w), k, claim))
      else EnsureClaims(c, AddLeaves(c, Called(w), k, claim), req, i + 1)
  }

  function ReconcileService(c: Script, w: World, req: Request): Did {
    var (k, found, w1) := (Key(Service, req.name), GetBy(c, w, Key(Service, req.name)), Called(w));
    if found.NoAnswer? then Did(false, w1)
    else if req.ports == [] then
      if found.Missing? then Did(true, w1) else Did(DeleteBy(c, w1), DeleteLeaves(c, w1, k))
    else if found.Missing? then
      Did(AddBy(c, w1, k).Created?, AddLeaves(c, w1, k, Object(LabelsOf(req), Routes(req.ports))))
    else
      Did(UpdateBy(c, w1, k), UpdateLeaves(c, w1, k, Object(found.object_.labels + LabelsOf(req), Routes(req.ports))))
  }

  function ClassOf(domains: seq<P.Domain>): Option<string> {
    if P.FirstClass(domains) == "" then None else Some(P.FirstClass(domains))
  }

  function TlsOf(o: Object): seq<P.Tls> { if o.content.Hosts? then o.content.tls else [] }

  function ReconcileIngress(c: Script, w: World, req: Request): Did {
    if req.domains.None? then Did(true, w)
    else
      var (k, found, w1) := (Key(Ingress, req.name), GetBy(c, w, Key(Ingress, req.name)), Called(w));
      var domains := P.ValidOnly(req.domains.value);
      if found.NoAnswer? then Did(false, w1)
      else if domains == [] then
        if found.Got? && Owned(found.object_, req.name) then Did(DeleteBy(c, w1), DeleteLeaves(c, w1, k))
        else Did(true, w1)
      else if found.Missing? then
        Did(AddBy(c, w1, k).Created?, AddLeaves(c, w1, k, Object(LabelsOf(req), Hosts(domains, ClassOf(domains), []))))
      else
        var hosts := Hosts(domains, ClassOf(domains), TlsOf(found.object_));
        Did(UpdateBy(c, w1, k), UpdateLeaves(c, w1, k, Object(found.object_.labels + LabelsOf(req), hosts)))
  }

  function AddHeadless(c: Script, w: World, req: Request): Did {
    var k := Key(Service, req.name);
    Did(AddBy(c, w, k).Created?, AddLeaves(c, w, k, Object(LabelsOf(req), Headless)))
  }

  /** What the pod mounts of the first n volumes. */
  function MountsOf(req: Request, n: nat): seq<Mount>
    requires n <= |req.volumes|
  {
    if n == 0 then [] else MountsOf(req, n - 1) + [Mount(ClaimName(req.name, n - 1), req.volumes[n - 1].path)]
  }

  function DeploymentOf(req: Request): Object {
    Object(LabelsOf(req), Workload(req.image, MountsOf(req, |req.volumes|)))
  }

  /** deployAppWorkload, for a request as a compose project makes them: no config files, registry or
      autoscaler. Building the Deployment may fail before the claims are made and after. */
  function DeployWorkload(c: Script, w: World, req: Request): Did {
    if c.answer(w.calls) != Works then Did(false, Called(w))
    else
      var claims := EnsureClaims(c, Called(w), req, 0);
      if !claims.ok then claims
      else if c.answer(claims.world.calls) != Works then Did(false, Called(claims.world))
      else
        var (k, w1) := (Key(Deployment, req.name), Called(claims.world));
        var w2 := AddLeaves(c, w1, k, DeploymentOf(req));
        if !AddBy(c, w1, k).Created? then Did(false, w2)
        else
          var s := ReconcileService(c, w2, req);
          if !s.ok then s else ReconcileIngress(c, s.world, req)
  }

  function DeployService(c: Script, w: World, req: Request): Did {
    var d := DeployWorkload(c, w, req);
    if d.ok && req.ports == [] then AddHeadless(c, d.world, req) else d
  }

  // ----- the project -----

  function DeployFrom(c: Script, w: World, plan: Plan, i: nat): Did
    requires i <= |plan.requests|
    decreases |plan.requests| - i
  {
    if i == |plan.requests| then Did(true, w)
    else
      var d := DeployService(c, w, plan.requests[i]);
      if !d.ok then d else DeployFrom(c, d.world, plan, i + 1)
  }

  /** The names that are taken already, unless a call fails. */
  datatype Names = Names(answered: bool, taken: seq<string>, world: World)

  function CheckNames(c: Script, w: World, plan: Plan, i: nat, taken: seq<string>): Names
    requires i <= |plan.requests|
    decreases |plan.requests| - i
  {
    if i == |plan.requests| then Names(true, taken, w)
    else
      match GetBy(c, w, Key(Deployment, plan.requests[i].name))
      case NoAnswer => Names(false, taken, Called(w))
      case Got(_) => CheckNames(c, Called(w), plan, i + 1, taken + [plan.requests[i].name])
      case Missing => CheckNames(c, Called(w), plan, i + 1, taken)
  }

  datatype Outcome = Refused | Done | Failed(cleaned: bool)

  /** How a deploy ends. built is the store as the services left it, answered the extras a clean-up
      could list. */
  datatype Ended = Ended(outcome: Outcome, built: Store, answered: set<Kind>, world: World)

  function Deploy(c: Script, w: World, plan: Plan): Ended {
    if c.answer(w.calls) != Works then Ended(Refused, w.store, {}, Called(w))
    else
      var names := CheckNames(c, Called(w), plan, 0, []);
      if !names.answered || names.taken != [] then Ended(Refused, w.store, {}, names.world)
      else
        var d := DeployFrom(c, names.world, plan, 0);
        if d.ok then Ended(Done, d.world.store, {}, d.world)
        else
          var u := Uninstall(c, d.world, plan.main, true);
          Ended(Failed(u.ok), d.world.store, u.answered, u.world)
  }

  // ----- what deploying one service does -----

  const Made: set<Kind> := {Deployment, Service, Ingress, Claim}

  /** The objects a service takes for its own, whoever had them. */
  predicate Takes(req: Request, k: Key) {
    k == Key(Service, req.name) || (req.domains.Some? && k == Key(Ingress, req.name))
  }

  /** Only what the service takes may change or go, and whatever is new belongs to its owner. */
  ghost predicate Touches(req: Request, before: Store, after: Store) {
    && (forall k :: k in before && !Takes(req, k) ==> k in after && after[k] == before[k])
    && (forall k :: k in after ==>
          (k in before && after[k] == before[k]) || (k.kind in Made && Owned(after[k], OwnerOf(req))))
  }

  ghost predicate AddsOnly(before: Store, after: Store) {
    && (forall k :: k in before ==> k in after && after[k] == before[k])
    && (forall k :: k in after && k !in before ==> k.kind == Claim)
  }

  ghost predicate SameBut(key: Key, before: Store, after: Store) {
    forall k :: k != key ==> (k in after <==> k in before) && (k in after ==> after[k] == before[k])
  }

  lemma TouchesPut(req: Request, store: Store, k: Key, o: Object)
    requires (k !in store || Takes(req, k)) && k.kind in Made && Owned(o, OwnerOf(req))
    ensures Touches(req, store, store[k := o])
  {
  }

  lemma OwnLabels(req: Request)
    ensures forall content :: Owned(Object(LabelsOf(req), content), OwnerOf(req))
  {
  }

  lemma OwnMerged(req: Request, labels: map<string, string>)
    ensures forall content :: Owned(Object(labels + LabelsOf(req), content), OwnerOf(req))
  {
  }

  ghost predicate HasClaims(req: Request, n: nat, store: Store)
    requires n <= |req.volumes|
  {
    forall i :: 0 <= i < n && req.volumes[i].path != "" ==> Key(Claim, ClaimName(req.name, i)) in store
  }

  /** The Deployment runs the image, and mounts a claim for every volume. */
  ghost predicate Deployed(req: Request, store: Store) {
    var k := Key(Deployment, req.name);
    && k in store && Owned(store[k], OwnerOf(req))
    && store[k].content.Workload? && store[k].content.image == req.image
    && MountsAll(req, store[k].content.mounts)
  }

  ghost predicate MountsAll(req: Request, mounts: seq<Mount>) {
    && |mounts| == |req.volumes|
    && forall i :: 0 <= i < |mounts| ==>
         mounts[i].claim == ClaimName(req.name, i) && mounts[i].path == req.volumes[i].path
  }

  lemma {:induction false} MountsOfAll(req: Request, n: nat)
    requires n <= |req.volumes|
    ensures |MountsOf(req, n)| == n
    ensures forall i :: 0 <= i < n ==> MountsOf(req, n)[i] == Mount(ClaimName(req.name, i), req.volumes[i].path)
    decreases n
  {
    if n > 0 { MountsOfAll(req, n - 1); }
  }

  predicate Routed(req: Request, content: Content, store: Store) {
    var k := Key(Service, req.name); k in store && store[k].content == content && Owned(store[k], OwnerOf(req))
  }

  predicate HasIngress(req: Request, store: Store) {
    req.domains.Some? && P.ValidOnly(req.domains.value) != [] ==>
      var (k, domains) := (Key(Ingress, req.name), P.ValidOnly(req.domains.value));
      && k in store && Owned(store[k], OwnerOf(req))
      && store[k].content.Hosts? && store[k].content.domains == domains
      && store[k].content.className == ClassOf(domains)
  }

  /** Everything the service asked for is there, and its own. */
  ghost predicate Complete(req: Request, store: Store) {
    && Deployed(req, store)
    && HasClaims(req, |req.volumes|, store)
    && HasIngress(req, store)
    && Routed(req, if req.ports == [] then Headless else Routes(req.ports), store)
  }

  /** The claims: all there in the end, and none that was there is changed. */
  lemma {:induction false} ClaimsEnsured(c: Script, w: World, req: Request, i: nat)
    requires i <= |req.volumes| && HasClaims(req, i, w.store)
    ensures var d := EnsureClaims(c, w, req, i);
            && Touches(req, w.store, d.world.store) && AddsOnly(w.store, d.world.store)
            && (d.ok ==> HasClaims(req, |req.volumes|, d.world.store))
    decreases |req.volumes| - i
  {
    if i < |req.volumes| {
      if req.volumes[i].path == "" {
        ClaimsEnsured(c, w, req, i + 1);
      } else if c.answer(w.calls) == Works {
        var (k, claim) := (Key(Claim, ClaimName(req.name, i)), ClaimOf(req, i));
        var next := AddLeaves(c, Called(w), k, claim);
        OwnLabels(req);
        if k !in w.store { TouchesPut(req, w.store, k, claim); }
        if !AddBy(c, Called(w), k).AddFailed? {
          ClaimsEnsured(c, next, req, i + 1);
        }
      }
    }
  }

  /** One Service created, updated or deleted, by its ports, and nothing else. */
  lemma ServiceReconciled(c: Script, w: World, req: Request)
    ensures var (d, k) := (ReconcileService(c, w, req), Key(Service, req.name));
            && Touches(req, w.store, d.world.store) && SameBut(k, w.store, d.world.store)
            && (d.ok ==> if req.ports == [] then k !in d.world.store else Routed(req, Routes(req.ports), d.world.store))
  {
    var k := Key(Service, req.name);
    OwnLabels(req);
    if k in w.store { OwnMerged(req, w.store[k].labels); }
    TouchesPut(req, w.store, k, Object(LabelsOf(req), Routes(req.ports)));
    if k in w.store { TouchesPut(req, w.store, k, Object(w.store[k].labels + LabelsOf(req), Routes(req.ports))); }
  }

  lemma IngressTouches(c: Script, w: World, req: Request)
    ensures var (d, k) := (ReconcileIngress(c, w, req), Key(Ingress, req.name));
            Touches(req, w.store, d.world.store) && SameBut(k, w.store, d.world.store)
  {
    if req.domains.Some? {
      var o := IngressLeft(c, w, req);
    }
  }

  /** The store afterwards is the store before, but for one Ingress of the owner's at most. */
  lemma IngressLeft(c: Script, w: World, req: Request) returns (o: Object)
    requires req.domains.Some?
    ensures Owned(o, OwnerOf(req))
    ensures var (now, k) := (ReconcileIngress(c, w, req).world.store, Key(Ingress, req.name));
            now == w.store || now == w.store - {k} || now == w.store[k := o]
  {
    var (k, domains) := (Key(Ingress, req.name), P.ValidOnly(req.domains.value));
    if k in w.store {
      OwnMerged(req, w.store[k].labels);
      o := Object(w.store[k].labels + LabelsOf(req), Hosts(domains, ClassOf(domains), TlsOf(w.store[k])));
    } else {
      OwnLabels(req);
      o := Object(LabelsOf(req), Hosts(domains, ClassOf(domains), []));
    }
  }

  /** One Ingress created, updated or deleted, and nothing else; one that was there keeps its TLS. */
  lemma IngressReconciled(c: Script, w: World, req: Request)
    ensures var (d, k) := (ReconcileIngress(c, w, req), Key(Ingress, req.name));
            && Touches(req, w.store, d.world.store) && SameBut(k, w.store, d.world.store)
            && (d.ok ==> HasIngress(req, d.world.store))
            && (k in w.store && k in d.world.store ==> TlsOf(d.world.store[k]) == TlsOf(w.store[k]))
  {
    IngressTouches(c, w, req);
    OwnLabels(req);
    var k := Key(Ingress, req.name);
    if k in w.store { OwnMerged(req, w.store[k].labels); }
  }

  /** A Service without ports, where there was none. */
  lemma HeadlessAdded(c: Script, w: World, req: Request)
    ensures var d := AddHeadless(c, w, req);
            && Touches(req, w.store, d.world.store) && SameBut(Key(Service, req.name), w.store, d.world.store)
            && (d.ok ==> Routed(req, Headless, d.world.store))
  {
    var k := Key(Service, req.name);
    OwnLabels(req);
    TouchesPut(req, w.store, k, Object(LabelsOf(req), Headless));
  }

  /** All of what a service asks for but a headless Service. */
  ghost predicate Served(req: Request, store: Store) {
    && Deployed(req, store) && HasClaims(req, |req.volumes|, store) && HasIngress(req, store)
    && if req.ports == [] then Key(Service, req.name) !in store else Routed(req, Routes(req.ports), store)
  }

  lemma WorkloadDeployed(c: Script, w: World, req: Request)
    ensures var d := DeployWorkload(c, w, req);
            Touches(req, w.store, d.world.store) && (d.ok ==> Served(req, d.world.store))
  {
    if c.answer(w.calls) == Works {
      var claims := EnsureClaims(c, Called(w), req, 0);
      ClaimsEnsured(c, Called(w), req, 0);
      if claims.ok && c.answer(claims.world.calls) == Works { WorkloadAdded(c, w.store, Called(claims.world), req); }
    }
  }

  /** From the Deployment on. */
  lemma WorkloadAdded(c: Script, start: Store, w1: World, req: Request)
    requires Touches(req, start, w1.store) && HasClaims(req, |req.volumes|, w1.store)
    ensures var (k, w2) := (Key(Deployment, req.name), AddLeaves(c, w1, Key(Deployment, req.name), DeploymentOf(req)));
            var s := ReconcileService(c, w2, req);
            var g := ReconcileIngress(c, s.world, req);
            && Touches(req, start, w2.store) && Touches(req, start, s.world.store) && Touches(req, start, g.world.store)
            && (AddBy(c, w1, k).Created? && s.ok && g.ok ==> Served(req, g.world.store))
  {
    var k := Key(Deployment, req.name);
    var w2 := AddLeaves(c, w1, k, DeploymentOf(req));
    var s := ReconcileService(c, w2, req);
    var g := ReconcileIngress(c, s.world, req);
    OwnLabels(req);
    MountsOfAll(req, |req.volumes|);
    if k !in w1.store { TouchesPut(req, w1.store, k, DeploymentOf(req)); }
    ServiceReconciled(c, w2, req);
    IngressReconciled(c, s.world, req);
  }

  /** Only the service's own Service and Ingress may be replaced, whatever is new belongs to its owner,
      and when it works everything it asked for is there. */
  lemma ServiceDeployed(c: Script, w: World, req: Request)
    ensures var d := DeployService(c, w, req);
            Touches(req, w.store, d.world.store) && (d.ok ==> Complete(req, d.world.store))
  {
    var d := DeployWorkload(c, w, req);
    WorkloadDeployed(c, w, req);
    if d.ok && req.ports == [] {
      HeadlessAdded(c, d.world, req);
    }
  }

  // ----- what deploying the project does -----

  /** The requests of a plan: one for each name, all of the main service's app, and a domain only
      where there is a port to send it to. */
  ghost predicate Planned(plan: Plan) {
    && (forall i, j :: 0 <= i < j < |plan.requests| ==> plan.requests[i].name != plan.requests[j].name)
    && (forall i :: 0 <= i < |plan.requests| ==> OwnerOf(plan.requests[i]) == plan.main)
    && (forall i :: 0 <= i < |plan.requests| ==> WellRouted(plan.requests[i]))
  }

  predicate WellRouted(req: Request) {
    req.domains.Some? ==> |req.domains.value| == 1 && P.IsValid(req.domains.value[0])
  }

  ghost predicate NoneTaken(plan: Plan, store: Store) {
    forall i :: 0 <= i < |plan.requests| ==> Key(Deployment, plan.requests[i].name) !in store
  }

  ghost predicate AtRisk(plan: Plan, k: Key) { exists i :: 0 <= i < |plan.requests| && Takes(plan.requests[i], k) }

  /** What deploying any part of the plan may have made of the store. */
  ghost predicate Built(plan: Plan, base: Store, now: Store) {
    && (forall k :: k in base && !AtRisk(plan, k) ==> k in now && now[k] == base[k])
    && (forall k :: k in now ==> (k in base && now[k] == base[k]) || (k.kind in Made && Owned(now[k], plan.main)))
  }

  lemma BuiltOn(plan: Plan, base: Store, now: Store, then_: Store, i: nat)
    requires Built(plan, base, now) && i < |plan.requests| && Touches(plan.requests[i], now, then_)
    requires OwnerOf(plan.requests[i]) == plan.main
    ensures Built(plan, base, then_)
  {
  }

  lemma StaysComplete(req: Request, other: Request, before: Store, after: Store)
    requires Touches(req, before, after) && Complete(other, before) && other.name != req.name
    ensures Complete(other, after)
  {
  }

  ghost predicate CompleteTo(plan: Plan, i: nat, store: Store)
    requires i <= |plan.requests|
  {
    forall j :: 0 <= j < i ==> Complete(plan.requests[j], store)
  }

  lemma OneDeployed(c: Script, w: World, plan: Plan, base: Store, i: nat, d: Did)
    requires Planned(plan) && i < |plan.requests| && Built(plan, base, w.store) && CompleteTo(plan, i, w.store)
    requires d == DeployService(c, w, plan.requests[i])
    ensures Built(plan, base, d.world.store) && (d.ok ==> CompleteTo(plan, i + 1, d.world.store))
  {
    ServiceDeployed(c, w, plan.requests[i]);
    BuiltOn(plan, base, w.store, d.world.store, i);
    if d.ok {
      forall j | 0 <= j < i ensures Complete(plan.requests[j], d.world.store) {
        StaysComplete(plan.requests[i], plan.requests[j], w.store, d.world.store);
      }
    }
  }

  lemma {:induction false} FromDeployed(c: Script, w: World, plan: Plan, base: Store, i: nat, all: Did)
    requires Planned(plan) && i <= |plan.requests| && Built(plan, base, w.store) && CompleteTo(plan, i, w.store)
    requires all == DeployFrom(c, w, plan, i)
    ensures Built(plan, base, all.world.store) && (all.ok ==> AllComplete(plan, all.world.store))
    decreases |plan.requests| - i
  {
    if i < |plan.requests| {
      var d := DeployService(c, w, plan.requests[i]);
      OneDeployed(c, w, plan, base, i, d);
      if d.ok { FromDeployed(c, d.world, plan, base, i + 1, all); }
    }
  }

  ghost predicate AllComplete(plan: Plan, store: Store) { CompleteTo(plan, |plan.requests|, store) }

  lemma {:induction false} NamesChecked(c: Script, w: World, plan: Plan, i: nat, taken: seq<string>)
    requires i <= |plan.requests|
    requires taken == [] <==> forall j :: 0 <= j < i ==> Key(Deployment, plan.requests[j].name) !in w.store
    ensures var n := CheckNames(c, w, plan, i, taken);
            n.world.store == w.store && (n.answered ==> (n.taken == [] <==> NoneTaken(plan, w.store)))
    decreases |plan.requests| - i
  {
    if i < |plan.requests| {
      match GetBy(c, w, Key(Deployment, plan.requests[i].name))
      case NoAnswer =>
      case Got(_) => NamesChecked(c, Called(w), plan, i + 1, taken + [plan.requests[i].name]);
      case Missing => NamesChecked(c, Called(w), plan, i + 1, taken);
    }
  }

  /** Whatever the script: a deploy that is refused changes nothing; one that is done has every service
      complete; one that failed and was cleaned up leaves what was built without what belongs to the
      app, having found a Deployment of it, and no name taken. In every case what belongs to other apps
      and is not in a service's way is as it was. */
  lemma DeployKeeps(c: Script, w: World, plan: Plan)
    requires Fair(c) && Planned(plan)
    ensures var e := Deploy(c, w, plan);
            && KeepsOthers(plan, w.store, e.world.store) && Built(plan, w.store, e.built)
            && (e.outcome.Refused? ==> e.world.store == w.store)
            && (e.outcome.Done? ==> e.world.store == e.built && AllComplete(plan, e.built))
            && (!e.outcome.Refused? ==> NoneTaken(plan, w.store))
            && (e.outcome.Failed? ==> OnlyLoses(e.built, e.world.store, plan.main))
            && (e.outcome == Failed(true) ==> CleanEnd(plan, e))
  {
    var e := Deploy(c, w, plan);
    NamesChecked(c, Called(w), plan, 0, []);
    var names := CheckNames(c, Called(w), plan, 0, []);
    if !e.outcome.Refused? {
      var d := DeployFrom(c, names.world, plan, 0);
      FromDeployed(c, names.world, plan, w.store, 0, d);
      if !d.ok {
        UninstallRemoves(c, d.world, plan.main, true);
        if e.outcome.cleaned { CleanedUp(plan, w.store, e.built, e.answered); }
      }
    }
    OthersUntouched(plan, w.store, e.built, e.world.store);
  }

  ghost predicate CleanEnd(plan: Plan, e: Ended) {
    && e.answered <= Extras && HasKind(e.built, Deployment, plan.main)
    && e.world.store == Without(e.built, Always(true) + e.answered, plan.main)
    && NoneTaken(plan, e.world.store)
  }

  /** With every call of the clean-up working, it succeeds exactly when some Deployment of the app had
      been added: what was made before the first one, its claims, stays. */
  lemma CleansUpIffDeployed(c: Script, w: World, plan: Plan)
    requires Fair(c) && Deploy(c, w, plan).outcome.Failed?
    requires AllWork(c, DeployFrom(c, CheckNames(c, Called(w), plan, 0, []).world, plan, 0).world.calls)
    ensures var e := Deploy(c, w, plan);
            && (e.outcome == Failed(true) <==> HasKind(e.built, Deployment, plan.main))
            && (e.outcome == Failed(false) ==> e.world.store == e.built)
  {
    UninstallsIffDeployed(c, DeployFrom(c, CheckNames(c, Called(w), plan, 0, []).world, plan, 0).world, plan.main,
                          true);
  }

  // ----- what a project is left with -----

  /** Nothing is there yet under the names the project's services take for their own. */
  ghost predicate Clear(plan: Plan, store: Store) { forall k :: k in store ==> !AtRisk(plan, k) }

  /** All there was is there, and as it was. */
  ghost predicate Keeps(before: Store, after: Store) {
    forall k :: k in before ==> k in after && after[k] == before[k]
  }

  /** Nothing of these kinds belongs to the app. */
  ghost predicate NoneOf(store: Store, kinds: set<Kind>, app: string) {
    forall k :: k in store && k.kind in kinds ==> !Belongs(k, store[k], app)
  }

  /** What a clean-up leaves holds all there was exactly when the services replaced none of it and none
      of it, of the kinds swept, belonged to the app. It is what there was exactly when besides the
      Ingresses could be listed or none had been made: a clean-up that could not list them still
      reports success. */
  lemma RestoredIff(plan: Plan, base: Store, built: Store, answered: set<Kind>)
    requires Built(plan, base, built)
    ensures var (swept, left) := (Always(true) + answered, Without(built, Always(true) + answered, plan.main));
            && (Keeps(base, left) <==> Keeps(base, built) && NoneOf(base, swept, plan.main))
            && (left == base <==> Keeps(base, left) && (Ingress in answered || NoNewIngress(base, built)))
  {
    var (swept, left) := (Always(true) + answered, Without(built, Always(true) + answered, plan.main));
    if Keeps(base, left) && (Ingress in answered || NoNewIngress(base, built)) {
      forall k | k in left ensures k in base {}
    }
    if left == base && Ingress !in answered {
      forall k | k in built && k.kind == Ingress ensures k in base { assert k in left; }
    }
  }

  /** Of every deploy that fails and is cleaned up: all there was is there still exactly when the
      services replaced none of it and none of it, of the kinds swept, belonged to the app; and the
      namespace is as it was exactly when besides no Ingress is left over. From a clear start nothing
      is replaced, but claims of the app, kept by an earlier uninstall, go. */
  lemma FailureRestoresIff(c: Script, w: World, plan: Plan)
    requires Fair(c) && Planned(plan) && Deploy(c, w, plan).outcome == Failed(true)
    ensures var e := Deploy(c, w, plan);
            && (Clear(plan, w.store) ==> Keeps(w.store, e.built))
            && (Keeps(w.store, e.world.store) <==>
                  Keeps(w.store, e.built) && NoneOf(w.store, Always(true) + e.answered, plan.main))
            && (e.world.store == w.store <==>
                  Keeps(w.store, e.world.store) && (Ingress in e.answered || NoNewIngress(w.store, e.built)))
  {
    var e := Deploy(c, w, plan);
    DeployKeeps(c, w, plan);
    RestoredIff(plan, w.store, e.built, e.answered);
  }

  ghost predicate NoNewIngress(base: Store, built: Store) { forall k :: k in built && k.kind == Ingress ==> k in base }

  /** Whatever was there before, a clean-up that succeeds leaves no Deployment, Service or claim of
      the app, no Ingress either when those could be listed, and no name of the project taken, so
      that deploying again is not refused. */
  lemma CleanedUp(plan: Plan, base: Store, built: Store, answered: set<Kind>)
    requires NoneTaken(plan, base) && Built(plan, base, built)
    ensures var left := Without(built, Always(true) + answered, plan.main);
            && (forall k :: k in left && k.kind in {Deployment, Service, Claim} + answered ==>
                  !Belongs(k, left[k], plan.main))
            && NoneTaken(plan, left)
  {
  }

  /** What belongs to another app and is not in the way of a service is as it was. */
  ghost predicate KeepsOthers(plan: Plan, base: Store, left: Store) {
    forall k :: k in base && !Belongs(k, base[k], plan.main) && !AtRisk(plan, k) ==> k in left && left[k] == base[k]
  }

  /** So it is however the deploy ended. */
  lemma OthersUntouched(plan: Plan, base: Store, built: Store, left: Store)
    requires Built(plan, base, built) && (left == built || OnlyLoses(built, left, plan.main))
    ensures KeepsOthers(plan, base, left)
  {
  }

  /** A project that deploys leaves every object of other apps alone exactly when none of them was a
      Service under one of its names or an Ingress under that of a service with a domain: only
      Deployments are looked for beforehand. */
  lemma OthersKeptIff(plan: Plan, base: Store, built: Store)
    requires Planned(plan) && Built(plan, base, built) && AllComplete(plan, built)
    ensures (forall k :: k in base && !Belongs(k, base[k], plan.main) ==> k in built && built[k] == base[k]) <==>
            (forall k :: k in base && AtRisk(plan, k) ==> Belongs(k, base[k], plan.main))
  {
    forall k | AtRisk(plan, k) ensures k in built && Belongs(k, built[k], plan.main) { TakenIsOwn(plan, built, k); }
  }

  /** What a complete service takes for its own belongs to the app. */
  lemma TakenIsOwn(plan: Plan, built: Store, k: Key)
    requires Planned(plan) && AllComplete(plan, built) && AtRisk(plan, k)
    ensures k in built && Belongs(k, built[k], plan.main)
  {
    var i :| 0 <= i < |plan.requests| && Takes(plan.requests[i], k);
    var req := plan.requests[i];
    assert Complete(req, built) && OwnerOf(req) == plan.main;
    if req.domains.Some? { OneDomain(req); }
  }

  lemma OneDomain(req: Request)
    requires req.domains.Some? && WellRouted(req)
    ensures P.ValidOnly(req.domains.value) == req.domains.value
  {
    P.AllValidKept(req.domains.value);
  }

  // ----- the code -----

  method EnsureDeploymentPVCs(cluster: Cluster, req: Request) returns (ok: bool)
    modifies cluster
    ensures Did(ok, cluster.View()) == EnsureClaims(cluster.script, old(cluster.View()), req, 0)
  {
    ghost var all := EnsureClaims(cluster.script, cluster.View(), req, 0);
    for i := 0 to |req.volumes|
      invariant EnsureClaims(cluster.script, cluster.View(), req, i) == all
    {
      if req.volumes[i].path == "" { continue; }
      var sized := cluster.Check();
      if !sized { return false; }
      var added := cluster.Add(Key(Claim, ClaimName(req.name, i)), ClaimOf(req, i));
      if added.AddFailed? { return false; }
    }
    return true;
  }

  method ReconcileAppService(cluster: Cluster, req: Request) returns (ok: bool)
    modifies cluster
    ensures Did(ok, cluster.View()) == ReconcileService(cluster.script, old(cluster.View()), req)
  {
    var k := Key(Service, req.name);
    var existing := cluster.Get(k);
    if existing.NoAnswer? { return false; }
    if req.ports == [] {
      if existing.Missing? { return true; }
      ok := cluster.Delete(k);
      return;
    }
    if existing.Missing? {
      var added := cluster.Add(k, Object(LabelsOf(req), Routes(req.ports)));
      return added.Created?;
    }
    ok := cluster.Update(k, Object(existing.object_.labels + LabelsOf(req), Routes(req.ports)));
  }

  method ReconcileAppIngress(cluster: Cluster, req: Request) returns (ok: bool)
    modifies cluster
    ensures Did(ok, cluster.View()) == ReconcileIngress(cluster.script, old(cluster.View()), req)
  {
    if req.domains.None? { return true; }
    var k := Key(Ingress, req.name);
    var existing := cluster.Get(k);
    if existing.NoAnswer? { return false; }
    var domains := P.ValidOnly(req.domains.value);
    if domains == [] {
      if existing.Missing? || !Owned(existing.object_, req.name) { return true; }
      ok := cluster.Delete(k);
      return;
    }
    if existing.Missing? {
      var added := cluster.Add(k, Object(LabelsOf(req), Hosts(domains, ClassOf(domains), [])));
      return added.Created?;
    }
    var hosts := Hosts(domains, ClassOf(domains), TlsOf(existing.object_));
    ok := cluster.Update(k, Object(existing.object_.labels + LabelsOf(req), hosts));
  }

  method AddComposeHeadlessService(cluster: Cluster, req: Request) returns (ok: bool)
    modifies cluster
    ensures Did(ok, cluster.View()) == AddHeadless(cluster.script, old(cluster.View()), req)
  {
    var added := cluster.Add(Key(Service, req.name), Object(LabelsOf(req), Headless));
    return added.Created?;
  }

  method BuildPodVolumes(req: Request) returns (mounts: seq<Mount>)
    ensures mounts == MountsOf(req, |req.volumes|)
  {
    mounts := [];
    for i := 0 to |req.volumes|
      invariant mounts == MountsOf(req, i)
    {
      mounts := mounts + [Mount(ClaimName(req.name, i), req.volumes[i].path)];
    }
  }

  method DeployAppWorkload(cluster: Cluster, req: Request) returns (ok: bool)
    modifies cluster
    ensures Did(ok, cluster.View()) == DeployWorkload(cluster.script, old(cluster.View()), req)
  {
    ok := cluster.Check();
    if !ok { return; }
    ok := EnsureDeploymentPVCs(cluster, req);
    if !ok { return; }
    ok := cluster.Check();
    if !ok { return; }
    var mounts := BuildPodVolumes(req);
    var added := cluster.Add(Key(Deployment, req.name), Object(LabelsOf(req), Workload(req.image, mounts)));
    if !added.Created? { return false; }
    ok := ReconcileAppService(cluster, req);
    if !ok { return; }
    ok := ReconcileAppIngress(cluster, req);
  }

  method DeployOne(cluster: Cluster, req: Request) returns (ok: bool)
    modifies cluster
    ensures Did(ok, cluster.View()) == DeployService(cluster.script, old(cluster.View()), req)
  {
    ok := DeployAppWorkload(cluster, req);
    if ok && req.ports == [] { ok := AddComposeHeadlessService(cluster, req); }
  }

  method TakenNames(cluster: Cluster, plan: Plan) returns (answered: bool, taken: seq<string>)
    modifies cluster
    ensures Names(answered, taken, cluster.View()) == CheckNames(cluster.script, old(cluster.View()), plan, 0, [])
  {
    taken := [];
    ghost var all := CheckNames(cluster.script, cluster.View(), plan, 0, []);
    for i := 0 to |plan.requests|
      invariant CheckNames(cluster.script, cluster.View(), plan, i, taken) == all
    {
      var found := cluster.Get(Key(Deployment, plan.requests[i].name));
      if found.NoAnswer? { return false, taken; }
      if found.Got? { taken := taken + [plan.requests[i].name]; }
    }
    return true, taken;
  }

  method DeployCompose(cluster: Cluster, plan: Plan)
      returns (outcome: Outcome, ghost built: Store, ghost answered: set<Kind>)
    requires Fair(cluster.script) && Planned(plan)
    modifies cluster
    ensures Ended(outcome, built, answered, cluster.View()) == Deploy(cluster.script, old(cluster.View()), plan)
    ensures outcome.Refused? ==> cluster.store == old(cluster.store)
    ensures outcome.Done? ==> AllComplete(plan, cluster.store)
    ensures outcome == Failed(true) ==> NoneTaken(plan, cluster.store)
    ensures KeepsOthers(plan, old(cluster.store), cluster.store)
    ensures outcome == Failed(true) ==> HasKind(built, Deployment, plan.main)
    ensures outcome == Failed(true) && Clear(plan, old(cluster.store)) ==>
              var swept := Always(true) + answered;
              && (Keeps(old(cluster.store), cluster.store) <==> NoneOf(old(cluster.store), swept, plan.main))
              && (cluster.store == old(cluster.store) <==>
                    && NoneOf(old(cluster.store), swept, plan.main)
                    && (Ingress in answered || NoNewIngress(old(cluster.store), built)))
  {
    ghost var start := cluster.View();
    DeployKeeps(cluster.script, start, plan);
    if Deploy(cluster.script, start, plan).outcome == Failed(true) { FailureRestoresIff(cluster.script, start, plan); }
    outcome, built, answered := RunPlan(cluster, plan);
  }

  method RunPlan(cluster: Cluster, plan: Plan) returns (outcome: Outcome, ghost built: Store, ghost answered: set<Kind>)
    modifies cluster
    ensures Ended(outcome, built, answered, cluster.View()) == Deploy(cluster.script, old(cluster.View()), plan)
  {
    ghost var base := cluster.store;
    var ready := cluster.Check();
    if !ready { return Refused, base, {}; }
    var known, taken := TakenNames(cluster, plan);
    if !known || taken != [] { return Refused, base, {}; }
    ghost var all := DeployFrom(cluster.script, cluster.View(), plan, 0);
    for i := 0 to |plan.requests|
      invariant DeployFrom(cluster.script, cluster.View(), plan, i) == all
    {
      var ok := DeployOne(cluster, plan.requests[i]);
      if !ok {
        built := cluster.store;
        var cleaned;
        cleaned, answered := UninstallImageApp(cluster, plan.main, true);
        return Failed(cleaned), built, answered;
      }
    }
    return Done, cluster.store, {};
  }
}
