/** What a compose deploy comes to when its calls work (deployCompose in controllers/compose.go,
    ensureDeploymentPVCs and pvcNameForVolume in controllers/deployment_storage.go): it is done exactly
    when no name is taken, and every volume has a claim of its own. */
module ComposeWorks {
  import opened Common
  import opened ClusterStore
  import opened ComposeDeploy
  import P = PublishDomain

  // ----- the names of claims -----

  /** No two volumes have the same claim, be they of one service or of two. */
  lemma {:induction false} ClaimNamesApart(a: string, i: nat, b: string, j: nat)
    ensures ClaimName(a, i) == ClaimName(b, j) <==> a == b && i == j
    ensures ClaimName(a, i) == a + "-vol-" + Decimal(i)
  {
    DecimalReads(i);
    DecimalReads(j);
    if ClaimName(a, i) == ClaimName(b, j) {
      var (m, n) := (|Decimal(i)|, |Decimal(j)|);
      var s := ClaimName(a, i);
      SuffixOf(a + "-vol-", Decimal(i));
      SuffixOf(b + "-vol-", Decimal(j));
      assert m == n by { DigitsEnd(s, m, n); DigitsEnd(s, n, m); }
      assert s[..|s| - m] == a + "-vol-" && s[..|s| - n] == b + "-vol-";
      assert s[..|s| - m - 5] == (a + "-vol-")[..|a|] == a && s[..|s| - n - 5] == (b + "-vol-")[..|b|] == b;
    }
  }

  lemma SuffixOf(start: string, digits: string)
    ensures (start + digits)[|start|..] == digits && (start + digits)[..|start|] == start
  {
  }

  /** A run of digits that something else stands before is as long as it can be. */
  lemma DigitsEnd(s: string, m: nat, n: nat)
    requires m < |s| && n < |s| && AllDigits(s[|s| - m..])
    requires AllDigits(s[|s| - n..]) && s[|s| - n - 1] == '-'
    ensures m <= n
  {
    assert forall i :: |s| - m <= i < |s| ==> s[i] == s[|s| - m..][i - (|s| - m)];
  }

  // ----- what one service adds -----

  /** The names a service gives to what it makes. */
  predicate Names(req: Request, k: Key) {
    || k == Key(Deployment, req.name) || k == Key(Service, req.name) || k == Key(Ingress, req.name)
    || (k.kind == Claim && exists i :: 0 <= i < |req.volumes| && k.name == ClaimName(req.name, i))
  }

  ghost predicate AddsOwn(req: Request, before: Store, after: Store) {
    forall k :: k in after && k !in before ==> Names(req, k)
  }

  lemma {:induction false} ClaimsAddOwn(c: Script, w: World, req: Request, i: nat, d: Did)
    requires i <= |req.volumes| && d == EnsureClaims(c, w, req, i)
    ensures AddsOwn(req, w.store, d.world.store)
    decreases |req.volumes| - i
  {
    if i < |req.volumes| {
      if req.volumes[i].path == "" {
        ClaimsAddOwn(c, w, req, i + 1, d);
      } else if c.answer(w.calls) == Works {
        var k := Key(Claim, ClaimName(req.name, i));
        var next := AddLeaves(c, Called(w), k, ClaimOf(req, i));
        if !AddBy(c, Called(w), k).AddFailed? { ClaimsAddOwn(c, next, req, i + 1, d); }
      }
    }
  }

  lemma ServiceAddsOwn(c: Script, w: World, req: Request)
    ensures AddsOwn(req, w.store, DeployService(c, w, req).world.store)
  {
    if c.answer(w.calls) == Works {
      var claims := EnsureClaims(c, Called(w), req, 0);
      ClaimsAddOwn(c, Called(w), req, 0, claims);
      if claims.ok && c.answer(claims.world.calls) == Works { RestAddsOwn(c, w.store, Called(claims.world), req); }
    }
  }

  lemma RestAddsOwn(c: Script, start: Store, w1: World, req: Request)
    requires AddsOwn(req, start, w1.store)
    ensures var w2 := AddLeaves(c, w1, Key(Deployment, req.name), DeploymentOf(req));
            var s := ReconcileService(c, w2, req);
            var g := ReconcileIngress(c, s.world, req);
            && AddsOwn(req, start, w2.store) && AddsOwn(req, start, s.world.store)
            && AddsOwn(req, start, g.world.store) && AddsOwn(req, start, AddHeadless(c, g.world, req).world.store)
  {
    var w2 := AddLeaves(c, w1, Key(Deployment, req.name), DeploymentOf(req));
    var s := ReconcileService(c, w2, req);
    ServiceReconciled(c, w2, req);
    IngressReconciled(c, s.world, req);
    HeadlessAdded(c, ReconcileIngress(c, s.world, req).world, req);
  }

  // ----- when every call works -----

  lemma {:induction false} ClaimsWork(c: Script, w: World, req: Request, i: nat, d: Did)
    requires i <= |req.volumes| && AllWork(c, w.calls) && d == EnsureClaims(c, w, req, i)
    ensures d.ok && d.world.calls >= w.calls
    decreases |req.volumes| - i
  {
    if i < |req.volumes| {
      if req.volumes[i].path == "" {
        ClaimsWork(c, w, req, i + 1, d);
      } else {
        var k := Key(Claim, ClaimName(req.name, i));
        ClaimsWork(c, AddLeaves(c, Called(w), k, ClaimOf(req, i)), req, i + 1, d);
      }
    }
  }

  lemma ServiceWorks(c: Script, w: World, req: Request)
    requires AllWork(c, w.calls) && Key(Deployment, req.name) !in w.store
    ensures DeployService(c, w, req).ok && DeployService(c, w, req).world.calls >= w.calls
  {
    var claims := EnsureClaims(c, Called(w), req, 0);
    ClaimsWork(c, Called(w), req, 0, claims);
    ClaimsEnsured(c, Called(w), req, 0);
    var w1 := Called(claims.world);
    assert Key(Deployment, req.name) !in w1.store;
    var w2 := AddLeaves(c, w1, Key(Deployment, req.name), DeploymentOf(req));
    WorkloadWorks(c, w2, req);
  }

  lemma WorkloadWorks(c: Script, w2: World, req: Request)
    requires AllWork(c, w2.calls)
    ensures var s := ReconcileService(c, w2, req);
            var g := ReconcileIngress(c, s.world, req);
            && s.ok && g.ok && g.world.calls >= w2.calls
            && (req.ports == [] ==> AddHeadless(c, g.world, req).ok)
  {
    var s := ReconcileService(c, w2, req);
    ServiceReconciled(c, w2, req);
    IngressReconciled(c, s.world, req);
  }

  lemma {:induction false} AllServicesWork(c: Script, w: World, plan: Plan, i: nat)
    requires Planned(plan) && i <= |plan.requests| && AllWork(c, w.calls)
    requires forall j :: i <= j < |plan.requests| ==> Key(Deployment, plan.requests[j].name) !in w.store
    ensures DeployFrom(c, w, plan, i).ok
    decreases |plan.requests| - i
  {
    if i < |plan.requests| {
      var req := plan.requests[i];
      ServiceWorks(c, w, req);
      ServiceAddsOwn(c, w, req);
      AllServicesWork(c, DeployService(c, w, req).world, plan, i + 1);
    }
  }

  lemma {:induction false} NamesAnswered(c: Script, w: World, plan: Plan, i: nat, taken: seq<string>)
    requires i <= |plan.requests| && AllWork(c, w.calls)
    ensures var n := CheckNames(c, w, plan, i, taken); n.answered && n.world.calls >= w.calls
    decreases |plan.requests| - i
  {
    if i < |plan.requests| {
      var name := plan.requests[i].name;
      var now := if GetBy(c, w, Key(Deployment, name)).Got? then taken + [name] else taken;
      NamesAnswered(c, Called(w), plan, i + 1, now);
    }
  }

  /** With every call working a deploy is done, every service complete, exactly when there is no
      Deployment under any of the project's names; otherwise it is refused. */
  lemma DoneIffNoneTaken(c: Script, w: World, plan: Plan)
    requires Fair(c) && Planned(plan) && AllWork(c, w.calls)
    ensures var e := Deploy(c, w, plan);
            && (e.outcome == Done <==> NoneTaken(plan, w.store))
            && (e.outcome == Refused <==> !NoneTaken(plan, w.store))
            && (e.outcome == Done ==> AllComplete(plan, e.world.store))
  {
    NamesChecked(c, Called(w), plan, 0, []);
    NamesAnswered(c, Called(w), plan, 0, []);
    DeployKeeps(c, w, plan);
    if NoneTaken(plan, w.store) { AllServicesWork(c, CheckNames(c, Called(w), plan, 0, []).world, plan, 0); }
  }

  // ----- every volume's claim -----

  /** The claims of the volumes from the i-th on that were not there are made, each with its size. */
  ghost predicate MakesDisks(req: Request, i: nat, before: Store, after: Store) {
    forall v :: i <= v < |req.volumes| && req.volumes[v].path != "" ==>
      var k := Key(Claim, ClaimName(req.name, v));
      k !in before ==> k in after && after[k].content == SizedDisk(req.volumes[v].size) && Owned(after[k], OwnerOf(req))
  }

  function SizedDisk(size: string): Content { if size == "" then Disk("1Gi") else Disk(size) }

  lemma {:induction false} DisksMade(c: Script, w: World, req: Request, i: nat, d: Did)
    requires i <= |req.volumes| && HasClaims(req, i, w.store) && d == EnsureClaims(c, w, req, i)
    ensures d.ok ==> MakesDisks(req, i, w.store, d.world.store)
    decreases |req.volumes| - i
  {
    if i < |req.volumes| {
      if req.volumes[i].path == "" {
        DisksMade(c, w, req, i + 1, d);
      } else if c.answer(w.calls) == Works {
        var k := Key(Claim, ClaimName(req.name, i));
        var next := AddLeaves(c, Called(w), k, ClaimOf(req, i));
        if !AddBy(c, Called(w), k).AddFailed? {
          ClaimsEnsured(c, next, req, i + 1);
          DisksMade(c, next, req, i + 1, d);
          if d.ok { OneMoreDisk(req, i, w.store, next.store, d.world.store); }
        }
      }
    }
  }

  lemma OneMoreDisk(req: Request, i: nat, before: Store, next: Store, after: Store)
    requires i < |req.volumes| && MakesDisks(req, i + 1, next, after) && AddsOnly(next, after)
    requires var k := Key(Claim, ClaimName(req.name, i));
             next == if k in before then before else before[k := ClaimOf(req, i)]
    ensures MakesDisks(req, i, before, after)
  {
    OwnLabels(req);
    forall v | i <= v < |req.volumes| && req.volumes[v].path != "" && Key(Claim, ClaimName(req.name, v)) !in before
      ensures var k := Key(Claim, ClaimName(req.name, v));
              k in after && after[k].content == SizedDisk(req.volumes[v].size) && Owned(after[k], OwnerOf(req))
    {
      ClaimNamesApart(req.name, i, req.name, v);
    }
  }

  lemma ServiceMakesDisks(c: Script, w: World, req: Request)
    ensures DeployService(c, w, req).ok ==> MakesDisks(req, 0, w.store, DeployService(c, w, req).world.store)
  {
    var d := DeployService(c, w, req);
    if d.ok {
      var claims := EnsureClaims(c, Called(w), req, 0);
      DisksMade(c, Called(w), req, 0, claims);
      ClaimsStay(c, Called(claims.world), req);
    }
  }

  /** What comes after the claims leaves them alone. */
  lemma ClaimsStay(c: Script, w1: World, req: Request)
    ensures var w2 := AddLeaves(c, w1, Key(Deployment, req.name), DeploymentOf(req));
            var s := ReconcileService(c, w2, req);
            var g := ReconcileIngress(c, s.world, req);
            forall k :: k in w1.store && k.kind == Claim ==>
              && k in g.world.store && g.world.store[k] == w1.store[k]
              && k in AddHeadless(c, g.world, req).world.store
              && AddHeadless(c, g.world, req).world.store[k] == w1.store[k]
  {
    var w2 := AddLeaves(c, w1, Key(Deployment, req.name), DeploymentOf(req));
    var s := ReconcileService(c, w2, req);
    ServiceReconciled(c, w2, req);
    IngressReconciled(c, s.world, req);
    HeadlessAdded(c, ReconcileIngress(c, s.world, req).world, req);
  }

  /** All services from the i-th on. */
  ghost predicate AllDisks(plan: Plan, i: nat, before: Store, after: Store) {
    forall j :: i <= j < |plan.requests| ==> MakesDisks(plan.requests[j], 0, before, after)
  }

  lemma {:induction false} DisksFrom(c: Script, w: World, plan: Plan, i: nat, d: Did)
    requires Planned(plan) && i <= |plan.requests| && d == DeployFrom(c, w, plan, i) && d.ok
    ensures AllDisks(plan, i, w.store, d.world.store)
    ensures forall k :: k in w.store && k.kind == Claim ==> k in d.world.store && d.world.store[k] == w.store[k]
    decreases |plan.requests| - i
  {
    if i < |plan.requests| {
      var req := plan.requests[i];
      var next := DeployService(c, w, req).world;
      ServiceDeployed(c, w, req);
      ServiceMakesDisks(c, w, req);
      ServiceAddsOwn(c, w, req);
      DisksFrom(c, next, plan, i + 1, d);
      forall j | i <= j < |plan.requests| ensures MakesDisks(plan.requests[j], 0, w.store, d.world.store) {
        DisksOf(plan, i, j, w.store, next.store, d.world.store);
      }
    }
  }

  lemma DisksOf(plan: Plan, i: nat, j: nat, before: Store, next: Store, after: Store)
    requires Planned(plan) && i <= j < |plan.requests| && AddsOwn(plan.requests[i], before, next)
    requires if j == i then MakesDisks(plan.requests[j], 0, before, next)
             else MakesDisks(plan.requests[j], 0, next, after)
    requires forall k :: k in next && k.kind == Claim ==> k in after && after[k] == next[k]
    ensures MakesDisks(plan.requests[j], 0, before, after)
  {
    var (other, req) := (plan.requests[i], plan.requests[j]);
    if i != j {
      forall v | 0 <= v < |req.volumes| && Key(Claim, ClaimName(req.name, v)) !in before
        ensures Key(Claim, ClaimName(req.name, v)) !in next
      {
        forall u | 0 <= u < |other.volumes| ensures ClaimName(other.name, u) != ClaimName(req.name, v) {
          ClaimNamesApart(other.name, u, req.name, v);
        }
      }
    }
  }

  /** A project that is deployed where none of its claims were has one for each volume with a place to be
      mounted, of the size asked for, or 1Gi; and each service's pod mounts its own, each where asked. */
  lemma DoneHasDisks(c: Script, w: World, plan: Plan)
    requires Fair(c) && Planned(plan) && Deploy(c, w, plan).outcome == Done
    requires forall j, v :: 0 <= j < |plan.requests| && 0 <= v < |plan.requests[j].volumes| ==>
               Key(Claim, ClaimName(plan.requests[j].name, v)) !in w.store
    ensures var left := Deploy(c, w, plan).world.store;
            forall j, v :: 0 <= j < |plan.requests| && 0 <= v < |plan.requests[j].volumes| ==>
              DiskIsMounted(plan.requests[j], v, left)
  {
    var left := Deploy(c, w, plan).world.store;
    NamesChecked(c, Called(w), plan, 0, []);
    DeployKeeps(c, w, plan);
    var names := CheckNames(c, Called(w), plan, 0, []);
    DisksFrom(c, names.world, plan, 0, DeployFrom(c, names.world, plan, 0));
    forall j, v | 0 <= j < |plan.requests| && 0 <= v < |plan.requests[j].volumes|
      ensures DiskIsMounted(plan.requests[j], v, left)
    {
      assert Complete(plan.requests[j], left) && MakesDisks(plan.requests[j], 0, names.world.store, left);
    }
  }

  ghost predicate DiskIsMounted(req: Request, v: nat, store: Store)
    requires v < |req.volumes|
  {
    var (claim, pod) := (Key(Claim, ClaimName(req.name, v)), Key(Deployment, req.name));
    && pod in store && store[pod].content.Workload? && |store[pod].content.mounts| == |req.volumes|
    && store[pod].content.mounts[v] == Mount(claim.name, req.volumes[v].path)
    && (req.volumes[v].path != "" ==> claim in store && store[claim].content == SizedDisk(req.volumes[v].size))
  }

  /** The labels of what a service makes. */
  lemma LabelsAre(req: Request)
    ensures var owner := if req.owner == "" then req.name else req.owner;
            LabelsOf(req) ==
              if req.component == ""
              then map["app.kubernetes.io/managed-by" := "casos", "app.kubernetes.io/instance" := owner]
              else map["app.kubernetes.io/managed-by" := "casos", "app.kubernetes.io/instance" := owner,
                       "app.kubernetes.io/component" := req.component]
  {
  }

  /** The class of an Ingress is the first one its domains name, if one does. */
  lemma ClassIs(domains: seq<P.Domain>, i: nat)
    requires i <= |domains| && forall j :: 0 <= j < i ==> domains[j].className == ""
    ensures i < |domains| && domains[i].className != "" ==> ClassOf(domains) == Some(domains[i].className)
    ensures i == |domains| ==> ClassOf(domains) == None
  {
    if i == |domains| {
      P.Unclassed(domains);
    } else if domains[i].className != "" {
      P.ClassIsFirst(domains, i);
    }
  }
}
