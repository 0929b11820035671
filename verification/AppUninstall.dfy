/** Uninstalling an app: uninstallImageApp in controllers/image_app.go and deleteAppExtras in
    controllers/launchpad.go, as functions of the script that answers their calls. */
module AppUninstall {
  import opened ClusterStore

  const Extras: set<Kind> := {Ingress, Autoscaler, ConfigMap, Secret, Job}

  /** The kinds that have to be listed for an uninstall to succeed. */
  function Always(deleteData: bool): set<Kind> { {Deployment, Service} + if deleteData then {Claim} else {} }

  /** What deleting has come to: how many objects, how many failures, and the world left. */
  datatype Purged = Purged(answered: bool, removed: nat, failures: nat, world: World)

  /** The objects listed that belong to the app are deleted one by one. */
  function DeleteItems(c: Script, w: World, items: seq<Item>, app: string, removed: nat, failures: nat): Purged
    decreases |items|
  {
    if items == [] then Purged(true, removed, failures, w)
    else if !Belongs(items[0].key, items[0].object_, app) then DeleteItems(c, w, items[1..], app, removed, failures)
    else if DeleteBy(c, w) then DeleteItems(c, DeleteLeaves(c, w, items[0].key), items[1..], app, removed + 1, failures)
    else DeleteItems(c, DeleteLeaves(c, w, items[0].key), items[1..], app, removed, failures + 1)
  }

  function DeleteKind(c: Script, w: World, kind: Kind, app: string): Purged {
    if c.answer(w.calls) != Works then Purged(false, 0, 0, Called(w))
    else DeleteItems(c, Called(w), c.order(w.calls, w.store, kind), app, 0, 0)
  }

  datatype Swept = Swept(answered: set<Kind>, failures: nat, world: World)

  /** A kind that cannot be listed is passed over. */
  function DeleteKinds(c: Script, w: World, kinds: seq<Kind>, app: string, answered: set<Kind>, failures: nat): Swept
    decreases |kinds|
  {
    if kinds == [] then Swept(answered, failures, w)
    else
      var p := DeleteKind(c, w, kinds[0], app);
      DeleteKinds(c, p.world, kinds[1..], app, if p.answered then answered + {kinds[0]} else answered,
                  failures + p.failures)
  }

  const ExtraKinds: seq<Kind> := [Ingress, Autoscaler, ConfigMap, Secret, Job]

  function DeleteExtras(c: Script, w: World, app: string): Swept { DeleteKinds(c, w, ExtraKinds, app, {}, 0) }

  datatype Uninstalled = Uninstalled(ok: bool, answered: set<Kind>, world: World)

  function Uninstall(c: Script, w: World, app: string, deleteData: bool): Uninstalled {
    var d := DeleteKind(c, w, Deployment, app);
    if !d.answered || (d.removed == 0 && d.failures == 0) then Uninstalled(false, {}, d.world)
    else
      var s := DeleteKind(c, d.world, Service, app);
      if !s.answered then Uninstalled(false, {}, s.world)
      else
        var e := DeleteExtras(c, s.world, app);
        if !deleteData then Uninstalled(d.failures + s.failures + e.failures == 0, e.answered, e.world)
        else
          var v := DeleteKind(c, e.world, Claim, app);
          if !v.answered then Uninstalled(false, e.answered, v.world)
          else Uninstalled(d.failures + s.failures + e.failures + v.failures == 0, e.answered, v.world)
  }

  // ----- what it leaves -----

  /** The objects a purge was to delete are gone, as far as no deletion failed. */
  ghost predicate Purges(before: Store, p: Purged, kind: Kind, app: string) {
    && OnlyLoses(before, p.world.store, app)
    && (!p.answered ==> p.world.store == before && p.removed == 0 && p.failures == 0)
    && (p.answered && p.failures == 0 ==> p.world.store == Without(before, {kind}, app))
    && (p.removed > 0 ==> HasKind(before, kind, app))
  }

  /** Half-way through a listing: what is left of the kind stands in the rest of it, or failed to go. */
  ghost predicate Midway(before: Store, now: Store, kind: Kind, app: string, items: seq<Item>, all: bool) {
    && (forall k :: k in now ==> k in before && now[k] == before[k])
    && (forall k :: k in before && k !in now ==> k.kind == kind && Belongs(k, before[k], app))
    && (forall i :: 0 <= i < |items| ==> Listed(items[i], before, kind))
    && (all ==> forall k :: k in now && k.kind == kind && Belongs(k, now[k], app) ==> Item(k, now[k]) in items)
  }

  lemma MidwayOn(before: Store, now: Store, then_: Store, kind: Kind, app: string, items: seq<Item>, all: bool)
    requires items != [] && Midway(before, now, kind, app, items, all)
    requires then_ == now || (Belongs(items[0].key, items[0].object_, app) && then_ == now - {items[0].key})
    ensures Midway(before, then_, kind, app, items[1..],
                   all && (Belongs(items[0].key, items[0].object_, app) ==> then_ == now - {items[0].key}))
  {
    assert Listed(items[0], before, kind);
    assert items == [items[0]] + items[1..];
  }

  lemma {:induction false} DeleteItemsPurges(c: Script, w: World, before: Store, kind: Kind, items: seq<Item>,
                                             app: string, removed: nat, failures: nat)
    requires Midway(before, w.store, kind, app, items, failures == 0) && (removed > 0 ==> HasKind(before, kind, app))
    ensures var p := DeleteItems(c, w, items, app, removed, failures);
            && Midway(before, p.world.store, kind, app, [], p.failures == 0)
            && p.answered && (p.removed > 0 ==> HasKind(before, kind, app))
            && p.removed >= removed && p.failures >= failures
    decreases |items|
  {
    if items != [] {
      assert Listed(items[0], before, kind);
      if !Belongs(items[0].key, items[0].object_, app) {
        MidwayOn(before, w.store, w.store, kind, app, items, failures == 0);
        DeleteItemsPurges(c, w, before, kind, items[1..], app, removed, failures);
      } else {
        var next := DeleteLeaves(c, w, items[0].key);
        MidwayOn(before, w.store, next.store, kind, app, items, failures == 0);
        DeleteItemsPurges(c, next, before, kind, items[1..], app,
                          if DeleteBy(c, w) then removed + 1 else removed,
                          if DeleteBy(c, w) then failures else failures + 1);
      }
    }
  }

  lemma KindPurged(c: Script, w: World, kind: Kind, app: string)
    requires Fair(c)
    ensures Purges(w.store, DeleteKind(c, w, kind, app), kind, app)
  {
    if c.answer(w.calls) == Works {
      var items := c.order(w.calls, w.store, kind);
      assert Lists(items, w.store, kind);
      DeleteItemsPurges(c, Called(w), w.store, kind, items, app, 0, 0);
      var p := DeleteKind(c, w, kind, app);
      if p.failures == 0 { NothingLeft(w.store, p.world.store, kind, app); }
    }
  }

  lemma NothingLeft(before: Store, now: Store, kind: Kind, app: string)
    requires Midway(before, now, kind, app, [], true)
    ensures now == Without(before, {kind}, app)
  {
  }

  /** The kinds swept so far. */
  ghost predicate Sweeps(before: Store, now: Store, answered: set<Kind>, failures: nat, app: string) {
    OnlyLoses(before, now, app) && (failures == 0 ==> now == Without(before, answered, app))
  }

  lemma {:induction false} KindsSwept(c: Script, w: World, before: Store, kinds: seq<Kind>, app: string,
                                      answered: set<Kind>, failures: nat, s: Swept)
    requires Fair(c) && Sweeps(before, w.store, answered, failures, app)
    requires s == DeleteKinds(c, w, kinds, app, answered, failures)
    ensures Sweeps(before, s.world.store, s.answered, s.failures, app)
    ensures answered <= s.answered && (forall k :: k in s.answered && k !in answered ==> k in kinds)
    decreases |kinds|
  {
    if kinds != [] {
      var p := DeleteKind(c, w, kinds[0], app);
      var (more, failed) := (if p.answered then answered + {kinds[0]} else answered, failures + p.failures);
      KindPurged(c, w, kinds[0], app);
      OneMoreSwept(before, w.store, p, kinds[0], app, answered, failures);
      KindsSwept(c, p.world, before, kinds[1..], app, more, failed, s);
    }
  }

  lemma OneMoreSwept(before: Store, now: Store, p: Purged, kind: Kind, app: string, answered: set<Kind>, failures: nat)
    requires Sweeps(before, now, answered, failures, app) && Purges(now, p, kind, app)
    ensures Sweeps(before, p.world.store, if p.answered then answered + {kind} else answered,
                   failures + p.failures, app)
  {
    OnlyLosesOn(before, now, p.world.store, app);
    if p.answered { WithoutMore(before, answered, {kind}, app); }
  }

  lemma ExtrasSwept(c: Script, w: World, app: string)
    requires Fair(c)
    ensures var e := DeleteExtras(c, w, app);
            e.answered <= Extras && OnlyLoses(w.store, e.world.store, app)
            && (e.failures == 0 ==> e.world.store == Without(w.store, e.answered, app))
  {
    WithoutNothing(w.store, app);
    KindsSwept(c, w, w.store, ExtraKinds, app, {}, 0, DeleteExtras(c, w, app));
    assert forall k :: k in ExtraKinds ==> k in Extras;
  }

  /** An uninstall takes nothing away but what belonged to the app. It succeeds only when it found a
      Deployment and deleted every object it found; then all of it is gone, of the kinds that have to
      be listed and of those others that could be. */
  lemma UninstallRemoves(c: Script, w: World, app: string, deleteData: bool)
    requires Fair(c)
    ensures var u := Uninstall(c, w, app, deleteData);
            && OnlyLoses(w.store, u.world.store, app) && u.answered <= Extras
            && (u.ok ==> HasKind(w.store, Deployment, app))
            && (u.ok ==> u.world.store == Without(w.store, Always(deleteData) + u.answered, app))
  {
    var d := DeleteKind(c, w, Deployment, app);
    KindPurged(c, w, Deployment, app);
    if d.answered && !(d.removed == 0 && d.failures == 0) {
      var s := DeleteKind(c, d.world, Service, app);
      KindPurged(c, d.world, Service, app);
      OnlyLosesOn(w.store, d.world.store, s.world.store, app);
      if s.answered {
        var e := DeleteExtras(c, s.world, app);
        ExtrasSwept(c, s.world, app);
        OnlyLosesOn(w.store, s.world.store, e.world.store, app);
        if deleteData {
          KindPurged(c, e.world, Claim, app);
          OnlyLosesOn(w.store, e.world.store, DeleteKind(c, e.world, Claim, app).world.store, app);
        }
        if Uninstall(c, w, app, deleteData).ok { AllGone(c, w, app, deleteData); }
      }
    }
  }

  lemma AllGone(c: Script, w: World, app: string, deleteData: bool)
    requires Fair(c) && Uninstall(c, w, app, deleteData).ok
    ensures var u := Uninstall(c, w, app, deleteData);
            u.world.store == Without(w.store, Always(deleteData) + u.answered, app)
  {
    var d := DeleteKind(c, w, Deployment, app);
    var s := DeleteKind(c, d.world, Service, app);
    var e := DeleteExtras(c, s.world, app);
    KindPurged(c, w, Deployment, app);
    KindPurged(c, d.world, Service, app);
    ExtrasSwept(c, s.world, app);
    WithoutMore(w.store, {Deployment}, {Service}, app);
    WithoutMore(w.store, {Deployment} + {Service}, e.answered, app);
    if deleteData {
      KindPurged(c, e.world, Claim, app);
      WithoutMore(w.store, {Deployment} + {Service} + e.answered, {Claim}, app);
      assert {Deployment} + {Service} + e.answered + {Claim} == Always(true) + e.answered;
    } else {
      assert {Deployment} + {Service} + e.answered == Always(false) + e.answered;
    }
  }

  // ----- when every call works -----

  lemma {:induction false} ItemsWork(c: Script, w: World, items: seq<Item>, app: string, removed: nat, failures: nat)
    requires AllWork(c, w.calls)
    ensures var p := DeleteItems(c, w, items, app, removed, failures);
            && p.answered && p.failures == failures && p.world.calls >= w.calls
            && (p.removed == removed <==> forall i :: 0 <= i < |items| ==>
                  !Belongs(items[i].key, items[i].object_, app))
            && p.removed >= removed
    decreases |items|
  {
    if items != [] {
      if Belongs(items[0].key, items[0].object_, app) {
        ItemsWork(c, DeleteLeaves(c, w, items[0].key), items[1..], app, removed + 1, failures);
      } else {
        ItemsWork(c, w, items[1..], app, removed, failures);
        assert forall i :: 0 < i < |items| ==> items[i] == items[1..][i - 1];
      }
    }
  }

  lemma KindWorks(c: Script, w: World, kind: Kind, app: string)
    requires Fair(c) && AllWork(c, w.calls)
    ensures var p := DeleteKind(c, w, kind, app);
            && p.answered && p.failures == 0 && p.world.calls >= w.calls
            && (p.removed > 0 <==> HasKind(w.store, kind, app))
  {
    var items := c.order(w.calls, w.store, kind);
    assert Lists(items, w.store, kind);
    ItemsWork(c, Called(w), items, app, 0, 0);
    if HasKind(w.store, kind, app) {
      var k :| k in w.store && k.kind == kind && Belongs(k, w.store[k], app);
      var i :| 0 <= i < |items| && items[i] == Item(k, w.store[k]);
    }
    KindPurged(c, w, kind, app);
  }

  lemma {:induction false} KindsWork(c: Script, w: World, kinds: seq<Kind>, app: string, answered: set<Kind>,
                                     failures: nat)
    requires Fair(c) && AllWork(c, w.calls)
    ensures var s := DeleteKinds(c, w, kinds, app, answered, failures);
            s.failures == failures && s.world.calls >= w.calls
    decreases |kinds|
  {
    if kinds != [] {
      KindWorks(c, w, kinds[0], app);
      var p := DeleteKind(c, w, kinds[0], app);
      KindsWork(c, p.world, kinds[1..], app, if p.answered then answered + {kinds[0]} else answered,
                failures + p.failures);
    }
  }

  /** With every call working, an uninstall succeeds exactly when the app has a Deployment: what else
      there is of an app without one cannot be uninstalled. */
  lemma UninstallsIffDeployed(c: Script, w: World, app: string, deleteData: bool)
    requires Fair(c) && AllWork(c, w.calls)
    ensures Uninstall(c, w, app, deleteData).ok <==> HasKind(w.store, Deployment, app)
    ensures !HasKind(w.store, Deployment, app) ==> Uninstall(c, w, app, deleteData).world.store == w.store
  {
    var d := DeleteKind(c, w, Deployment, app);
    KindWorks(c, w, Deployment, app);
    KindPurged(c, w, Deployment, app);
    if HasKind(w.store, Deployment, app) {
      KindWorks(c, d.world, Service, app);
      var s := DeleteKind(c, d.world, Service, app);
      KindsWork(c, s.world, ExtraKinds, app, {}, 0);
      KindWorks(c, DeleteExtras(c, s.world, app).world, Claim, app);
    } else {
      assert Without(w.store, {Deployment}, app) == w.store;
    }
  }

  // ----- the code -----

  method DeleteBelonging(cluster: Cluster, kind: Kind, app: string)
      returns (answered: bool, removed: nat, failures: nat)
    modifies cluster
    ensures Purged(answered, removed, failures, cluster.View())
          == DeleteKind(cluster.script, old(cluster.View()), kind, app)
  {
    removed, failures := 0, 0;
    var items;
    answered, items := cluster.List(kind);
    if !answered { return; }
    ghost var all := DeleteItems(cluster.script, cluster.View(), items, app, 0, 0);
    assert items[0..] == items;
    for i := 0 to |items|
      invariant DeleteItems(cluster.script, cluster.View(), items[i..], app, removed, failures) == all
    {
      assert items[i..][0] == items[i] && items[i..][1..] == items[i + 1..];
      if !Belongs(items[i].key, items[i].object_, app) { continue; }
      var ok := cluster.Delete(items[i].key);
      if ok { removed := removed + 1; } else { failures := failures + 1; }
    }
    assert items[|items|..] == [];
  }

  method DeleteAppExtras(cluster: Cluster, app: string) returns (failures: nat, ghost answered: set<Kind>)
    modifies cluster
    ensures Swept(answered, failures, cluster.View()) == DeleteExtras(cluster.script, old(cluster.View()), app)
  {
    failures, answered := 0, {};
    var left := ExtraKinds;
    ghost var all := DeleteKinds(cluster.script, cluster.View(), left, app, {}, 0);
    while left != []
      invariant DeleteKinds(cluster.script, cluster.View(), left, app, answered, failures) == all
      decreases |left|
    {
      var listed, removed, failed := DeleteBelonging(cluster, left[0], app);
      if listed { answered := answered + {left[0]}; }
      failures, left := failures + failed, left[1..];
    }
  }

  /** uninstallImageApp: it fails unless every object found was deleted, and when the app has no
      Deployment at all; what it could not list among the extras does not count against it. */
  method UninstallImageApp(cluster: Cluster, app: string, deleteData: bool)
      returns (ok: bool, ghost answered: set<Kind>)
    modifies cluster
    ensures Uninstalled(ok, answered, cluster.View()) == Uninstall(cluster.script, old(cluster.View()), app, deleteData)
  {
    var listed, removed, failures := DeleteBelonging(cluster, Deployment, app);
    if !listed || (removed == 0 && failures == 0) { return false, {}; }
    var gone, failed;
    listed, gone, failed := DeleteBelonging(cluster, Service, app);
    if !listed { return false, {}; }
    failures := failures + failed;
    failed, answered := DeleteAppExtras(cluster, app);
    failures := failures + failed;
    if deleteData {
      listed, gone, failed := DeleteBelonging(cluster, Claim, app);
      if !listed { return false, answered; }
      failures := failures + failed;
    }
    return failures == 0, answered;
  }
}
