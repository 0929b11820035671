/** Builds from a Git repository and the watcher that deploys them (controllers/git_build.go), as a
    state machine over the cluster. Everything a user, the cluster or the watcher does is one step,
    so the watcher's list of jobs may be out of date by the time it gets to one. */
module GitBuild {
  import opened Runs

  datatype Phase = Building | Complete | Failed

  /** The state annotation of a job. */
  datatype Mark = Unmarked | Deployed | DeployFailed | BuildFailed

  /** first: there was no Deployment of the app when the build was started. */
  datatype Job = Job(app: string, first: bool, phase: Phase, mark: Mark)

  /** A Deployment: whether it came from a repository, and the build whose image it runs. */
  datatype App = NotFromGit | FromGit(build: nat)

  /** Builds are numbered in the order they start, and a number is never used twice.
      latest: the last build started for each app. queue: what is left of the list the watcher works
      through. deployed: every image put on an app, oldest first. */
  datatype State = State(jobs: map<nat, Job>, apps: map<string, App>, next: nat, latest: map<string, nat>,
                         queue: seq<Listed>, deployed: seq<Deploy>)

  datatype Listed = Listed(id: nat, job: Job)
  datatype Deploy = Deploy(app: string, id: nat)

  /** What becomes of a deploy: it works, it fails before anything changed, or a new app's Deployment
      is created and something after it fails. */
  datatype Outcome = Works | Fails | CreatedThenFails

  datatype Step =
    | Start(app: string)
    | Finish(id: nat, complete: bool)
    | List(jobs: seq<Listed>)
    | Work(outcome: Outcome, recorded: bool)
    | RemoveJob(id: nat)
    | RemoveApp(app: string)
    | AddApp(app: string)

  const Empty := State(map[], map[], 0, map[], [], [])

  /** What activeGitBuild looks for. */
  predicate Active(jobs: map<nat, Job>, app: string) {
    exists id :: id in jobs && jobs[id].app == app && jobs[id].mark == Unmarked
  }

  predicate Pending(j: Job) { j.mark == Unmarked && j.phase != Building }

  /** The pending jobs as a list call answers them: all of them, each once, in any order. */
  ghost predicate Lists(jobs: map<nat, Job>, l: seq<Listed>) {
    && Picks(jobs, l)
    && forall id :: id in jobs && Pending(jobs[id]) ==> Listed(id, jobs[id]) in l
  }

  /** Some of them. */
  ghost predicate Picks(jobs: map<nat, Job>, l: seq<Listed>) {
    && (forall i :: 0 <= i < |l| ==> l[i].id in jobs && jobs[l[i].id] == l[i].job && Pending(l[i].job))
    && (forall i, j :: 0 <= i < j < |l| ==> l[i].id != l[j].id)
  }

  ghost predicate Enabled(s: State, step: Step) {
    match step
    case Start(app) => !Active(s.jobs, app) && (app in s.apps ==> s.apps[app].FromGit?)
    case Finish(id, _) => id in s.jobs && s.jobs[id].phase == Building
    case List(l) => s.queue == [] && Lists(s.jobs, l)
    case Work(outcome, _) => s.queue != [] && (outcome == CreatedThenFails ==> Creates(s))
    case RemoveJob(id) => id in s.jobs
    case RemoveApp(app) => app in s.apps
    case AddApp(app) => app !in s.apps
  }

  predicate Creates(s: State)
    requires s.queue != []
  {
    var j := s.queue[0].job; j.phase == Complete && j.first && j.app !in s.apps
  }

  /** deployGitBuild has something to put its image on. */
  predicate Deploys(s: State, outcome: Outcome)
    requires s.queue != []
  {
    var j := s.queue[0].job;
    j.phase == Complete && outcome != Fails && (j.app in s.apps || j.first)
  }

  function MarkFor(s: State, outcome: Outcome): Mark
    requires s.queue != []
  {
    if s.queue[0].job.phase != Complete then BuildFailed
    else if Deploys(s, outcome) && outcome == Works then Deployed
    else DeployFailed
  }

  function Apply(s: State, step: Step): State {
    match step
    case Start(app) =>
      s.(jobs := s.jobs[s.next := Job(app, app !in s.apps, Building, Unmarked)],
         latest := s.latest[app := s.next], next := s.next + 1)
    case Finish(id, complete) =>
      if id !in s.jobs then s else
      s.(jobs := s.jobs[id := s.jobs[id].(phase := if complete then Complete else Failed)])
    case List(l) => s.(queue := l)
    case Work(outcome, recorded) =>
      if s.queue == [] then s else
      var Listed(id, j) := s.queue[0];
      var t := if Deploys(s, outcome)
               then s.(apps := s.apps[j.app := if j.app in s.apps && s.apps[j.app] == NotFromGit then NotFromGit
                                               else FromGit(id)],
                       deployed := s.deployed + [Deploy(j.app, id)])
               else s;
      t.(queue := s.queue[1..],
         jobs := if recorded && id in s.jobs then s.jobs[id := s.jobs[id].(mark := MarkFor(s, outcome))] else s.jobs)
    case RemoveJob(id) => s.(jobs := s.jobs - {id})
    case RemoveApp(app) => s.(apps := s.apps - {app})
    case AddApp(app) => s.(apps := s.apps[app := NotFromGit])
  }

  ghost const Builds := Machine(Enabled, Apply)

  // ----- what every step keeps -----

  ghost predicate Inv(s: State) {
    && JobsInv(s)
    && (forall i | 0 <= i < |s.queue| :: Snapshot(s, s.queue[i]))
    && (forall i, j | 0 <= i < j < |s.queue| :: s.queue[i].id != s.queue[j].id)
  }

  /** Only the last build of an app has no recorded state. */
  ghost predicate JobsInv(s: State) {
    && (forall id | id in s.jobs :: id < s.next && s.jobs[id].app in s.latest && id <= s.latest[s.jobs[id].app])
    && (forall id | id in s.jobs && s.jobs[id].mark == Unmarked :: id == s.latest[s.jobs[id].app])
    && (forall app | app in s.latest :: s.latest[app] < s.next)
  }

  /** A listed job was pending, and still is if it is there. */
  ghost predicate Snapshot(s: State, l: Listed) {
    && Pending(l.job) && l.id < s.next
    && l.job.app in s.latest && l.id <= s.latest[l.job.app]
    && (l.id in s.jobs ==> s.jobs[l.id] == l.job)
  }

  lemma StepKeepsInv(s: State, step: Step)
    requires Inv(s) && Enabled(s, step)
    ensures Inv(Apply(s, step))
  {
    var t := Apply(s, step);
    StepKeepsJobsInv(s, step);
    forall i | 0 <= i < |t.queue| ensures Snapshot(t, t.queue[i]) {
      if step.Work? { SnapshotStays(s, step, s.queue[i + 1]); }
      else if step.List? { assert t.queue[i].id in s.jobs; }
      else { SnapshotStays(s, step, s.queue[i]); }
    }
  }

  lemma StepKeepsJobsInv(s: State, step: Step)
    requires JobsInv(s) && Enabled(s, step)
    ensures JobsInv(Apply(s, step))
  {
  }

  /** Of the listed jobs the watcher only touches the one it is at. */
  lemma SnapshotStays(s: State, step: Step, l: Listed)
    requires Inv(s) && Enabled(s, step) && Snapshot(s, l)
    requires step.Work? ==> s.queue[0].id != l.id
    ensures Snapshot(Apply(s, step), l)
  {
  }

  lemma {:induction false} RunKeepsInv(s: State, steps: seq<Step>)
    requires Inv(s) && CanRun(Builds, s, steps)
    ensures Inv(Run(Builds, s, steps))
    decreases |steps|
  {
    if steps != [] { StepKeepsInv(s, steps[0]); RunKeepsInv(Apply(s, steps[0]), steps[1..]); }
  }

  /** Whatever happens, an app never has two builds without a recorded state. */
  lemma AtMostOneUnmarked(steps: seq<Step>, a: nat, b: nat)
    requires CanRun(Builds, Empty, steps)
    ensures var jobs := Run(Builds, Empty, steps).jobs;
            a in jobs && b in jobs && jobs[a].app == jobs[b].app && jobs[a].mark == jobs[b].mark == Unmarked ==> a == b
  {
    RunKeepsInv(Empty, steps);
  }

  /** A recorded state never changes: the job keeps it, or is gone for good. */
  lemma {:induction false} RecordedForGood(s: State, steps: seq<Step>, id: nat)
    requires Inv(s) && CanRun(Builds, s, steps) && id < s.next
    requires id in s.jobs ==> s.jobs[id].mark != Unmarked
    ensures var t := Run(Builds, s, steps); id in t.jobs ==> id in s.jobs && t.jobs[id].mark == s.jobs[id].mark
    decreases |steps|
  {
    if steps != [] { StepKeepsInv(s, steps[0]); RecordedForGood(Apply(s, steps[0]), steps[1..], id); }
  }

  // ----- which image is deployed -----

  /** A build whose job is still there when the watcher gets to it is the app's latest. */
  lemma PresentIsLatest(s: State)
    requires Inv(s) && s.queue != [] && s.queue[0].id in s.jobs
    ensures s.queue[0].id == s.latest[s.queue[0].job.app]
  {
    assert Snapshot(s, s.queue[0]);
  }

  /** No job is removed while the watcher's list still holds it. */
  ghost predicate Careful(s: State, steps: seq<Step>)
    decreases |steps|
  {
    steps != [] ==>
      && (steps[0].RemoveJob? ==> forall l | l in s.queue :: l.id != steps[0].id)
      && Careful(Apply(s, steps[0]), steps[1..])
  }

  ghost predicate QueuePresent(s: State) { forall l | l in s.queue :: l.id in s.jobs }

  lemma StepKeepsQueue(s: State, step: Step)
    requires QueuePresent(s) && Enabled(s, step) && (step.RemoveJob? ==> forall l | l in s.queue :: l.id != step.id)
    ensures QueuePresent(Apply(s, step))
  {
    var u := Apply(s, step);
    forall l | l in u.queue ensures l.id in u.jobs {
      if step.List? { var i :| 0 <= i < |u.queue| && u.queue[i] == l; } else { assert l in s.queue; }
    }
  }

  /** In runs that take no listed job away, once a build has started for an app only its image, or
      that of a build started still later, is put on the app. */
  lemma {:induction false} NoEarlierImageAfterStart(s: State, steps: seq<Step>, app: string)
    requires Inv(s) && QueuePresent(s) && CanRun(Builds, s, steps) && Careful(s, steps) && app in s.latest
    ensures var t := Run(Builds, s, steps);
            s.deployed <= t.deployed && app in t.latest && s.latest[app] <= t.latest[app]
            && forall i | |s.deployed| <= i < |t.deployed| && t.deployed[i].app == app ::
                 s.latest[app] <= t.deployed[i].id
    decreases |steps|
  {
    if steps != [] {
      var u := Apply(s, steps[0]);
      StepKeepsInv(s, steps[0]);
      StepKeepsQueue(s, steps[0]);
      if s.queue != [] {
        assert s.queue[0] in s.queue;
        PresentIsLatest(s);
      }
      NoEarlierImageAfterStart(u, steps[1..], app);
    }
  }

  /** Every image put on an app is, when it is, that of the last build started for it. */
  ghost predicate NewestThroughout(s: State, steps: seq<Step>)
    decreases |steps|
  {
    steps != [] ==>
      PutsNewest(s, Apply(s, steps[0])) && NewestThroughout(Apply(s, steps[0]), steps[1..])
  }

  ghost predicate PutsNewest(s: State, t: State) {
    forall i | |s.deployed| <= i < |t.deployed| ::
      t.deployed[i].app in t.latest && t.deployed[i].id == t.latest[t.deployed[i].app]
  }

  /** The builds overtaken so far: each time a build starts for an app, those of the app that the
      watcher's list still holds. */
  ghost function Overtaken(s: State, step: Step, over: set<nat>): set<nat> {
    if step.Start? then over + set l | l in s.queue && l.job.app == step.app :: l.id else over
  }

  /** No build the watcher's list held when a later one of its app was started is deployed. */
  ghost predicate NoOvertakenDeployed(s: State, steps: seq<Step>, over: set<nat>)
    decreases |steps|
  {
    steps != [] ==>
      && (steps[0].Work? && s.queue != [] && Deploys(s, steps[0].outcome) ==> s.queue[0].id !in over)
      && NoOvertakenDeployed(Apply(s, steps[0]), steps[1..], Overtaken(s, steps[0], over))
  }

  /** An overtaken build's job is gone for good; of the listed builds, those overtaken are those that
      are no longer the last of their app. */
  ghost predicate OverInv(s: State, over: set<nat>) {
    && (forall id | id in over :: id < s.next && id !in s.jobs)
    && (forall l | l in s.queue :: l.job.app in s.latest && (l.id in over <==> s.latest[l.job.app] != l.id))
  }

  lemma StepKeepsOverInv(s: State, step: Step, over: set<nat>)
    requires Inv(s) && OverInv(s, over) && Enabled(s, step)
    ensures OverInv(Apply(s, step), Overtaken(s, step, over))
  {
    var (t, now) := (Apply(s, step), Overtaken(s, step, over));
    forall l | l in t.queue ensures l.job.app in t.latest && (l.id in now <==> t.latest[l.job.app] != l.id) {
      if step.List? {
        var i :| 0 <= i < |t.queue| && t.queue[i] == l;
        assert l.id in s.jobs;
      } else {
        QueuedStays(s, step, l);
        if step.Start? { QueuedOfApp(s, step.app, l); }
      }
    }
    if step.Start? {
      forall l | l in s.queue && l.job.app == step.app ensures l.id < s.next && l.id !in s.jobs { }
    }
  }

  lemma QueuedStays(s: State, step: Step, l: Listed)
    requires l in Apply(s, step).queue && !step.List?
    ensures l in s.queue
  {
  }

  lemma QueuedOfApp(s: State, app: string, l: Listed)
    requires Inv(s) && l in s.queue
    ensures l.id < s.next
    ensures l.job.app != app ==> forall k | k in s.queue && k.job.app == app :: k.id != l.id
  {
    var i :| 0 <= i < |s.queue| && s.queue[i] == l;
    assert Snapshot(s, s.queue[i]);
  }

  lemma PutsNewestUnlessOvertaken(s: State, step: Step, over: set<nat>)
    requires Inv(s) && OverInv(s, over) && Enabled(s, step)
    ensures PutsNewest(s, Apply(s, step)) <==>
              (step.Work? && s.queue != [] && Deploys(s, step.outcome) ==> s.queue[0].id !in over)
  {
    if step.Work? {
      var (l, t) := (s.queue[0], Apply(s, step));
      assert l in s.queue;
      if Deploys(s, step.outcome) { assert t.deployed[|s.deployed|] == Deploy(l.job.app, l.id); }
    }
  }

  lemma {:induction false} NewestFrom(s: State, steps: seq<Step>, over: set<nat>)
    requires Inv(s) && OverInv(s, over) && CanRun(Builds, s, steps)
    ensures NewestThroughout(s, steps) <==> NoOvertakenDeployed(s, steps, over)
    decreases |steps|
  {
    if steps != [] {
      PutsNewestUnlessOvertaken(s, steps[0], over);
      StepKeepsInv(s, steps[0]);
      StepKeepsOverInv(s, steps[0], over);
      NewestFrom(Apply(s, steps[0]), steps[1..], Overtaken(s, steps[0], over));
    }
  }

  /** No earlier image follows the start of a later build exactly in the runs that deploy no build
      which the watcher's list still held when another of its app was started. */
  lemma NewestIffNoneOvertaken(steps: seq<Step>)
    requires CanRun(Builds, Empty, steps)
    ensures NewestThroughout(Empty, steps) <==> NoOvertakenDeployed(Empty, steps, {})
  {
    NewestFrom(Empty, steps, {});
  }

  /** While a build waits in the watcher's list as the last of its app, a later one can start, and
      overtake it, exactly when its job has been taken away and the app is not one of another kind. */
  lemma LaterStartIffJobGone(s: State, l: Listed)
    requires Inv(s) && l in s.queue && s.latest[l.job.app] == l.id
    ensures Enabled(s, Start(l.job.app)) <==> l.id !in s.jobs && (l.job.app in s.apps ==> s.apps[l.job.app].FromGit?)
    ensures l.id in Overtaken(s, Start(l.job.app), {})
  {
    var i :| 0 <= i < |s.queue| && s.queue[i] == l;
    assert Snapshot(s, s.queue[i]);
  }

  /** And then the earlier image does go on the app last: a run in which a finished job is removed
      between the watcher's list call and its turn. */
  lemma EarlierImageAfterJobGone()
    ensures exists steps, app ::
              && CanRun(Builds, Empty, steps)
              && Run(Builds, Empty, steps).deployed == [Deploy(app, 0)]
              && Run(Builds, Empty, steps).latest == map[app := 1]
  {
    var app := "site";
    var a, b := ListedSteps(app), GoneSteps(app);
    FinishedIsListed(app);
    ThenItsJobGoes(app);
    RunAppend(Builds, Empty, a, b);
  }

  ghost function FinishedJob(app: string): Job { Job(app, true, Complete, Unmarked) }

  ghost function ListedState(app: string): State {
    State(map[0 := FinishedJob(app)], map[], 1, map[app := 0], [Listed(0, FinishedJob(app))], [])
  }

  ghost function ListedSteps(app: string): seq<Step> {
    [Start(app), Finish(0, true), List([Listed(0, FinishedJob(app))])]
  }

  ghost function GoneSteps(app: string): seq<Step> { [RemoveJob(0), Start(app), Work(Works, true)] }

  lemma FinishedIsListed(app: string)
    ensures CanRun(Builds, Empty, ListedSteps(app)) && Run(Builds, Empty, ListedSteps(app)) == ListedState(app)
  {
    var steps := ListedSteps(app);
    var s1 := Apply(Empty, steps[0]);
    var s2 := Apply(s1, steps[1]);
    assert s2.jobs == map[0 := FinishedJob(app)];
    assert Apply(s2, steps[2]) == ListedState(app);
    ThreeSteps(Empty, steps);
  }

  lemma ThenItsJobGoes(app: string)
    ensures var t := Run(Builds, ListedState(app), GoneSteps(app));
            && CanRun(Builds, ListedState(app), GoneSteps(app))
            && t.deployed == [Deploy(app, 0)] && t.latest == map[app := 1]
  {
    var steps := GoneSteps(app);
    var s1 := Apply(ListedState(app), steps[0]);
    assert s1.jobs == map[];
    var s2 := Apply(s1, steps[1]);
    assert s2.latest == map[app := 1];
    ThreeSteps(ListedState(app), steps);
  }

  lemma ThreeSteps(s: State, steps: seq<Step>)
    requires |steps| == 3
    ensures var s1 := Apply(s, steps[0]);
            var s2 := Apply(s1, steps[1]);
            && Run(Builds, s, steps) == Apply(s2, steps[2])
            && (CanRun(Builds, s, steps) <==> Enabled(s, steps[0]) && Enabled(s1, steps[1]) && Enabled(s2, steps[2]))
  {
    var s1 := Apply(s, steps[0]);
    RunFirst(Builds, s, steps[0], [steps[1], steps[2]]);
    RunFirst(Builds, s1, steps[1], [steps[2]]);
    RunFirst(Builds, Apply(s1, steps[1]), steps[2], []);
    assert steps == [steps[0]] + [steps[1], steps[2]] && [steps[1], steps[2]] == [steps[1]] + [steps[2]];
    assert [steps[2]] == [steps[2]] + [];
  }

  // ----- deleted apps -----

  /** The build was started by one of these steps, and is a first one exactly when there was no
      Deployment of the app then. */
  ghost predicate WasStarted(steps: seq<Step>, id: nat, job: Job) {
    exists k: nat :: StartedAt(steps, k, id, job)
  }

  ghost predicate StartedAt(steps: seq<Step>, k: nat, id: nat, job: Job) {
    && k < |steps| && steps[k] == Start(job.app)
    && var s := Run(Builds, Empty, steps[..k]); s.next == id && (job.first <==> job.app !in s.apps)
  }

  /** Every build there is a job or a listing of was started so. */
  ghost predicate AllStarted(steps: seq<Step>, s: State) {
    && (forall id | id in s.jobs :: WasStarted(steps, id, s.jobs[id]))
    && (forall l | l in s.queue :: WasStarted(steps, l.id, l.job))
  }

  lemma StillStarted(steps: seq<Step>, step: Step, id: nat, job: Job)
    requires WasStarted(steps, id, job)
    ensures WasStarted(steps + [step], id, job)
  {
    var k: nat :| StartedAt(steps, k, id, job);
    assert (steps + [step])[..k] == steps[..k];
    assert StartedAt(steps + [step], k, id, job);
  }

  /** A job keeps its app and whether it is a first one. */
  lemma JobsStay(s: State, step: Step, id: nat)
    requires Inv(s) && Enabled(s, step) && id in Apply(s, step).jobs
    ensures id in s.jobs ==>
          Apply(s, step).jobs[id].app == s.jobs[id].app && Apply(s, step).jobs[id].first == s.jobs[id].first
    ensures id !in s.jobs ==> step.Start? && id == s.next
    ensures id !in s.jobs ==> Apply(s, step).jobs[id] == Job(step.app, step.app !in s.apps, Building, Unmarked)
  {
  }

  lemma {:induction false} RunStarts(steps: seq<Step>)
    requires CanRun(Builds, Empty, steps)
    ensures AllStarted(steps, Run(Builds, Empty, steps))
    decreases |steps|
  {
    if steps != [] {
      var (before, step) := (steps[..|steps| - 1], steps[|steps| - 1]);
      assert steps == before + [step];
      CanRunPrefix(Builds, Empty, before, [step]);
      RunAppend(Builds, Empty, before, [step]);
      RunKeepsInv(Empty, before);
      RunFirst(Builds, Run(Builds, Empty, before), step, []);
      assert [step] + [] == [step];
      RunStarts(before);
      StepStarts(before, step);
    }
  }

  lemma StepStarts(before: seq<Step>, step: Step)
    requires var s := Run(Builds, Empty, before); Inv(s) && AllStarted(before, s) && Enabled(s, step)
    ensures AllStarted(before + [step], Apply(Run(Builds, Empty, before), step))
  {
    var s := Run(Builds, Empty, before);
    var t := Apply(s, step);
    forall id | id in t.jobs ensures WasStarted(before + [step], id, t.jobs[id]) { JobStarted(before, step, s, id); }
    forall l | l in t.queue ensures WasStarted(before + [step], l.id, l.job) { ListedStarted(before, step, s, l); }
  }

  lemma ListedStarted(before: seq<Step>, step: Step, s: State, l: Listed)
    requires AllStarted(before, s) && Enabled(s, step) && l in Apply(s, step).queue
    ensures WasStarted(before + [step], l.id, l.job)
  {
    if step.List? {
      var i :| 0 <= i < |step.jobs| && step.jobs[i] == l;
      assert l.id in s.jobs && s.jobs[l.id] == l.job;
    } else {
      QueuedStays(s, step, l);
    }
    StillStarted(before, step, l.id, l.job);
  }

  lemma JobStarted(before: seq<Step>, step: Step, s: State, id: nat)
    requires s == Run(Builds, Empty, before) && Inv(s) && Enabled(s, step) && id in Apply(s, step).jobs
    requires id in s.jobs ==> WasStarted(before, id, s.jobs[id])
    ensures WasStarted(before + [step], id, Apply(s, step).jobs[id])
  {
    var (job, steps) := (Apply(s, step).jobs[id], before + [step]);
    JobsStay(s, step, id);
    if id in s.jobs {
      StillStarted(before, step, id, s.jobs[id]);
      SameStart(steps, id, s.jobs[id], job);
    } else {
      assert steps[..|before|] == before;
      assert StartedAt(steps, |before|, id, job);
    }
  }

  lemma SameStart(steps: seq<Step>, id: nat, was: Job, now: Job)
    requires WasStarted(steps, id, was) && now.app == was.app && now.first == was.first
    ensures WasStarted(steps, id, now)
  {
    var k: nat :| StartedAt(steps, k, id, was);
    assert StartedAt(steps, k, id, now);
  }

  /** In every run, the watcher brings an app into being only for a build that was started when there
      was no Deployment of it: a rebuild never recreates a deleted app. */
  lemma OnlyFirstBuildsCreate(steps: seq<Step>, outcome: Outcome, recorded: bool, app: string)
    requires CanRun(Builds, Empty, steps) && Enabled(Run(Builds, Empty, steps), Work(outcome, recorded))
    requires app !in Run(Builds, Empty, steps).apps
    requires app in Apply(Run(Builds, Empty, steps), Work(outcome, recorded)).apps
    ensures exists k: nat, id: nat :: StartedBefore(steps, k, id, app) && app !in Run(Builds, Empty, steps[..k]).apps
                            && Apply(Run(Builds, Empty, steps), Work(outcome, recorded)).apps[app] == FromGit(id)
  {
    RunStarts(steps);
    var l := Run(Builds, Empty, steps).queue[0];
    assert l in Run(Builds, Empty, steps).queue;
    var k: nat :| StartedAt(steps, k, l.id, l.job);
    assert StartedBefore(steps, k, l.id, app);
  }

  ghost predicate StartedBefore(steps: seq<Step>, k: nat, id: nat, app: string) {
    k < |steps| && steps[k] == Start(app) && Run(Builds, Empty, steps[..k]).next == id
  }

  /** A first build of the app is still to be deployed: its job has no recorded state and has not
      failed, or the watcher's list holds it, completed. */
  ghost predicate MayReturn(s: State, app: string) {
    || (exists id :: id in s.jobs && ToCome(s.jobs[id], app))
    || (exists l :: l in s.queue && Returning(l.job, app))
  }

  predicate ToCome(j: Job, app: string) { j.app == app && j.first && j.mark == Unmarked && j.phase != Failed }

  predicate Returning(j: Job, app: string) { j.app == app && j.first && j.phase == Complete }

  /** Nobody starts a build of the app, or deploys something else under its name. */
  ghost predicate LeavesAlone(steps: seq<Step>, app: string) { Start(app) !in steps && AddApp(app) !in steps }

  /** A deleted app is there again after some run in which nobody started a build of it. */
  ghost predicate Returns(s: State, app: string) {
    exists steps :: CanRun(Builds, s, steps) && LeavesAlone(steps, app) && app in Run(Builds, s, steps).apps
  }

  /** A deleted app comes back without anyone asking for it exactly when a first build of it is still
      to be deployed: no rebuild, running, finished or listed, brings it back. */
  lemma ReturnsIff(s: State, app: string)
    requires app !in s.apps
    ensures Returns(s, app) <==> MayReturn(s, app)
  {
    if steps :| CanRun(Builds, s, steps) && LeavesAlone(steps, app) && app in Run(Builds, s, steps).apps {
      if !MayReturn(s, app) { GoneStaysGone(s, steps, app); }
    }
    if MayReturn(s, app) {
      if id :| id in s.jobs && ToCome(s.jobs[id], app) {
        JobReturns(s, app, id);
      } else {
        var l :| l in s.queue && Returning(l.job, app);
        ListedReturns(s, app, l);
      }
    }
  }

  lemma {:induction false} GoneStaysGone(s: State, steps: seq<Step>, app: string)
    requires CanRun(Builds, s, steps) && app !in s.apps && !MayReturn(s, app) && LeavesAlone(steps, app)
    ensures app !in Run(Builds, s, steps).apps
    decreases |steps|
  {
    if steps != [] {
      StepStaysGone(s, steps[0], app);
      GoneStaysGone(Apply(s, steps[0]), steps[1..], app);
    }
  }

  lemma StepStaysGone(s: State, step: Step, app: string)
    requires Enabled(s, step) && app !in s.apps && !MayReturn(s, app) && step != Start(app) && step != AddApp(app)
    ensures app !in Apply(s, step).apps && !MayReturn(Apply(s, step), app)
  {
    var t := Apply(s, step);
    if s.queue != [] { assert s.queue[0] in s.queue; }
    forall l | l in t.queue ensures !Returning(l.job, app) {
      if step.List? {
        var i :| 0 <= i < |t.queue| && t.queue[i] == l;
        assert Pending(l.job) && s.jobs[l.id] == l.job;
      } else {
        QueuedStays(s, step, l);
      }
    }
  }

  /** One step more, if it leaves the app alone. */
  lemma ReturnsLater(s: State, step: Step, app: string)
    requires Enabled(s, step) && step != Start(app) && step != AddApp(app) && Returns(Apply(s, step), app)
    ensures Returns(s, app)
  {
    var steps :| CanRun(Builds, Apply(s, step), steps) && LeavesAlone(steps, app)
              && app in Run(Builds, Apply(s, step), steps).apps;
    RunFirst(Builds, s, step, steps);
    assert LeavesAlone([step] + steps, app);
  }

  /** The watcher fails to deploy what stands before it in the list. */
  lemma {:induction false} ListedReturns(s: State, app: string, l: Listed)
    requires l in s.queue && Returning(l.job, app)
    ensures Returns(s, app)
    decreases |s.queue|
  {
    var step := Work(if s.queue[0] == l then Works else Fails, false);
    var t := Apply(s, step);
    if s.queue[0] == l {
      assert CanRun(Builds, t, []) && Run(Builds, t, []) == t && LeavesAlone([], app);
    } else {
      ListedReturns(t, app, l);
    }
    ReturnsLater(s, step, app);
  }

  /** The watcher works off its list, the build completes, and the watcher lists it. */
  lemma {:induction false} JobReturns(s: State, app: string, id: nat)
    requires id in s.jobs && ToCome(s.jobs[id], app)
    ensures Returns(s, app)
    decreases |s.queue|, if id in s.jobs && s.jobs[id].phase == Building then 1 else 0
  {
    if s.queue != [] {
      JobReturns(Apply(s, Work(Fails, false)), app, id);
      ReturnsLater(s, Work(Fails, false), app);
    } else if s.jobs[id].phase == Building {
      JobReturns(Apply(s, Finish(id, true)), app, id);
      ReturnsLater(s, Finish(id, true), app);
    } else {
      var l := AllPending(s.jobs);
      ListedReturns(Apply(s, List(l)), app, Listed(id, s.jobs[id]));
      ReturnsLater(s, List(l), app);
    }
  }

  ghost function AllPending(jobs: map<nat, Job>): (l: seq<Listed>)
    ensures Lists(jobs, l)
  {
    if jobs == map[] then []
    else
      var id :| id in jobs;
      var rest := AllPending(jobs - {id});
      assert forall k :: k in jobs && k != id ==> k in jobs - {id};
      if Pending(jobs[id]) then [Listed(id, jobs[id])] + rest else rest
  }

  /** And so it can be when all went well: the app's first build is deployed and only recording that
      fails, the app is deleted, and at its next turn the watcher deploys the build once more. */
  lemma DeletedAppReturns(app: string)
    ensures var gone := ListedSteps(app) + [Work(Works, false)] + [RemoveApp(app)];
            var back := gone + [List([Listed(0, FinishedJob(app))])] + [Work(Works, true)];
            && CanRun(Builds, Empty, back) && app !in Run(Builds, Empty, gone).apps
            && app in Run(Builds, Empty, back).apps
  {
    var gone := ListedSteps(app) + [Work(Works, false)] + [RemoveApp(app)];
    var (s, l) := (GoneState(app), Listed(0, FinishedJob(app)));
    DeployedAndGone(app);
    OneMore(gone, s, List([l]));
    assert Apply(s, List([l])).queue[0] == l;
    OneMore(gone + [List([l])], Apply(s, List([l])), Work(Works, true));
  }

  ghost function GoneState(app: string): State {
    ListedState(app).(queue := [], deployed := [Deploy(app, 0)])
  }

  lemma DeployedAndGone(app: string)
    ensures var gone := ListedSteps(app) + [Work(Works, false)] + [RemoveApp(app)];
            CanRun(Builds, Empty, gone) && Run(Builds, Empty, gone) == GoneState(app)
  {
    var (start, s, deploy) := (ListedSteps(app), ListedState(app), Work(Works, false));
    FinishedIsListed(app);
    OneMore(start, s, deploy);
    var s1 := Apply(s, deploy);
    assert s1 == GoneState(app).(apps := map[app := FromGit(0)]);
    OneMore(start + [deploy], s1, RemoveApp(app));
    assert Apply(s1, RemoveApp(app)).apps == map[];
  }

  lemma OneMore(steps: seq<Step>, s: State, step: Step)
    requires CanRun(Builds, Empty, steps) && Run(Builds, Empty, steps) == s && Enabled(s, step)
    ensures CanRun(Builds, Empty, steps + [step]) && Run(Builds, Empty, steps + [step]) == Apply(s, step)
  {
    RunAppend(Builds, Empty, steps, [step]);
    RunFirst(Builds, s, step, []);
    assert [step] + [] == [step];
  }

  // ----- a turn of the watcher -----

  /** How the calls of a turn go: whether the jobs can be listed; for each job whether everything up to
      its Deployment works, whether what follows the creation of one does, and whether its state can be
      recorded; and what others do before the turn comes to the i-th job. */
  datatype Calls = Calls(lists: bool, deploys: nat -> bool, finishes: nat -> bool, records: nat -> bool,
                         others: nat -> seq<Step>)

  ghost function Acted(s: State, step: Step): State {
    if step.List? || step.Work? || !Enabled(s, step) then s else Apply(s, step)
  }

  ghost function ActedAll(s: State, steps: seq<Step>): (t: State)
    ensures t.queue == s.queue
    decreases |steps|
  {
    if steps == [] then s else ActedAll(Acted(s, steps[0]), steps[1..])
  }

  ghost function OutcomeOf(s: State, calls: Calls): Outcome
    requires s.queue != []
  {
    var id := s.queue[0].id;
    if !calls.deploys(id) then Fails else if Creates(s) && !calls.finishes(id) then CreatedThenFails else Works
  }

  ghost function Worked(s: State, calls: Calls): State
    requires s.queue != []
  {
    Apply(s, Work(OutcomeOf(s, calls), calls.records(s.queue[0].id)))
  }

  /** From the i-th job of the list on. */
  ghost function TurnFrom(s: State, calls: Calls, i: nat): State
    decreases |s.queue|
  {
    if s.queue == [] then s else TurnFrom(Worked(ActedAll(s, calls.others(i)), calls), calls, i + 1)
  }

  lemma {:induction false} ActingReaches(s: State, steps: seq<Step>)
    ensures Reaches(Builds, s, ActedAll(s, steps))
    decreases |steps|
  {
    if steps == [] {
      ReachesSelf(Builds, s);
    } else {
      var t := Acted(s, steps[0]);
      ReachesSelf(Builds, s);
      if t != s { ReachesNext(Builds, s, s, steps[0]); }
      ActingReaches(t, steps[1..]);
      ReachesOn(Builds, s, t, ActedAll(t, steps[1..]));
    }
  }

  /** Whatever the others do and however the calls go, a turn is a run of the state machine, so all that
      is said of its runs holds of the watcher. */
  lemma {:induction false} TurnIsRun(s: State, l: seq<Listed>, calls: Calls)
    requires s.queue == [] && Lists(s.jobs, l)
    ensures Reaches(Builds, s, TurnFrom(s.(queue := l), calls, 0)) && TurnFrom(s.(queue := l), calls, 0).queue == []
  {
    ReachesSelf(Builds, s);
    ReachesNext(Builds, s, s, List(l));
    RestIsRun(s.(queue := l), calls, 0);
    ReachesOn(Builds, s, s.(queue := l), TurnFrom(s.(queue := l), calls, 0));
  }

  lemma {:induction false} RestIsRun(s: State, calls: Calls, i: nat)
    ensures Reaches(Builds, s, TurnFrom(s, calls, i)) && TurnFrom(s, calls, i).queue == []
    decreases |s.queue|
  {
    ReachesSelf(Builds, s);
    if s.queue != [] {
      var t := ActedAll(s, calls.others(i));
      ActingReaches(s, calls.others(i));
      ReachesNext(Builds, s, t, Work(OutcomeOf(t, calls), calls.records(t.queue[0].id)));
      RestIsRun(Worked(t, calls), calls, i + 1);
      ReachesOn(Builds, s, Worked(t, calls), TurnFrom(s, calls, i));
    }
  }

  /** The state a job has after being worked on: a build that failed has failed; one that completed is
      deployed when its app is there, or is to be created and everything works, and otherwise its
      deploy has failed. A state that cannot be recorded is not. */
  ghost predicate HasResult(s: State, id: nat, after: Job, calls: Calls)
    requires id in s.jobs
  {
    var j := s.jobs[id];
    var here := j.app in s.apps;
    after == if !calls.records(id) then j
             else if j.phase == Failed then j.(mark := BuildFailed)
             else if calls.deploys(id) && (here || (j.first && calls.finishes(id))) then j.(mark := Deployed)
             else j.(mark := DeployFailed)
  }

  /** What the app is after the job was: its image that of the build, if the build completed and
      everything up to the Deployment works, and there is a Deployment or the build may create one. */
  ghost predicate HasApp(s: State, id: nat, t: State, calls: Calls)
    requires id in s.jobs
  {
    var j := s.jobs[id];
    if j.phase == Complete && calls.deploys(id) && (j.app in s.apps || j.first)
    then j.app in t.apps
         && t.apps[j.app] == (if j.app in s.apps && s.apps[j.app] == NotFromGit then NotFromGit else FromGit(id))
    else SameApp(s, t, j.app)
  }

  ghost predicate SameApp(s: State, t: State, app: string) {
    (app in t.apps <==> app in s.apps) && (app in t.apps ==> t.apps[app] == s.apps[app])
  }

  ghost predicate NonePending(s: State, app: string) {
    forall id :: id in s.jobs && Pending(s.jobs[id]) ==> s.jobs[id].app != app
  }

  /** What a turn that nobody interferes with comes to: every pending job has its result and every app
      of one its image, and nothing else is touched. */
  lemma TurnAlone(s: State, l: seq<Listed>, calls: Calls)
    requires Inv(s) && s.queue == [] && Lists(s.jobs, l) && forall i :: calls.others(i) == []
    ensures var t := TurnFrom(s.(queue := l), calls, 0);
            && t.jobs.Keys == s.jobs.Keys && t.queue == []
            && (forall id :: id in s.jobs && Pending(s.jobs[id]) ==>
                  HasResult(s, id, t.jobs[id], calls) && HasApp(s, id, t, calls))
            && (forall id :: id in s.jobs && !Pending(s.jobs[id]) ==> t.jobs[id] == s.jobs[id])
            && (forall app :: NonePending(s, app) ==> SameApp(s, t, app))
  {
    var q := s.(queue := l);
    StepKeepsInv(s, List(l));
    ListedAreApart(q);
    var t := TurnFrom(q, calls, 0);
    RestAlone(q, calls, 0, t);
    forall id | id in s.jobs && Pending(s.jobs[id])
      ensures HasResult(s, id, t.jobs[id], calls) && HasApp(s, id, t, calls)
    {
      PendingIsRight(s, q, t, calls, id);
    }
    UnlistedIsSame(s, q, t);
  }

  lemma PendingIsRight(s: State, q: State, t: State, calls: Calls, id: nat)
    requires q == s.(queue := q.queue) && Lists(s.jobs, q.queue) && id in s.jobs && Pending(s.jobs[id])
    requires t.jobs.Keys == s.jobs.Keys && forall k :: 0 <= k < |q.queue| ==> DoneRight(q, t, calls, q.queue[k])
    ensures HasResult(s, id, t.jobs[id], calls) && HasApp(s, id, t, calls)
  {
    var k :| 0 <= k < |q.queue| && q.queue[k] == Listed(id, s.jobs[id]);
    assert DoneRight(q, t, calls, q.queue[k]);
  }

  lemma UnlistedIsSame(s: State, q: State, t: State)
    requires q == s.(queue := q.queue) && Lists(s.jobs, q.queue) && t.jobs.Keys == s.jobs.Keys && OthersSame(q, t)
    ensures forall id :: id in s.jobs && !Pending(s.jobs[id]) ==> t.jobs[id] == s.jobs[id]
    ensures forall app :: NonePending(s, app) ==> SameApp(s, t, app)
  {
    forall app | NonePending(s, app) ensures SameApp(s, t, app) {
      assert forall i :: 0 <= i < |q.queue| ==> q.queue[i].id in s.jobs && q.queue[i].job.app != app;
      assert SameApp(q, t, app);
    }
  }

  /** The listed jobs are there as they were listed, no two of them of the same app. */
  ghost predicate Fresh(s: State) {
    && (forall i :: 0 <= i < |s.queue| ==>
          s.queue[i].id in s.jobs && s.jobs[s.queue[i].id] == s.queue[i].job && Pending(s.queue[i].job))
    && (forall i, j :: 0 <= i < j < |s.queue| ==>
          s.queue[i].id != s.queue[j].id && s.queue[i].job.app != s.queue[j].job.app)
  }

  lemma ListedAreApart(s: State)
    requires Inv(s) && Lists(s.jobs, s.queue)
    ensures Fresh(s)
  {
  }

  ghost predicate DoneRight(s: State, t: State, calls: Calls, l: Listed) {
    && l.id in s.jobs && l.id in t.jobs
    && HasResult(s, l.id, t.jobs[l.id], calls) && HasApp(s, l.id, t, calls)
  }

  ghost predicate OthersSame(s: State, t: State) {
    && (forall id :: id in s.jobs && (forall i :: 0 <= i < |s.queue| ==> s.queue[i].id != id) ==>
          id in t.jobs && t.jobs[id] == s.jobs[id])
    && (forall app :: (forall i :: 0 <= i < |s.queue| ==> s.queue[i].job.app != app) ==> SameApp(s, t, app))
  }

  lemma {:induction false} RestAlone(s: State, calls: Calls, i: nat, t: State)
    requires Fresh(s) && (forall k :: calls.others(k) == []) && t == TurnFrom(s, calls, i)
    ensures t.jobs.Keys == s.jobs.Keys && t.queue == [] && OthersSame(s, t)
    ensures forall k :: 0 <= k < |s.queue| ==> DoneRight(s, t, calls, s.queue[k])
    decreases |s.queue|
  {
    if s.queue != [] {
      assert ActedAll(s, calls.others(i)) == s;
      var u := Worked(s, calls);
      FirstWorked(s, calls, u);
      assert Fresh(u) by { forall k | 0 <= k < |u.queue| ensures u.queue[k] == s.queue[k + 1] {} }
      RestAlone(u, calls, i + 1, t);
      AllRight(s, u, t, calls);
      OthersSameOn(s, u, t);
    }
  }

  lemma AllRight(s: State, u: State, t: State, calls: Calls)
    requires Fresh(s) && s.queue != [] && u.queue == s.queue[1..] && u.jobs.Keys == s.jobs.Keys && OthersSame(u, t)
    requires forall id :: id in s.jobs && id != s.queue[0].id ==> u.jobs[id] == s.jobs[id]
    requires forall app :: app != s.queue[0].job.app ==> SameApp(s, u, app)
    requires DoneRight(s, u, calls, s.queue[0])
    requires forall k :: 0 <= k < |u.queue| ==> DoneRight(u, t, calls, u.queue[k])
    ensures forall k :: 0 <= k < |s.queue| ==> DoneRight(s, t, calls, s.queue[k])
  {
    var first := s.queue[0];
    forall k | 0 <= k < |u.queue| ensures u.queue[k].id != first.id && u.queue[k].job.app != first.job.app {
      assert u.queue[k] == s.queue[k + 1];
    }
    StaysRight(s, u, t, calls, first);
    forall k | 0 < k < |s.queue| ensures DoneRight(s, t, calls, s.queue[k]) {
      assert u.queue[k - 1] == s.queue[k];
      LaterRight(s, u, t, calls, s.queue[k]);
    }
  }

  lemma LaterRight(s: State, u: State, t: State, calls: Calls, l: Listed)
    requires DoneRight(u, t, calls, l) && l.id in s.jobs && s.jobs[l.id] == u.jobs[l.id]
    requires SameApp(s, u, s.jobs[l.id].app)
    ensures DoneRight(s, t, calls, l)
  {
  }

  lemma StaysRight(s: State, u: State, t: State, calls: Calls, l: Listed)
    requires DoneRight(s, u, calls, l) && l.id in t.jobs && t.jobs[l.id] == u.jobs[l.id]
    requires SameApp(u, t, s.jobs[l.id].app)
    ensures DoneRight(s, t, calls, l)
  {
  }

  lemma OthersSameOn(s: State, u: State, t: State)
    requires s.queue != [] && u.queue == s.queue[1..] && OthersSame(u, t) && u.jobs.Keys == s.jobs.Keys
    requires forall id :: id in s.jobs && id != s.queue[0].id ==> u.jobs[id] == s.jobs[id]
    requires forall app :: app != s.queue[0].job.app ==> SameApp(s, u, app)
    ensures OthersSame(s, t)
  {
    forall k | 0 <= k < |u.queue| ensures u.queue[k] == s.queue[k + 1] {}
    forall app | forall i :: 0 <= i < |s.queue| ==> s.queue[i].job.app != app ensures SameApp(s, t, app) {
      assert SameApp(u, t, app) && SameApp(s, u, app);
    }
  }

  lemma {:induction false} FirstWorked(s: State, calls: Calls, u: State)
    requires Fresh(s) && s.queue != [] && u == Worked(s, calls)
    ensures u.queue == s.queue[1..] && u.jobs.Keys == s.jobs.Keys && DoneRight(s, u, calls, s.queue[0])
    ensures forall id :: id in s.jobs && id != s.queue[0].id ==> u.jobs[id] == s.jobs[id]
    ensures forall app :: app != s.queue[0].job.app ==> SameApp(s, u, app)
  {
  }

  // ----- the code -----

  /** The cluster the code talks to. The ghost fields are the rest of the state above. */
  class Cluster {
    var jobs: map<nat, Job>
    var apps: map<string, App>
    var next: nat
    ghost var latest: map<string, nat>
    ghost var queue: seq<Listed>
    ghost var deployed: seq<Deploy>

    constructor ()
      ensures View() == Empty
    {
      jobs, apps, next, latest, queue, deployed := map[], map[], 0, map[], [], [];
    }

    ghost function View(): State
      reads this
    {
      State(jobs, apps, next, latest, queue, deployed)
    }

    method ActiveGitBuild(app: string) returns (active: bool)
      ensures active == Active(jobs, app)
    {
      var ids := jobs.Keys;
      while ids != {}
        invariant ids <= jobs.Keys
        invariant forall id | id in jobs && id !in ids :: !(jobs[id].app == app && jobs[id].mark == Unmarked)
        decreases |ids|
      {
        var id :| id in ids;
        if jobs[id].app == app && jobs[id].mark == Unmarked { return true; }
        ids := ids - {id};
      }
      return false;
    }

    /** startGitBuild. checks: the request passes the checks on its name, repository and token;
        answers: every call up to adding the job answers. */
    method StartGitBuild(app: string, checks: bool, answers: bool) returns (started: bool)
      modifies this
      ensures started <==> checks && answers && Enabled(old(View()), Start(app))
      ensures View() == if started then Apply(old(View()), Start(app)) else old(View())
    {
      if !checks { return false; }
      if app in apps && apps[app] == NotFromGit { return false; }
      var running := ActiveGitBuild(app);
      if running || !answers { return false; }
      AddJob(app);
      return true;
    }

    method AddJob(app: string)
      modifies this
      ensures View() == Apply(old(View()), Start(app))
    {
      jobs := jobs[next := Job(app, app !in apps, Building, Unmarked)];
      latest := latest[app := next];
      next := next + 1;
    }

    /** What others do to the cluster between two calls of the watcher. What cannot be done is not. */
    method Others(steps: seq<Step>)
      modifies this
      ensures View() == ActedAll(old(View()), steps)
    {
      ghost var start := View();
      assert steps[0..] == steps;
      for i := 0 to |steps|
        invariant ActedAll(View(), steps[i..]) == ActedAll(start, steps)
      {
        assert steps[i..][0] == steps[i] && steps[i..][1..] == steps[i + 1..];
        Act(steps[i]);
      }
    }

    method Act(step: Step)
      modifies this
      ensures View() == Acted(old(View()), step)
    {
      match step
      case Start(app) =>
        var running := ActiveGitBuild(app);
        if !running && (app in apps ==> apps[app].FromGit?) { AddJob(app); }
      case Finish(id, complete) =>
        if id in jobs && jobs[id].phase == Building {
          jobs := jobs[id := jobs[id].(phase := if complete then Complete else Failed)];
        }
      case RemoveJob(id) => jobs := jobs - {id};
      case RemoveApp(app) => apps := apps - {app};
      case AddApp(app) => if app !in apps { apps := apps[app := NotFromGit]; }
      case _ =>
    }

    /** The pending jobs of one list call. */
    method ListPending() returns (l: seq<Listed>)
      ensures Lists(jobs, l)
    {
      l := [];
      var ids := jobs.Keys;
      while ids != {}
        invariant ids <= jobs.Keys && Picks(jobs, l)
        invariant forall i | 0 <= i < |l| :: l[i].id !in ids
        invariant forall id :: id in jobs && id !in ids && Pending(jobs[id]) ==> Listed(id, jobs[id]) in l
        decreases |ids|
      {
        var id :| id in ids;
        if Pending(jobs[id]) { l := l + [Listed(id, jobs[id])]; }
        ids := ids - {id};
      }
    }

    /** deployGitBuild for a job whose build completed. */
    method DeployGitBuild(l: Listed, outcome: Outcome) returns (ok: bool)
      requires queue != [] && queue[0] == l && l.job.phase == Complete
      requires outcome == CreatedThenFails ==> Creates(View())
      modifies this`apps, this`deployed
      ensures ok == (MarkFor(old(View()), outcome) == Deployed)
      ensures View() == Apply(old(View()), Work(outcome, false)).(queue := old(queue))
    {
      if outcome == Fails { return false; }
      var app := l.job.app;
      if app in apps {
        apps := apps[app := if apps[app] == NotFromGit then NotFromGit else FromGit(l.id)];
        deployed := deployed + [Deploy(app, l.id)];
        return true;
      }
      if !l.job.first { return false; }
      apps := apps[app := FromGit(l.id)];
      deployed := deployed + [Deploy(app, l.id)];
      return outcome == Works;
    }

    /** markGitBuild: the patch may be lost, and does nothing to a job that is gone. */
    method MarkGitBuild(id: nat, mark: Mark, recorded: bool)
      modifies this`jobs
      ensures jobs == if recorded && id in old(jobs) then old(jobs)[id := old(jobs)[id].(mark := mark)] else old(jobs)
    {
      if recorded && id in jobs { jobs := jobs[id := jobs[id].(mark := mark)]; }
    }

    /** One pending job is deployed or given up, and marked. */
    method Handle(l: Listed, calls: Calls)
      requires queue != [] && queue[0] == l
      modifies this
      ensures View() == Worked(old(View()), calls)
    {
      var creates := l.job.first && l.job.app !in apps && l.job.phase == Complete;
      var outcome := if !calls.deploys(l.id) then Fails
                     else if creates && !calls.finishes(l.id) then CreatedThenFails else Works;
      if l.job.phase != Complete {
        MarkGitBuild(l.id, BuildFailed, calls.records(l.id));
      } else {
        var ok := DeployGitBuild(l, outcome);
        MarkGitBuild(l.id, if ok then Deployed else DeployFailed, calls.records(l.id));
      }
      queue := queue[1..];
    }

    /** One turn of the watcher: every pending job of one list call is handled, while others go on
        using the cluster. */
    method DeployFinishedGitBuilds(calls: Calls)
      requires queue == []
      modifies this
      ensures !calls.lists ==> unchanged(this)
      ensures calls.lists ==> exists l ::
                Lists(old(jobs), l) && View() == TurnFrom(old(View()).(queue := l), calls, 0)
    {
      if !calls.lists { return; }
      ghost var start := View();
      var list := ListPending();
      queue := list;
      for i := 0 to |list|
        invariant queue == list[i..]
        invariant TurnFrom(View(), calls, i) == TurnFrom(start.(queue := list), calls, 0)
      {
        Others(calls.others(i));
        Handle(list[i], calls);
      }
    }
  }
}
