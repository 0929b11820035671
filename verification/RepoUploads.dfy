/** Sending local repositories to the DevBoxes waiting for one (sendWaitingLocalRepos in
    controllers/devbox_local.go): one loop of ticks, a goroutine for each transfer, and the set of
    pods a transfer is or was for. Pods come and go as they please; no UID is ever used again. */
module RepoUploads {
  import opened Runs

  type Uid = nat

  /** Where the loop is: between ticks, going through the pods of a listing, or sweeping the set. */
  datatype Phase = Idle | Visiting(seen: set<Uid>, waiting: seq<Uid>) | Sweeping(seen: set<Uid>, left: set<Uid>)

  /** busy is the set the code keeps, running the transfers there are. What the run has come to is
      kept as well: the last listing, and the pods whose transfer ended without asking for another. */
  datatype State = State(
    live: set<Uid>,
    next: nat,
    busy: set<Uid>,
    running: multiset<Uid>,
    phase: Phase,
    listed: set<Uid>,
    ended: set<Uid>)

  const Empty := State({}, 0, {}, multiset{}, Idle, {}, {})

  datatype Step =
    | Appear
    | Vanish(uid: Uid)
    | ListPods(found: seq<Uid>)
    | Visit
    | StartSweep
    | Sweep(uid: Uid)
    | EndTick
    | Finish(uid: Uid, retry: bool)

  ghost predicate Enabled(s: State, step: Step) {
    match step
    case Appear => true
    case Vanish(uid) => uid in s.live
    case ListPods(found) => s.phase.Idle? && forall uid | uid in found :: uid in s.live
    case Visit => s.phase.Visiting? && s.phase.waiting != []
    case StartSweep => s.phase.Visiting? && s.phase.waiting == []
    case Sweep(uid) => s.phase.Sweeping? && uid in s.phase.left
    case EndTick => s.phase.Sweeping? && s.phase.left == {}
    case Finish(uid, _) => uid in s.running
  }

  /** The step begins a transfer to the pod. */
  ghost predicate Sends(s: State, step: Step, uid: Uid) {
    step.Visit? && Enabled(s, step) && s.phase.waiting[0] == uid && uid !in s.busy
  }

  ghost function Apply(s: State, step: Step): State {
    if !Enabled(s, step) then s else
    match step
    case Appear => s.(live := s.live + {s.next}, next := s.next + 1)
    case Vanish(uid) => s.(live := s.live - {uid})
    case ListPods(found) => s.(phase := Visiting(s.live, found), listed := s.live)
    case Visit =>
      var uid := s.phase.waiting[0];
      var t := s.(phase := Visiting(s.phase.seen, s.phase.waiting[1..]));
      if uid in s.busy then t else t.(busy := s.busy + {uid}, running := s.running + multiset{uid})
    case StartSweep => s.(phase := Sweeping(s.phase.seen, s.busy))
    case Sweep(uid) =>
      s.(phase := Sweeping(s.phase.seen, s.phase.left - {uid}),
         busy := if uid in s.phase.seen then s.busy else s.busy - {uid})
    case EndTick => s.(phase := Idle)
    case Finish(uid, retry) =>
      var t := s.(running := s.running - multiset{uid});
      if retry then t.(busy := s.busy - {uid}) else t.(ended := s.ended + {uid})
  }

  ghost const Uploads := Machine(Enabled, Apply)

  // ----- what every step keeps -----

  ghost predicate Inv(s: State) {
    && (forall uid | uid in s.live || uid in s.busy || uid in s.running || uid in s.ended || uid in s.listed ::
          uid < s.next)
    && (forall uid | uid in s.running :: s.running[uid] == 1 && uid !in s.ended)
    && (forall uid | uid in s.busy :: uid in s.running || uid in s.ended)
    && (forall uid | (uid in s.running || uid in s.ended) && uid !in s.busy :: Past(s, uid))
    && match s.phase
       case Idle => s.busy <= s.listed
       case Visiting(seen, waiting) =>
         && seen == s.listed && (forall uid | uid in waiting :: uid in seen)
         && (forall uid | uid in s.busy && uid !in seen :: uid !in s.live)
       case Sweeping(seen, left) =>
         && seen == s.listed && s.busy <= seen + left
         && (forall uid | uid in s.busy && uid !in seen :: uid !in s.live)
  }

  /** The pod is gone, and no tick will come to it any more. */
  ghost predicate Past(s: State, uid: Uid) {
    uid !in s.live && !(s.phase.Visiting? && uid in s.phase.waiting)
  }

  lemma EmptyInv()
    ensures Inv(Empty)
  {
  }

  lemma StepKeepsInv(s: State, step: Step)
    requires Inv(s) && Enabled(s, step)
    ensures Inv(Apply(s, step))
  {
    match step
    case Appear =>
    case Vanish(_) =>
    case ListPods(_) =>
    case Visit => VisitKeepsInv(s);
    case StartSweep =>
    case Sweep(uid) => SweepKeepsInv(s, uid);
    case EndTick =>
    case Finish(uid, retry) => FinishKeepsInv(s, uid, retry);
  }

  lemma SweepKeepsInv(s: State, uid: Uid)
    requires Inv(s) && Enabled(s, Sweep(uid))
    ensures Inv(Apply(s, Sweep(uid)))
  {
  }

  lemma FinishKeepsInv(s: State, uid: Uid, retry: bool)
    requires Inv(s) && Enabled(s, Finish(uid, retry))
    ensures Inv(Apply(s, Finish(uid, retry)))
  {
  }

  lemma VisitKeepsInv(s: State)
    requires Inv(s) && Enabled(s, Visit)
    ensures Inv(Apply(s, Visit))
  {
    var uid := s.phase.waiting[0];
    assert uid in s.phase.waiting;
    assert forall u | u in s.phase.waiting[1..] :: u in s.phase.waiting;
  }

  lemma {:induction false} RunKeepsInv(s: State, steps: seq<Step>)
    requires Inv(s) && CanRun(Uploads, s, steps)
    ensures Inv(Run(Uploads, s, steps))
    decreases |steps|
  {
    if steps != [] {
      StepKeepsInv(s, steps[0]);
      RunKeepsInv(Apply(s, steps[0]), steps[1..]);
    }
  }

  // ----- over any run -----

  /** No pod ever has two transfers running; one whose transfer is over has none; and between ticks
      the set holds only pods of the last listing that answered. */
  lemma AtMostOneTransfer(steps: seq<Step>)
    requires CanRun(Uploads, Empty, steps)
    ensures var s := Run(Uploads, Empty, steps);
            && (forall uid :: s.running[uid] <= 1)
            && (forall uid | uid in s.ended :: s.running[uid] == 0)
            && (s.phase.Idle? ==> s.busy <= s.listed)
  {
    EmptyInv();
    RunKeepsInv(Empty, steps);
    var s := Run(Uploads, Empty, steps);
    forall uid ensures s.running[uid] <= 1 && (uid in s.ended ==> s.running[uid] == 0) {
      if s.running[uid] > 0 { assert uid in s.running; }
    }
  }

  /** A waiting pod the loop comes to is sent its repository exactly when no transfer to it is
      running and none has ended for good: the set passes over no pod it should not. */
  lemma SentIffNotServed(steps: seq<Step>)
    requires CanRun(Uploads, Empty, steps) && Enabled(Run(Uploads, Empty, steps), Visit)
    ensures var s := Run(Uploads, Empty, steps);
            var uid := s.phase.waiting[0];
            Sends(s, Visit, uid) <==> uid !in s.running && uid !in s.ended
  {
    EmptyInv();
    RunKeepsInv(Empty, steps);
    var s := Run(Uploads, Empty, steps);
    assert s.phase.waiting[0] in s.phase.waiting;
  }

  ghost function SendsTo(s: State, steps: seq<Step>, uid: Uid): nat
    decreases |steps|
  {
    if steps == [] then 0
    else (if Sends(s, steps[0], uid) then 1 else 0) + SendsTo(Apply(s, steps[0]), steps[1..], uid)
  }

  ghost function EndsOf(steps: seq<Step>, uid: Uid, retry: bool): nat {
    if steps == [] then 0
    else (if steps[0] == Finish(uid, retry) then 1 else 0) + EndsOf(steps[1..], uid, retry)
  }

  lemma StepEnds(s: State, step: Step, uid: Uid)
    requires Inv(s) && Enabled(s, step)
    ensures uid in s.ended ==> uid in Apply(s, step).ended && !Sends(s, step, uid)
    ensures step == Finish(uid, false) ==> uid in Apply(s, step).ended
  {
    if Sends(s, step, uid) { assert uid in s.phase.waiting; }
  }

  /** Once a transfer to a pod ends without asking for another try, none is begun again, however
      long the pod goes on being listed. */
  lemma {:induction false} NeverSentAgain(s: State, steps: seq<Step>, uid: Uid)
    requires Inv(s) && CanRun(Uploads, s, steps) && uid in s.ended
    ensures SendsTo(s, steps, uid) == 0
    decreases |steps|
  {
    if steps != [] {
      StepEnds(s, steps[0], uid);
      StepKeepsInv(s, steps[0]);
      NeverSentAgain(Apply(s, steps[0]), steps[1..], uid);
    }
  }

  lemma ServedOnce(before: seq<Step>, uid: Uid, after: seq<Step>)
    requires CanRun(Uploads, Empty, before + ([Finish(uid, false)] + after))
    ensures SendsTo(Run(Uploads, Empty, before + [Finish(uid, false)]), after, uid) == 0
  {
    var end := [Finish(uid, false)];
    EmptyInv();
    CanRunPrefix(Uploads, Empty, before, end + after);
    RunAppend(Uploads, Empty, before, end + after);
    var s := Run(Uploads, Empty, before);
    RunKeepsInv(Empty, before);
    RunFirst(Uploads, s, end[0], after);
    StepEnds(s, end[0], uid);
    StepKeepsInv(s, end[0]);
    NeverSentAgain(Apply(s, end[0]), after, uid);
    RunAppend(Uploads, Empty, before, end);
    RunFirst(Uploads, s, end[0], []);
    assert end + [] == end;
  }

  lemma StepCounts(s: State, step: Step, uid: Uid)
    requires Enabled(s, step)
    ensures Apply(s, step).running[uid] + (if step == Finish(uid, true) || step == Finish(uid, false) then 1 else 0) ==
            s.running[uid] + if Sends(s, step, uid) then 1 else 0
  {
  }

  /** Transfers are conserved: each one begun is running or has ended. */
  lemma {:induction false} TransfersConserved(s: State, steps: seq<Step>, uid: Uid)
    requires CanRun(Uploads, s, steps)
    ensures Run(Uploads, s, steps).running[uid] + EndsOf(steps, uid, true) + EndsOf(steps, uid, false)
          == s.running[uid] + SendsTo(s, steps, uid)
    decreases |steps|
  {
    if steps != [] {
      StepCounts(s, steps[0], uid);
      TransfersConserved(Apply(s, steps[0]), steps[1..], uid);
    }
  }

  lemma {:induction false} EndsForGoodOnce(s: State, steps: seq<Step>, uid: Uid)
    requires Inv(s) && CanRun(Uploads, s, steps)
    ensures EndsOf(steps, uid, false) + (if uid in s.ended then 1 else 0)
          == if uid in Run(Uploads, s, steps).ended then 1 else 0
    decreases |steps|
  {
    if steps != [] {
      StepKeepsInv(s, steps[0]);
      EndsForGoodOnce(Apply(s, steps[0]), steps[1..], uid);
    }
  }

  /** Over any run a pod is sent its repository at most once more than a transfer asked for a retry. */
  lemma SendsBounded(steps: seq<Step>, uid: Uid)
    requires CanRun(Uploads, Empty, steps)
    ensures SendsTo(Empty, steps, uid) <= 1 + EndsOf(steps, uid, true)
  {
    EmptyInv();
    AtMostOneTransfer(steps);
    TransfersConserved(Empty, steps, uid);
    EndsForGoodOnce(Empty, steps, uid);
  }

  // ----- a tick -----

  /** How a tick goes: whether the pods can be listed, which of them wait for a repository, and what goes
      on beside the loop before it comes to its i-th pod. */
  datatype Calls = Calls(lists: bool, waits: Uid -> bool, others: nat -> seq<Step>)

  /** Pods appear and vanish, and transfers come to their end. */
  predicate IsBeside(step: Step) { step.Appear? || step.Vanish? || step.Finish? }

  ghost function Acted(s: State, step: Step): State { if IsBeside(step) then Apply(s, step) else s }

  ghost function ActedAll(s: State, steps: seq<Step>): (t: State)
    ensures t.phase == s.phase && t.listed == s.listed
    decreases |steps|
  {
    if steps == [] then s else ActedAll(Acted(s, steps[0]), steps[1..])
  }

  /** The pods of a set, each once, in any order. */
  ghost predicate Orders(order: seq<Uid>, all: set<Uid>) {
    && (forall uid :: uid in order <==> uid in all)
    && (forall i, j :: 0 <= i < j < |order| ==> order[i] != order[j])
  }

  lemma OrdersRest(order: seq<Uid>, all: set<Uid>)
    requires Orders(order, all)
    ensures order == [] ==> all == {}
    ensures order != [] ==> order[0] in all && Orders(order[1..], all - {order[0]})
  {
    assert forall uid :: uid in all ==> uid in order;
    if order != [] {
      forall uid ensures uid in order[1..] <==> uid in all - {order[0]} { assert uid in order <==> uid in all; }
    }
  }

  /** Those that wait. */
  ghost function Waiting(live: set<Uid>, calls: Calls): set<Uid> { set uid | uid in live && calls.waits(uid) }

  ghost function Listed(s: State, waiting: seq<Uid>): State {
    s.(phase := Visiting(s.live, waiting), listed := s.live)
  }

  ghost function VisitFrom(s: State, calls: Calls, i: nat): (t: State)
    requires s.phase.Visiting?
    ensures t.phase == Visiting(s.phase.seen, [])
    decreases |s.phase.waiting|
  {
    if s.phase.waiting == [] then s else VisitFrom(Apply(ActedAll(s, calls.others(i)), Visit), calls, i + 1)
  }

  ghost function SweepFrom(s: State, order: seq<Uid>, calls: Calls, i: nat): State
    decreases |order|
  {
    if order == [] then s
    else SweepFrom(Apply(ActedAll(s, calls.others(i)), Sweep(order[0])), order[1..], calls, i + 1)
  }

  lemma {:induction false} SweepFromNext(s: State, order: seq<Uid>, calls: Calls, i: nat)
    requires order != []
    ensures SweepFrom(s, order, calls, i) ==
              SweepFrom(Apply(ActedAll(s, calls.others(i)), Sweep(order[0])), order[1..], calls, i + 1)
  {
  }

  /** A tick whose listing answers, its pods visited and swept in these orders. */
  ghost function Tick(s: State, waiting: seq<Uid>, order: seq<Uid>, calls: Calls): State {
    var visited := VisitFrom(Listed(s, waiting), calls, 0);
    Apply(SweepFrom(Apply(visited, StartSweep), order, calls, |waiting|), EndTick)
  }

  ghost predicate IsTick(s: State, waiting: seq<Uid>, order: seq<Uid>, calls: Calls) {
    && s.phase == Idle && Orders(waiting, Waiting(s.live, calls))
    && Orders(order, VisitFrom(Listed(s, waiting), calls, 0).busy)
  }

  lemma {:induction false} ActingReaches(s: State, steps: seq<Step>)
    ensures Reaches(Uploads, s, ActedAll(s, steps))
    decreases |steps|
  {
    if steps == [] {
      ReachesSelf(Uploads, s);
    } else {
      var t := Acted(s, steps[0]);
      ReachesSelf(Uploads, s);
      if Enabled(s, steps[0]) && IsBeside(steps[0]) { ReachesNext(Uploads, s, s, steps[0]); }
      ActingReaches(t, steps[1..]);
      ReachesOn(Uploads, s, t, ActedAll(t, steps[1..]));
    }
  }

  lemma {:induction false} VisitingReaches(s: State, calls: Calls, i: nat)
    requires s.phase.Visiting?
    ensures Reaches(Uploads, s, VisitFrom(s, calls, i))
    decreases |s.phase.waiting|
  {
    ReachesSelf(Uploads, s);
    if s.phase.waiting != [] {
      var t := ActedAll(s, calls.others(i));
      ActingReaches(s, calls.others(i));
      ReachesNext(Uploads, s, t, Visit);
      VisitingReaches(Apply(t, Visit), calls, i + 1);
      ReachesOn(Uploads, s, Apply(t, Visit), VisitFrom(s, calls, i));
    }
  }

  lemma {:induction false} SweepingReaches(s: State, order: seq<Uid>, calls: Calls, i: nat, t: State)
    requires s.phase.Sweeping? && Orders(order, s.phase.left) && t == SweepFrom(s, order, calls, i)
    ensures Reaches(Uploads, s, t) && t.phase == Sweeping(s.phase.seen, {})
    decreases |order|
  {
    ReachesSelf(Uploads, s);
    OrdersRest(order, s.phase.left);
    if order != [] {
      var u := ActedAll(s, calls.others(i));
      ActingReaches(s, calls.others(i));
      ReachesNext(Uploads, s, u, Sweep(order[0]));
      var next := Apply(u, Sweep(order[0]));
      SweepingReaches(next, order[1..], calls, i + 1, t);
      ReachesOn(Uploads, s, next, t);
    }
  }

  /** Whatever goes on beside it, a tick is a run of the state machine. */
  lemma TickIsRun(s: State, waiting: seq<Uid>, order: seq<Uid>, calls: Calls)
    requires IsTick(s, waiting, order, calls)
    ensures Reaches(Uploads, s, Tick(s, waiting, order, calls)) && Tick(s, waiting, order, calls).phase == Idle
  {
    var listed := Listed(s, waiting);
    var visited := VisitFrom(listed, calls, 0);
    VisitsReach(s, waiting, calls);
    SweepsReach(s, visited, order, calls, |waiting|);
  }

  lemma VisitsReach(s: State, waiting: seq<Uid>, calls: Calls)
    requires s.phase == Idle && Orders(waiting, Waiting(s.live, calls))
    ensures Reaches(Uploads, s, VisitFrom(Listed(s, waiting), calls, 0))
  {
    var listed := Listed(s, waiting);
    assert forall uid | uid in waiting :: uid in Waiting(s.live, calls);
    ReachesSelf(Uploads, s);
    ReachesNext(Uploads, s, s, ListPods(waiting));
    VisitingReaches(listed, calls, 0);
    ReachesOn(Uploads, s, listed, VisitFrom(listed, calls, 0));
  }

  lemma SweepsReach(s: State, visited: State, order: seq<Uid>, calls: Calls, i: nat)
    requires Reaches(Uploads, s, visited) && visited.phase.Visiting? && visited.phase.waiting == []
    requires Orders(order, visited.busy)
    ensures var t := Apply(SweepFrom(Apply(visited, StartSweep), order, calls, i), EndTick);
            Reaches(Uploads, s, t) && t.phase == Idle
  {
    var sweeping := Apply(visited, StartSweep);
    var swept := SweepFrom(sweeping, order, calls, i);
    ReachesNext(Uploads, s, visited, StartSweep);
    SweepingReaches(sweeping, order, calls, i, swept);
    ReachesOn(Uploads, s, sweeping, swept);
    ReachesNext(Uploads, s, swept, EndTick);
  }

  /** What a tick comes to when nothing goes on beside it: a transfer is begun to every pod that waits and
      is not in the set, and the set is then those of it and of the waiting that there are. */
  lemma TickAlone(s: State, waiting: seq<Uid>, order: seq<Uid>, calls: Calls)
    requires IsTick(s, waiting, order, calls) && forall i :: calls.others(i) == []
    ensures var t := Tick(s, waiting, order, calls);
            && t.live == s.live && t.next == s.next && t.ended == s.ended && t.listed == s.live && t.phase == Idle
            && (forall uid :: t.running[uid] ==
                  s.running[uid] + if uid in s.live && calls.waits(uid) && uid !in s.busy then 1 else 0)
            && (forall uid :: uid in t.busy <==> uid in s.live && (uid in s.busy || calls.waits(uid)))
  {
    var listed := Listed(s, waiting);
    var visited := VisitFrom(listed, calls, 0);
    var sweeping := visited.(phase := Sweeping(s.live, visited.busy));
    assert Apply(visited, StartSweep) == sweeping;
    var swept := SweepFrom(sweeping, order, calls, |waiting|);
    VisitsAlone(listed, calls, 0, visited);
    SweepsAlone(sweeping, order, calls, |waiting|, swept);
    TickEnds(s, waiting, order, calls, swept);
    assert forall uid :: uid in waiting <==> uid in s.live && calls.waits(uid);
  }

  lemma {:induction false} VisitsAlone(s: State, calls: Calls, i: nat, t: State)
    requires s.phase.Visiting? && t == VisitFrom(s, calls, i) && forall k :: calls.others(k) == []
    requires forall a, b :: 0 <= a < b < |s.phase.waiting| ==> s.phase.waiting[a] != s.phase.waiting[b]
    ensures t == s.(phase := Visiting(s.phase.seen, []), busy := t.busy, running := t.running)
    ensures forall uid :: uid in t.busy <==> uid in s.busy || uid in s.phase.waiting
    ensures forall uid :: t.running[uid] == s.running[uid] + if uid in s.phase.waiting && uid !in s.busy then 1 else 0
    decreases |s.phase.waiting|
  {
    if s.phase.waiting != [] {
      assert ActedAll(s, calls.others(i)) == s;
      var u := Apply(s, Visit);
      VisitsAlone(u, calls, i + 1, t);
    }
  }

  lemma {:induction false} SweepsAlone(s: State, order: seq<Uid>, calls: Calls, i: nat, t: State)
    requires s.phase.Sweeping? && Orders(order, s.phase.left)
    requires t == SweepFrom(s, order, calls, i) && forall k :: calls.others(k) == []
    ensures t == s.(phase := Sweeping(s.phase.seen, {}), busy := t.busy)
    ensures forall uid :: uid in t.busy <==> uid in s.busy && (uid in s.phase.left ==> uid in s.phase.seen)
    decreases |order|
  {
    OrdersRest(order, s.phase.left);
    if order != [] {
      assert ActedAll(s, calls.others(i)) == s;
      var u := Apply(s, Sweep(order[0]));
      SweepsAlone(u, order[1..], calls, i + 1, t);
    }
  }

  lemma {:induction false} TickEnds(s: State, waiting: seq<Uid>, order: seq<Uid>, calls: Calls, swept: State)
    requires IsTick(s, waiting, order, calls)
    requires var v := VisitFrom(Listed(s, waiting), calls, 0);
             swept == SweepFrom(v.(phase := Sweeping(s.live, v.busy)), order, calls, |waiting|)
    ensures swept.(phase := Idle) == Tick(s, waiting, order, calls)
  {
    var visited := VisitFrom(Listed(s, waiting), calls, 0);
    var sweeping := visited.(phase := Sweeping(s.live, visited.busy));
    PhaseOnly(visited);
    SweepingReaches(sweeping, order, calls, |waiting|, swept);
    PhaseOnly(swept);
  }

  /** Between its loops a tick changes nothing but where it is. */
  lemma PhaseOnly(s: State)
    ensures s.phase.Visiting? && s.phase.waiting == [] ==>
              Apply(s, StartSweep) == s.(phase := Sweeping(s.phase.seen, s.busy))
    ensures s.phase.Sweeping? && s.phase.left == {} ==> Apply(s, EndTick) == s.(phase := Idle)
  {
  }

  // ----- the code -----

  /** The uploader, among the pods of the cluster and the transfers there are. Only busy is the code's own;
      the rest is what it works on, and what the state above remembers. */
  class Uploader {
    var busy: set<Uid>
    var live: set<Uid>
    var next: nat
    var running: multiset<Uid>
    ghost var phase: Phase
    ghost var listed: set<Uid>
    ghost var ended: set<Uid>

    constructor ()
      ensures View() == Empty
    {
      busy, live, next, running, phase, listed, ended := {}, {}, 0, multiset{}, Idle, {}, {};
    }

    ghost function View(): State
      reads this
    {
      State(live, next, busy, running, phase, listed, ended)
    }

    /** What goes on beside the loop. */
    method Others(steps: seq<Step>)
      modifies this
      ensures View() == ActedAll(old(View()), steps)
    {
      ghost var start := View();
      assert steps[0..] == steps;
      for i := 0 to |steps|
        invariant ActedAll(View(), steps[i..]) == ActedAll(start, steps)
      {
        assert steps[i..][0] == steps[i] && steps[i..][1..] == steps[i + 1..];
        Act(steps[i]);
      }
    }

    method Act(step: Step)
      modifies this
      ensures View() == Acted(old(View()), step)
    {
      match step
      case Appear => live, next := live + {next}, next + 1;
      case Vanish(uid) => live := live - {uid};
      case Finish(uid, retry) => if uid in running { FinishTransfer(uid, retry); }
      case _ =>
    }

    /** A transfer's goroutine, once sendLocalRepo answers. */
    method FinishTransfer(uid: Uid, retry: bool)
      requires uid in running
      modifies this
      ensures View() == Apply(old(View()), Finish(uid, retry))
    {
      running := running - multiset{uid};
      if retry {
        busy := busy - {uid};
      } else {
        ended := ended + {uid};
      }
    }

    /** One listing, and the pods in it whose clone container waits for a repository. */
    method WaitingPods(calls: Calls) returns (seen: set<Uid>, waiting: seq<Uid>)
      ensures seen == live && Orders(waiting, Waiting(live, calls))
    {
      seen, waiting := live, [];
      var left := live;
      while left != {}
        invariant left <= live
        invariant forall uid :: uid in waiting <==> uid in live && uid !in left && calls.waits(uid)
        invariant forall i, j :: 0 <= i < j < |waiting| ==> waiting[i] != waiting[j]
        decreases left
      {
        var uid :| uid in left;
        if calls.waits(uid) { waiting := waiting + [uid]; }
        left := left - {uid};
      }
    }

    method LoadOrStore(uid: Uid) returns (loaded: bool)
      modifies this`busy
      ensures loaded == (uid in old(busy)) && busy == old(busy) + {uid}
    {
      loaded := uid in busy;
      busy := busy + {uid};
    }

    method SendIfNew(uid: Uid)
      requires phase.Visiting? && phase.waiting != [] && phase.waiting[0] == uid
      modifies this
      ensures View() == Apply(old(View()), Visit)
    {
      var loaded := LoadOrStore(uid);
      if loaded {
        assert old(busy) + {uid} == old(busy);
      } else {
        running := running + multiset{uid};
      }
      phase := Visiting(phase.seen, phase.waiting[1..]);
    }

    method SweepOne(uid: Uid, seen: set<Uid>)
      requires phase.Sweeping? && phase.seen == seen && uid in phase.left
      modifies this
      ensures View() == Apply(old(View()), Sweep(uid))
    {
      if uid !in seen { busy := busy - {uid}; }
      phase := Sweeping(seen, phase.left - {uid});
    }

    /** The pods waiting are sent to one after the other. */
    method VisitAll(seen: set<Uid>, waiting: seq<Uid>, calls: Calls)
      requires phase == Visiting(seen, waiting)
      modifies this
      ensures View() == VisitFrom(old(View()), calls, 0)
    {
      ghost var start := View();
      for i := 0 to |waiting|
        invariant phase == Visiting(seen, waiting[i..])
        invariant VisitFrom(View(), calls, i) == VisitFrom(start, calls, 0)
      {
        Others(calls.others(i));
        SendIfNew(waiting[i]);
      }
    }

    /** The pods of the set, in any order. */
    method Entries() returns (order: seq<Uid>)
      ensures Orders(order, busy)
    {
      order := [];
      var left := busy;
      while left != {}
        invariant left <= busy && forall uid :: uid in order <==> uid in busy && uid !in left
        invariant forall i, j :: 0 <= i < j < |order| ==> order[i] != order[j]
        decreases left
      {
        var uid :| uid in left;
        order, left := order + [uid], left - {uid};
      }
    }

    method SweepNext(uid: Uid, seen: set<Uid>, calls: Calls, i: nat)
      requires phase.Sweeping? && phase.seen == seen && uid in phase.left
      modifies this
      ensures View() == Apply(ActedAll(old(View()), calls.others(i)), Sweep(uid))
      ensures phase == Sweeping(seen, old(phase).left - {uid})
    {
      Others(calls.others(i));
      SweepOne(uid, seen);
    }

    /** Those that are gone are forgotten. */
    method SweepAll(seen: set<Uid>, order: seq<Uid>, calls: Calls, visited: nat)
      requires phase == Sweeping(seen, busy) && Orders(order, busy)
      modifies this
      ensures View() == SweepFrom(old(View()), order, calls, visited)
    {
      ghost var start := View();
      var (rest, i) := (order, visited);
      while rest != []
        invariant phase.Sweeping? && phase.seen == seen && Orders(rest, phase.left)
        invariant SweepFrom(View(), rest, calls, i) == SweepFrom(start, order, calls, visited)
        decreases |rest|
      {
        OrdersRest(rest, phase.left);
        SweepFromNext(View(), rest, calls, i);
        SweepNext(rest[0], seen, calls, i);
        rest, i := rest[1..], i + 1;
      }
    }

    /** One tick: list the pods, send to those waiting, forget those that are gone. A listing that
        fails leaves everything as it is. */
    method SendWaitingLocalRepos(calls: Calls)
      requires phase.Idle?
      modifies this
      ensures !calls.lists ==> unchanged(this)
      ensures calls.lists ==> exists waiting, order ::
                IsTick(old(View()), waiting, order, calls) && View() == Tick(old(View()), waiting, order, calls)
    {
      if !calls.lists { return; }
      var seen, waiting := WaitingPods(calls);
      phase, listed := Visiting(seen, waiting), seen;
      VisitAll(seen, waiting, calls);
      var order := Entries();
      phase := Sweeping(seen, busy);
      SweepAll(seen, order, calls, |waiting|);
      TickEnds(old(View()), waiting, order, calls, View());
      phase := Idle;
    }
  }
}
