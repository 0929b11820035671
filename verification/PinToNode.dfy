/** Keeping a DevBox's run on the node its disk is attached to (pinToNode and buildDevboxRunJob in
    controllers/devbox_run.go). The affinity is a chain of objects the run shares with nothing: the
    run is built from a deep copy, and only the copy is pinned. */
module PinToNode {
  import opened Common

  datatype Requirement = Requirement(key: string, operator: string, values: seq<string>)

  datatype Term = Term(expressions: seq<Requirement>, fields: seq<Requirement>)

  datatype Node = Node(name: string, labels: map<string, string>)

  const NameField := "metadata.name"

  function Pin(node: string): Requirement { Requirement(NameField, "In", [node]) }

  // ----- which nodes a pod may go to -----

  /** A requirement on a node's fields, of which the name is the only one. */
  predicate FieldHolds(r: Requirement, n: Node) {
    && r.key == NameField && |r.values| == 1
    && ((r.operator == "In" && n.name == r.values[0]) || (r.operator == "NotIn" && n.name != r.values[0]))
  }

  /** A term without requirements matches no node; reading says how one on labels is read. */
  ghost predicate TermMatches(reading: (Requirement, Node) -> bool, t: Term, n: Node) {
    && !(t.expressions == [] && t.fields == [])
    && (forall i :: 0 <= i < |t.expressions| ==> reading(t.expressions[i], n))
    && (forall i :: 0 <= i < |t.fields| ==> FieldHolds(t.fields[i], n))
  }

  ghost predicate SomeTermMatches(reading: (Requirement, Node) -> bool, terms: seq<Term>, n: Node) {
    exists i :: 0 <= i < |terms| && TermMatches(reading, terms[i], n)
  }

  /** Of a pod that requires terms, a node has to match one; a pod that requires none goes anywhere. */
  ghost predicate Accepts(reading: (Requirement, Node) -> bool, required: Option<seq<Term>>, n: Node) {
    required.Some? ==> SomeTermMatches(reading, required.value, n)
  }

  // ----- what pinning makes of the terms -----

  function PinTerm(t: Term, node: string): Term { t.(fields := t.fields + [Pin(node)]) }

  function PinTerms(terms: seq<Term>, node: string): seq<Term> {
    if terms == [] then []
    else PinTerms(terms[..|terms| - 1], node) + [PinTerm(terms[|terms| - 1], node)]
  }

  function Pinned(required: Option<seq<Term>>, node: string): seq<Term> {
    if required.None? || required.value == [] then [Term([], [Pin(node)])] else PinTerms(required.value, node)
  }

  lemma {:induction false} PinTermsAt(terms: seq<Term>, node: string)
    ensures |PinTerms(terms, node)| == |terms|
    ensures forall i :: 0 <= i < |terms| ==> PinTerms(terms, node)[i] == PinTerm(terms[i], node)
    decreases |terms|
  {
    if terms != [] { PinTermsAt(terms[..|terms| - 1], node); }
  }

  predicate IsEmpty(t: Term) { t.expressions == [] && t.fields == [] }

  lemma PinTermMatches(reading: (Requirement, Node) -> bool, t: Term, node: string, n: Node)
    ensures TermMatches(reading, PinTerm(t, node), n) <==> n.name == node && (IsEmpty(t) || TermMatches(reading, t, n))
  {
    var p := PinTerm(t, node);
    assert p.fields[|t.fields|] == Pin(node);
    assert forall i :: 0 <= i < |t.fields| ==> p.fields[i] == t.fields[i];
  }

  predicate HasEmpty(terms: seq<Term>) { exists i :: 0 <= i < |terms| && IsEmpty(terms[i]) }

  /** A pinned pod goes to the pinned node alone, and to it when it did before, required nothing, or
      had a term with no requirements, which matched nothing until the pin was put in it. */
  lemma PinnedAccepts(reading: (Requirement, Node) -> bool, required: Option<seq<Term>>, node: string, n: Node)
    ensures Accepts(reading, Some(Pinned(required, node)), n) <==>
              n.name == node && (Accepts(reading, required, n) || required.value == [] || HasEmpty(required.value))
  {
    if required.None? || required.value == [] {
      var only := Term([], [Pin(node)]);
      assert Pinned(required, node)[0] == only;
      assert TermMatches(reading, only, n) <==> FieldHolds(Pin(node), n) by { assert only.fields[0] == Pin(node); }
    } else {
      var (terms, pinned) := (required.value, PinTerms(required.value, node));
      PinTermsAt(terms, node);
      forall i | 0 <= i < |terms|
        ensures TermMatches(reading, pinned[i], n) <==>
              n.name == node && (IsEmpty(terms[i]) || TermMatches(reading, terms[i], n))
      {
        PinTermMatches(reading, terms[i], node, n);
      }
      if i :| 0 <= i < |terms| && (IsEmpty(terms[i]) || TermMatches(reading, terms[i], n)) && n.name == node {
        assert TermMatches(reading, pinned[i], n);
      }
    }
  }

  /** Whatever requires no terms at all, or only terms that each require something. */
  predicate Meaningful(required: Option<seq<Term>>) {
    required.Some? ==> required.value != [] && !HasEmpty(required.value)
  }

  /** Pinning leaves of the nodes accepted before just the pinned one, exactly when the terms were
      meaningful or the node was accepted anyway. */
  lemma PinIntersectsIff(reading: (Requirement, Node) -> bool, required: Option<seq<Term>>, node: string, n: Node)
    ensures (Accepts(reading, Some(Pinned(required, node)), n) <==>
               Accepts(reading, required, n) && n.name == node) <==>
              Meaningful(required) || n.name != node || Accepts(reading, required, n)
  {
    PinnedAccepts(reading, required, node, n);
  }

  /** An empty term accepted no node; pinned, it accepts one. */
  lemma EmptyTermLetsNodeIn(reading: (Requirement, Node) -> bool, n: Node)
    ensures !Accepts(reading, Some([Term([], [])]), n)
    ensures Accepts(reading, Some(Pinned(Some([Term([], [])]), n.name)), n)
  {
    PinnedAccepts(reading, Some([Term([], [])]), n.name, n);
  }

  lemma PinnedTwice(reading: (Requirement, Node) -> bool, required: Option<seq<Term>>, node: string, n: Node)
    ensures Accepts(reading, Some(Pinned(Some(Pinned(required, node)), node)), n) <==>
          Accepts(reading, Some(Pinned(required, node)), n)
  {
    PinTermsAt(if required.Some? then required.value else [], node);
    assert Meaningful(Some(Pinned(required, node)));
    PinIntersectsIff(reading, Some(Pinned(required, node)), node, n);
    PinnedAccepts(reading, required, node, n);
  }

  // ----- the objects -----

  class NodeSelector {
    var terms: seq<Term>

    constructor (terms: seq<Term>)
      ensures this.terms == terms
    {
      this.terms := terms;
    }
  }

  class NodeAffinity {
    var required: NodeSelector?
    var preferred: seq<Term>

    constructor (required: NodeSelector?, preferred: seq<Term>)
      ensures this.required == required && this.preferred == preferred
    {
      this.required, this.preferred := required, preferred;
    }
  }

  /** podTerms stands for what the affinity says about other pods. */
  class Affinity {
    var node: NodeAffinity?
    var podTerms: seq<string>

    constructor (node: NodeAffinity?, podTerms: seq<string>)
      ensures this.node == node && this.podTerms == podTerms
    {
      this.node, this.podTerms := node, podTerms;
    }
  }

  datatype Volume = Volume(name: string, claim: Option<string>)

  datatype Mount = Mount(volume: string, path: string)

  datatype EnvVar = EnvVar(name: string, value: string)

  /** taken stands for what a run takes over as it is: pull policy, sources of variables, security context. */
  datatype Container = Container(
    name: string, image: string, command: seq<string>, workingDir: string,
    env: seq<EnvVar>, mounts: seq<Mount>, resources: map<string, string>, taken: seq<string>)

  /** The editor's container comes first. taken stands for tolerations, pull secrets, security context
      and service account, which a run takes over as they are. */
  class PodSpec {
    var affinity: Affinity?
    var nodeSelector: map<string, string>
    var volumes: seq<Volume>
    var containers: seq<Container>
    var runtimeClass: string
    var taken: seq<string>

    constructor (affinity: Affinity?, nodeSelector: map<string, string>, volumes: seq<Volume>,
                 containers: seq<Container>, runtimeClass: string, taken: seq<string>)
      ensures this.affinity == affinity && this.nodeSelector == nodeSelector && this.volumes == volumes
      ensures this.containers == containers && this.runtimeClass == runtimeClass && this.taken == taken
    {
      this.affinity, this.nodeSelector, this.volumes := affinity, nodeSelector, volumes;
      this.containers, this.runtimeClass, this.taken := containers, runtimeClass, taken;
    }

    /** Everything but the affinity. */
    function Rest(): PodRest
      reads this
    {
      PodRest(nodeSelector, volumes, containers, runtimeClass, taken)
    }

    /** The pod and the objects its affinity is made of. */
    ghost function Objects(): set<object>
      reads this, affinity, if affinity == null then null else affinity.node
    {
      {this}
      + (if affinity == null then {} else {affinity})
      + (if affinity == null || affinity.node == null then {} else {affinity.node})
      + (if affinity == null || affinity.node == null || affinity.node.required == null then {}
         else {affinity.node.required})
    }

    /** Everything the affinity says, in one value. */
    ghost function Says(): Saying
      reads this, affinity, if affinity == null then null else affinity.node,
            if affinity == null || affinity.node == null then null else affinity.node.required
    {
      if affinity == null then Nothing
      else if affinity.node == null then OnPods(affinity.podTerms)
      else OnNodes(if affinity.node.required == null then None else Some(affinity.node.required.terms),
                   affinity.node.preferred, affinity.podTerms)
    }
  }

  datatype PodRest = PodRest(
    nodeSelector: map<string, string>, volumes: seq<Volume>, containers: seq<Container>,
    runtimeClass: string, taken: seq<string>)

  datatype Saying = Nothing | OnPods(podTerms: seq<string>) | OnNodes(required: Option<seq<Term>>, preferred: seq<Term>,
                                                                      podTerms: seq<string>)

  function Required(s: Saying): Option<seq<Term>> { if s.OnNodes? then s.required else None }

  /** What the affinity says once pinned: the rest of it is kept. */
  function PinSaying(s: Saying, node: string): Saying {
    OnNodes(Some(Pinned(Required(s), node)), if s.OnNodes? then s.preferred else [],
            if s.Nothing? then [] else s.podTerms)
  }

  /** pinToNode, of a pod whose affinity is its own to change. */
  method PinPod(spec: PodSpec, node: string)
    modifies spec.Objects()
    ensures spec.Says() == PinSaying(old(spec.Says()), node) && fresh(spec.Objects() - old(spec.Objects()))
    ensures spec.Rest() == old(spec.Rest())
  {
    if spec.affinity == null { spec.affinity := new Affinity(null, []); }
    if spec.affinity.node == null { spec.affinity.node := new NodeAffinity(null, []); }
    var affinity := spec.affinity;
    var nodeAffinity := affinity.node;
    var required := nodeAffinity.required;
    if required == null || required.terms == [] {
      nodeAffinity.required := new NodeSelector([Term([], [Pin(node)])]);
      return;
    }
    ghost var terms := required.terms;
    PinTermsAt(terms, node);
    for i := 0 to |required.terms|
      modifies required
      invariant |required.terms| == |terms|
      invariant forall k :: 0 <= k < i ==> required.terms[k] == PinTerm(terms[k], node)
      invariant forall k :: i <= k < |terms| ==> required.terms[k] == terms[k]
    {
      required.terms := required.terms[i := PinTerm(required.terms[i], node)];
    }
    assert required.terms == PinTerms(terms, node);
  }

  // ----- the run's pod -----

  const SshVolume := "casos-ssh"
  const ToolsVolume := "casos-tools"

  predicate EditorOnly(name: string) { name == SshVolume || name == ToolsVolume }

  function RunMounts(mounts: seq<Mount>): seq<Mount> {
    if mounts == [] then []
    else
      var last := mounts[|mounts| - 1];
      RunMounts(mounts[..|mounts| - 1]) + if EditorOnly(last.volume) then [] else [last]
  }

  function RunVolumes(volumes: seq<Volume>): seq<Volume> {
    if volumes == [] then []
    else
      var last := volumes[|volumes| - 1];
      RunVolumes(volumes[..|volumes| - 1]) + if EditorOnly(last.name) then [] else [last]
  }

  predicate HasDisk(volumes: seq<Volume>) { exists i :: 0 <= i < |volumes| && volumes[i].claim.Some? }

  // ----- its container -----

  /** What is asked of a run: a command, whether it needs a GPU, and the limits of its container. */
  datatype RunRequest = RunRequest(command: string, gpu: bool, limits: map<string, string>)

  const Prelude := "export PATH=\"$HOME/.local/bin:$PATH\"; [ -f \"$HOME/.profile\" ] && . \"$HOME/.profile\"\n"

  predicate Dropped(name: string, gpu: bool) {
    || name == "PASSWORD" || name == "CASOS_SSH_PUBLIC_KEY"
    || (gpu && (name == "NVIDIA_VISIBLE_DEVICES" || name == "NVIDIA_DRIVER_CAPABILITIES"))
  }

  const GpuEnv: seq<EnvVar> :=
    [EnvVar("NVIDIA_VISIBLE_DEVICES", "all"), EnvVar("NVIDIA_DRIVER_CAPABILITIES", "compute,utility")]

  function KeptEnv(env: seq<EnvVar>, gpu: bool): seq<EnvVar> {
    if env == [] then []
    else
      KeptEnv(env[..|env| - 1], gpu) + if Dropped(env[|env| - 1].name, gpu) then [] else [env[|env| - 1]]
  }

  function RunEnv(env: seq<EnvVar>, gpu: bool): seq<EnvVar> { KeptEnv(env, gpu) + if gpu then GpuEnv else [] }

  lemma {:induction false} KeptEnvIs(env: seq<EnvVar>, gpu: bool, v: EnvVar)
    ensures v in KeptEnv(env, gpu) <==> v in env && !Dropped(v.name, gpu)
    decreases |env|
  {
    if env != [] {
      KeptEnvIs(env[..|env| - 1], gpu, v);
      assert env == env[..|env| - 1] + [env[|env| - 1]];
    }
  }

  /** A run sees the editor's variables but never its password or key; with a GPU it is told so, by
      those variables alone. */
  lemma RunEnvHides(env: seq<EnvVar>, gpu: bool, v: EnvVar)
    ensures v in RunEnv(env, gpu) <==> (v in env && !Dropped(v.name, gpu)) || (gpu && v in GpuEnv)
    ensures v in RunEnv(env, gpu) ==> v.name != "PASSWORD" && v.name != "CASOS_SSH_PUBLIC_KEY"
    ensures gpu && v in RunEnv(env, gpu) && v.name == "NVIDIA_VISIBLE_DEVICES" ==> v.value == "all"
  {
    KeptEnvIs(env, gpu, v);
    var (a, b) := (GpuEnv[0].name, GpuEnv[1].name);
    assert |a| == 22 && |b| == 26 && |"PASSWORD"| == 8 && |"CASOS_SSH_PUBLIC_KEY"| == 20;
  }

  method DevboxRunEnv(env: seq<EnvVar>, gpu: bool) returns (result: seq<EnvVar>)
    ensures result == RunEnv(env, gpu)
  {
    result := [];
    for i := 0 to |env|
      invariant result == KeptEnv(env[..i], gpu)
    {
      assert env[..i + 1][..i] == env[..i];
      if !Dropped(env[i].name, gpu) { result := result + [env[i]]; }
    }
    assert env[..|env|] == env;
    if gpu { result := result + GpuEnv; }
  }

  function RunContainer(editor: Container, folder: string, req: RunRequest, resources: map<string, string>): Container {
    editor.(name := "run", command := ["/bin/sh", "-c", Prelude + req.command], workingDir := folder,
            env := RunEnv(editor.env, req.gpu), mounts := RunMounts(editor.mounts), resources := resources)
  }

  /** How limits are put over a container's resources, if they are any. */
  type Limiter = (map<string, string>, map<string, string>) -> Option<map<string, string>>

  /** Why there may be no run. */
  predicate Runs(depl: PodRest, req: RunRequest, limiter: Limiter) {
    && depl.containers != [] && HasDisk(RunVolumes(depl.volumes))
    && limiter(depl.containers[0].resources, req.limits).Some?
  }

  /** What the run's pod says besides its affinity. */
  function RunRest(depl: PodRest, folder: string, req: RunRequest, limiter: Limiter): PodRest
    requires Runs(depl, req, limiter)
  {
    var resources := limiter(depl.containers[0].resources, req.limits).value;
    PodRest(depl.nodeSelector, RunVolumes(depl.volumes), [RunContainer(depl.containers[0], folder, req, resources)],
            if req.gpu then "nvidia" else "", depl.taken)
  }

  /** DeepCopy: the same pod, of new objects. */
  method DeepCopy(spec: PodSpec) returns (copy: PodSpec)
    ensures fresh(copy.Objects()) && copy.Says() == spec.Says() && copy.Rest() == spec.Rest()
  {
    var affinity: Affinity? := null;
    if spec.affinity != null {
      var node: NodeAffinity? := null;
      if spec.affinity.node != null {
        var required: NodeSelector? := null;
        if spec.affinity.node.required != null { required := new NodeSelector(spec.affinity.node.required.terms); }
        node := new NodeAffinity(required, spec.affinity.node.preferred);
      }
      affinity := new Affinity(node, spec.affinity.podTerms);
    }
    copy := new PodSpec(affinity, spec.nodeSelector, spec.volumes, spec.containers, spec.runtimeClass, spec.taken);
  }

  /** buildDevboxRunJob, as far as the pod goes. No object that was there is changed, the DevBox's
      own template among them: the contract has no modifies clause. */
  method BuildRun(depl: PodSpec, folder: string, req: RunRequest, limiter: Limiter, node: string)
      returns (run: PodSpec?)
    ensures run != null <==> Runs(depl.Rest(), req, limiter)
    ensures run != null ==> fresh(run.Objects()) && run.Rest() == RunRest(old(depl.Rest()), folder, req, limiter)
    ensures run != null ==> run.Says() == if node == "" then old(depl.Says()) else PinSaying(old(depl.Says()), node)
  {
    run := BuildUnpinned(depl, folder, req, limiter);
    if run != null && node != "" {
      ghost var objects := run.Objects();
      PinPod(run, node);
      assert run.Objects() <= objects + (run.Objects() - objects);
    }
  }

  method BuildUnpinned(depl: PodSpec, folder: string, req: RunRequest, limiter: Limiter) returns (run: PodSpec?)
    ensures run != null <==> Runs(depl.Rest(), req, limiter)
    ensures run != null ==> fresh(run.Objects()) && run.Rest() == RunRest(depl.Rest(), folder, req, limiter)
    ensures run != null ==> run.Says() == depl.Says()
  {
    var source := DeepCopy(depl);
    if source.containers == [] { return null; }
    var editor := source.containers[0];
    var mounts := KeepMounts(editor.mounts);
    var volumes, hasDisk := KeepVolumes(source.volumes);
    if !hasDisk { return null; }
    var env := DevboxRunEnv(editor.env, req.gpu);
    var resources := limiter(editor.resources, req.limits);
    if resources.None? { return null; }
    var container := editor.(name := "run", command := ["/bin/sh", "-c", Prelude + req.command], workingDir := folder,
                             env := env, mounts := mounts, resources := resources.value);
    run := TakeOver(source, volumes, container, if req.gpu then "nvidia" else "");
  }

  /** The run's own pod, with the affinity object of the copy. */
  method TakeOver(source: PodSpec, volumes: seq<Volume>, container: Container, runtimeClass: string)
      returns (run: PodSpec)
    ensures fresh(run) && run.Objects() <= {run} + source.Objects() && run.Says() == source.Says()
    ensures run.Rest() == PodRest(source.nodeSelector, volumes, [container], runtimeClass, source.taken)
  {
    run := new PodSpec(source.affinity, source.nodeSelector, volumes, [container], runtimeClass, source.taken);
  }

  method KeepMounts(mounts: seq<Mount>) returns (kept: seq<Mount>)
    ensures kept == RunMounts(mounts)
  {
    kept := [];
    for i := 0 to |mounts|
      invariant kept == RunMounts(mounts[..i])
    {
      assert mounts[..i + 1][..i] == mounts[..i];
      if !EditorOnly(mounts[i].volume) { kept := kept + [mounts[i]]; }
    }
    assert mounts[..|mounts|] == mounts;
  }

  method KeepVolumes(volumes: seq<Volume>) returns (kept: seq<Volume>, hasDisk: bool)
    ensures kept == RunVolumes(volumes) && hasDisk == HasDisk(kept)
  {
    kept, hasDisk := [], false;
    for i := 0 to |volumes|
      invariant kept == RunVolumes(volumes[..i]) && hasDisk == HasDisk(kept)
    {
      assert volumes[..i + 1][..i] == volumes[..i];
      if EditorOnly(volumes[i].name) { continue; }
      hasDisk := hasDisk || volumes[i].claim.Some?;
      ghost var before := kept;
      kept := kept + [volumes[i]];
      assert kept[|before|] == volumes[i];
      assert forall k :: 0 <= k < |before| ==> kept[k] == before[k];
    }
    assert volumes[..|volumes|] == volumes;
  }

  lemma {:induction false} RunVolumesAre(volumes: seq<Volume>, v: Volume)
    ensures v in RunVolumes(volumes) <==> v in volumes && !EditorOnly(v.name)
    decreases |volumes|
  {
    if volumes != [] {
      RunVolumesAre(volumes[..|volumes| - 1], v);
      assert volumes == volumes[..|volumes| - 1] + [volumes[|volumes| - 1]];
    }
  }

  lemma {:induction false} RunMountsAre(mounts: seq<Mount>, m: Mount)
    ensures m in RunMounts(mounts) <==> m in mounts && !EditorOnly(m.volume)
    decreases |mounts|
  {
    if mounts != [] {
      RunMountsAre(mounts[..|mounts| - 1], m);
      assert mounts == mounts[..|mounts| - 1] + [mounts[|mounts| - 1]];
    }
  }

  predicate Resolves(mounts: seq<Mount>, volumes: seq<Volume>) {
    forall m :: m in mounts ==> exists v :: v in volumes && v.name == m.volume
  }

  /** A run mounts only volumes it has, when the DevBox does. */
  lemma RunMountsResolve(mounts: seq<Mount>, volumes: seq<Volume>)
    requires Resolves(mounts, volumes)
    ensures Resolves(RunMounts(mounts), RunVolumes(volumes))
  {
    forall m | m in RunMounts(mounts) ensures exists v :: v in RunVolumes(volumes) && v.name == m.volume {
      RunMountsAre(mounts, m);
      var v :| v in volumes && v.name == m.volume;
      RunVolumesAre(volumes, v);
    }
  }

  // ----- the run's pod, written out -----

  predicate IsTool(volume: string) { volume in {"casos-ssh", "casos-tools"} }

  predicate IsHidden(variable: string, gpu: bool) {
    || variable in {"PASSWORD", "CASOS_SSH_PUBLIC_KEY"}
    || (gpu && variable in {"NVIDIA_VISIBLE_DEVICES", "NVIDIA_DRIVER_CAPABILITIES"})
  }

  function InProfile(command: string): string {
    "export PATH=\"$HOME/.local/bin:$PATH\"; [ -f \"$HOME/.profile\" ] && . \"$HOME/.profile\"\n" + command
  }

  function GpuVariables(gpu: bool): seq<EnvVar> {
    if gpu then [EnvVar("NVIDIA_VISIBLE_DEVICES", "all"), EnvVar("NVIDIA_DRIVER_CAPABILITIES", "compute,utility")]
    else []
  }

  lemma {:induction false} MountsFilter(mounts: seq<Mount>, keep: Mount -> bool)
    requires forall m :: keep(m) <==> !IsTool(m.volume)
    ensures RunMounts(mounts) == Filter(mounts, keep)
    decreases |mounts|
  {
    if mounts != [] { MountsFilter(mounts[..|mounts| - 1], keep); }
  }

  lemma {:induction false} VolumesFilter(volumes: seq<Volume>, keep: Volume -> bool)
    requires forall v :: keep(v) <==> !IsTool(v.name)
    ensures RunVolumes(volumes) == Filter(volumes, keep)
    decreases |volumes|
  {
    if volumes != [] { VolumesFilter(volumes[..|volumes| - 1], keep); }
  }

  lemma {:induction false} EnvFilters(env: seq<EnvVar>, gpu: bool, keep: EnvVar -> bool)
    requires forall v :: keep(v) <==> !IsHidden(v.name, gpu)
    ensures KeptEnv(env, gpu) == Filter(env, keep)
    decreases |env|
  {
    if env != [] { EnvFilters(env[..|env| - 1], gpu, keep); }
  }

  /** There is a run when there is a container, a disk that is not one of the tools', and the limits are good. */
  lemma RunsIff(depl: PodRest, req: RunRequest, limiter: Limiter)
    ensures Runs(depl, req, limiter) <==>
              && depl.containers != [] && limiter(depl.containers[0].resources, req.limits).Some?
              && exists v :: v in depl.volumes && v.claim.Some? && !IsTool(v.name)
  {
    var kept := RunVolumes(depl.volumes);
    if HasDisk(kept) {
      var i :| 0 <= i < |kept| && kept[i].claim.Some?;
      RunVolumesAre(depl.volumes, kept[i]);
    }
    if v :| v in depl.volumes && v.claim.Some? && !IsTool(v.name) {
      RunVolumesAre(depl.volumes, v);
      var i :| 0 <= i < |kept| && kept[i] == v;
      assert HasDisk(kept);
    }
  }

  /** What a run's pod is: one container with the DevBox's image that runs the command in the folder,
      with the DevBox's other volumes, mounts and variables, and a GPU if it asked for one. */
  lemma RunIs(depl: PodRest, folder: string, req: RunRequest, limiter: Limiter, r: PodRest, hasMount: Mount -> bool,
              hasVolume: Volume -> bool, hasVariable: EnvVar -> bool)
    requires Runs(depl, req, limiter) && r == RunRest(depl, folder, req, limiter)
    requires forall m :: hasMount(m) <==> !IsTool(m.volume)
    requires forall v :: hasVolume(v) <==> !IsTool(v.name)
    requires forall v :: hasVariable(v) <==> !IsHidden(v.name, req.gpu)
    ensures r.nodeSelector == depl.nodeSelector && r.taken == depl.taken
    ensures r.runtimeClass == (if req.gpu then "nvidia" else "") && r.volumes == Filter(depl.volumes, hasVolume)
    ensures |r.containers| == 1
    ensures var (run, editor) := (r.containers[0], depl.containers[0]);
            && run.name == "run" && run.image == editor.image && run.taken == editor.taken && run.workingDir == folder
            && run.mounts == Filter(editor.mounts, hasMount)
            && Some(run.resources) == limiter(editor.resources, req.limits)
            && run.env == Filter(editor.env, hasVariable) + GpuVariables(req.gpu)
            && run.command == ["/bin/sh", "-c", InProfile(req.command)]
  {
    MountsFilter(depl.containers[0].mounts, hasMount);
    VolumesFilter(depl.volumes, hasVolume);
    EnvFilters(depl.containers[0].env, req.gpu, hasVariable);
  }

  /** What the affinity says: every term, or the only one, also names the node; the rest of it is kept. */
  lemma PinSays(s: Saying, node: string, i: nat)
    ensures var (now, pin) := (PinSaying(s, node), Requirement("metadata.name", "In", [node]));
            && now.OnNodes? && now.required.Some?
            && now.preferred == (if s.OnNodes? then s.preferred else [])
            && now.podTerms == (if s.Nothing? then [] else s.podTerms)
            && if !s.OnNodes? || s.required.None? || s.required.value == [] then now.required.value == [Term([], [pin])]
               else |now.required.value| == |s.required.value|
                    && (i < |s.required.value| ==>
                          now.required.value[i] ==
                            Term(s.required.value[i].expressions, s.required.value[i].fields + [pin]))
  {
    if s.OnNodes? && s.required.Some? { PinTermsAt(s.required.value, node); }
  }
}
