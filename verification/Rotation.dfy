// cmd/rotate_certs.go and the autoscaler part of cmd/rotatecerts/operations.go: the rotation
// protocol.  Every effect is recorded in a trace together with its outcome, which the
// environment chooses; nodes are visited in an arbitrary order.
module Rotation {

  const CONTROL_PLANE_VM_PREFIX := "k8s-master"

  datatype OS = Linux | Windows | Unknown
  datatype Host = Host(uri: string, os: OS) {
    predicate IsMaster() { CONTROL_PLANE_VM_PREFIX <= uri }
    predicate IsLinuxAgent() { os == Linux && !IsMaster() }
  }

  datatype Script = Backup | CpCerts | CpProxy | AgentCerts | Cleanup
  datatype Files = MasterFiles | LinuxFiles | WindowsFiles
  datatype Step = Copy(files: Files) | Bash(script: Script) | PowerShell(script: Script) | DeleteKubeProxyPods
  datatype Phase = Distribute | Scripts(script: Script)

  function PhaseOf(step: Step): Phase {
    match step
    case Copy(_) => Distribute
    case Bash(script) => Scripts(script)
    case PowerShell(script) => Scripts(script)
    case DeleteKubeProxyPods => Scripts(AgentCerts)
  }

  // What a phase does on one host, in order.
  function Steps(phase: Phase, h: Host): seq<Step> {
    match phase
    case Distribute =>
      if h.IsMaster() then [Copy(MasterFiles)]
      else if h.IsLinuxAgent() then [Copy(LinuxFiles)]
      else if h.os == Windows then [Copy(WindowsFiles)]
      else []
    case Scripts(AgentCerts) =>
      (if h.IsLinuxAgent() then [Bash(AgentCerts), DeleteKubeProxyPods] else [])
      + (if h.os == Windows then [PowerShell(AgentCerts)] else [])
    case Scripts(script) =>
      if script == CpCerts || script == CpProxy then
        (if h.IsMaster() then [Bash(script)] else [])
      else
        (if h.os == Linux then [Bash(script)] else []) + (if h.os == Windows then [PowerShell(script)] else [])
  }

  datatype Directory = BackupDirectory | OutputDirectory | ModelDirectory

  datatype Action =
    | Write(directory: Directory)
    | GenerateCerts
    | CollectFiles
    | RemoveOutput
    | Connect
    | Patch(replicas: int)
    | NodesReady(nodes: set<string>)
    | VMsRunning(nodes: set<string>)
    | ControlPlaneReady
    | KubeSystemReady
    | OnNode(node: string, step: Step)
    | Restart(node: string)
    | ListNodes
    | RotateTokens

  datatype Event = Event(action: Action, ok: bool) {
    // Only the last wait, for the kube-system pods, may fail without consequence.
    predicate Tolerable() { ok || action.KubeSystemReady? }
  }

  datatype Lookup = LookupError | NotFound | Found(replicas: int)
  datatype Listing = ListError | Listed(nodes: seq<Host>)

  // The command's flags, the cluster, and what its API server will answer.
  datatype Cluster = Cluster(masters: seq<string>, availabilitySet: bool, force: bool, autoscaler: Lookup, listing: Listing)
  {
    // GetMasterVMNameList gives every name the legacy prefix.
    predicate Valid() {
      forall m :: m in masters ==> CONTROL_PLANE_VM_PREFIX <= m
    }

    function MasterSet(): set<string> {
      set m | m in masters
    }

    function MasterNodes(): map<string, Host> {
      map m | m in masters :: Host(m, Linux)
    }

    predicate OsKnown() {
      listing.Listed? && forall i :: 0 <= i < |listing.nodes| ==> listing.nodes[i].os != Unknown
    }

    // The listed nodes whose names do not carry the prefix of control plane VMs, if the
    // operating system of every listed node is known.
    function AgentNodes(): map<string, Host> {
      if !OsKnown() then map[] else
        var byName := ByName(listing.nodes);
        map u | u in byName && !byName[u].IsMaster() :: byName[u]
    }

    function NodesOf(master: bool): map<string, Host> {
      if master then MasterNodes() else AgentNodes()
    }
  }

  function ByName(nodes: seq<Host>): (m: map<string, Host>)
    ensures forall u :: u in m ==> m[u].uri == u && m[u] in nodes
    ensures forall h :: h in nodes ==> h.uri in m
  {
    if nodes == [] then map[] else
      var last := nodes[|nodes| - 1];
      assert nodes == nodes[..|nodes| - 1] + [last];
      ByName(nodes[..|nodes| - 1])[last.uri := last]
  }

  function PhaseActions(phase: Phase, nodes: map<string, Host>): set<Action> {
    set u, s | u in nodes && s in Steps(phase, nodes[u]) :: OnNode(u, s)
  }

  // ---- The protocol ----

  const STAGES: nat := 24

  // The actions of stage k, all of which succeed before stage k + 1 may begin.
  function StageAt(c: Cluster, k: nat): set<Action> {
    match k
    case 0 => {Write(BackupDirectory)}
    case 1 => {Write(OutputDirectory)}
    case 2 => {Connect}
    case 3 => if c.force then {} else {NodesReady(c.MasterSet())}
    case 4 => if c.force then {} else {ControlPlaneReady}
    case 5 => PhaseActions(Distribute, c.MasterNodes())
    case 6 => PhaseActions(Scripts(Backup), c.MasterNodes())
    case 7 => PhaseActions(Scripts(CpCerts), c.MasterNodes())
    case 8 => if c.availabilitySet then set m | m in c.masters :: Restart(m) else {}
    case 9 => if c.availabilitySet then {VMsRunning(c.MasterSet())} else {}
    case 10 => {NodesReady(c.MasterSet())}
    case 11 => PhaseActions(Scripts(CpProxy), c.MasterNodes())
    case 12 => PhaseActions(Scripts(Cleanup), c.MasterNodes())
    case 13 => {NodesReady(c.MasterSet())}
    case 14 => {ControlPlaneReady}
    case 15 => {ListNodes}
    case 16 => PhaseActions(Distribute, c.AgentNodes())
    case 17 => PhaseActions(Scripts(Backup), c.AgentNodes())
    case 18 => PhaseActions(Scripts(AgentCerts), c.AgentNodes())
    case 19 => PhaseActions(Scripts(Cleanup), c.AgentNodes())
    case 20 => {NodesReady(c.AgentNodes().Keys)}
    case 21 => {RotateTokens}
    case 22 => {Write(ModelDirectory)}
    case 23 => {RemoveOutput}
    case _ => {}
  }

  function StageOf(phase: Phase, master: bool): nat {
    match phase
    case Distribute => if master then 5 else 16
    case Scripts(Backup) => if master then 6 else 17
    case Scripts(CpCerts) => 7
    case Scripts(CpProxy) => 11
    case Scripts(AgentCerts) => 18
    case Scripts(Cleanup) => if master then 12 else 19
  }

  // How many stages must be over before the action may be tried.
  function Needs(c: Cluster, a: Action): nat {
    match a
    case Write(BackupDirectory) => 0
    case GenerateCerts => 1
    case Write(OutputDirectory) => 1
    case Connect => 2
    case Patch(_) => 3
    case NodesReady(nodes) => if nodes == c.MasterSet() then 3 else 20
    case ControlPlaneReady => if c.force then 14 else 4
    case CollectFiles => 5
    case OnNode(u, step) => StageOf(PhaseOf(step), u in c.masters)
    case Restart(_) => 8
    case VMsRunning(_) => 9
    case ListNodes => 15
    case RotateTokens => 21
    case KubeSystemReady => 22
    case Write(ModelDirectory) => 22
    case RemoveOutput => 23
  }

  ghost predicate Within(actions: set<Action>, t: seq<Event>) {
    forall a :: a in actions ==> Event(a, true) in t
  }

  // The first k stages are over, one after the other.
  ghost predicate Reached(c: Cluster, t: seq<Event>, k: nat)
    decreases k
  {
    k == 0 || exists i: nat :: i <= |t| && Reached(c, t[..i], k - 1) && Within(StageAt(c, k - 1), t[i..])
  }

  // The step is one the phase has for this host, and the steps before it succeeded there.
  ghost predicate Belongs(c: Cluster, t: seq<Event>, u: string, step: Step) {
    var nodes := c.NodesOf(u in c.masters);
    u in nodes && InSteps(t, u, Steps(PhaseOf(step), nodes[u]), step)
  }

  ghost predicate InSteps(t: seq<Event>, u: string, steps: seq<Step>, step: Step) {
    exists k :: 0 <= k < |steps| && steps[k] == step && forall j :: 0 <= j < k ==> Event(OnNode(u, steps[j]), true) in t
  }

  // Only masters are restarted, and only in availability sets; no other nodes are waited for;
  // and the API model is written once the last wait is over, whatever its outcome.
  ghost predicate Fitting(c: Cluster, t: seq<Event>, a: Action) {
    && (a.Restart? ==> c.availabilitySet && a.node in c.masters)
    && (a.VMsRunning? ==> c.availabilitySet && a.nodes == c.MasterSet())
    && (a.NodesReady? ==> a.nodes in {c.MasterSet(), c.AgentNodes().Keys})
    && (a == Write(ModelDirectory) ==> exists e :: e in t && e.action == KubeSystemReady)
    && (a == Write(OutputDirectory) ==> Event(GenerateCerts, true) in t)
    && (a.OnNode? && a.step.Copy? ==> Event(CollectFiles, true) in t)
  }

  ghost predicate Allowed(c: Cluster, t: seq<Event>, a: Action) {
    Reached(c, t, Needs(c, a)) && Fitting(c, t, a) && (a.OnNode? ==> Belongs(c, t, a.node, a.step))
  }

  ghost predicate Safe(c: Cluster, t: seq<Event>) {
    forall i :: 0 <= i < |t| ==> Allowed(c, t[..i], t[i].action)
  }

  lemma {:induction false} ReachedLonger(c: Cluster, t: seq<Event>, u: seq<Event>, k: nat)
    requires Reached(c, t, k) && t <= u
    ensures Reached(c, u, k)
  {
    hide StageAt;
    if k > 0 {
      var i: nat :| i <= |t| && Reached(c, t[..i], k - 1) && Within(StageAt(c, k - 1), t[i..]);
      assert u[..i] == t[..i];
      forall a | a in StageAt(c, k - 1)
        ensures Event(a, true) in u[i..]
      {
        var j :| 0 <= j < |t[i..]| && t[i..][j] == Event(a, true);
        assert u[i..][j] == Event(a, true);
      }
    }
  }

  lemma ReachedNext(c: Cluster, t: seq<Event>, n: nat, k: nat)
    requires n <= |t| && Reached(c, t[..n], k) && Within(StageAt(c, k), t[n..])
    ensures Reached(c, t, k + 1)
  {
  }

  lemma {:induction false} ReachedFewer(c: Cluster, t: seq<Event>, k: nat, j: nat)
    requires Reached(c, t, k) && j <= k
    ensures Reached(c, t, j)
  {
    hide StageAt;
    if j < k {
      var i: nat :| i <= |t| && Reached(c, t[..i], k - 1) && Within(StageAt(c, k - 1), t[i..]);
      ReachedLonger(c, t[..i], t, k - 1);
      ReachedFewer(c, t, k - 1, j);
    }
  }

  lemma SafeAppend(c: Cluster, t: seq<Event>, e: Event)
    requires Safe(c, t) && Allowed(c, t, e.action)
    ensures Safe(c, t + [e])
  {
    var u := t + [e];
    forall i | 0 <= i < |u|
      ensures Allowed(c, u[..i], u[i].action)
    {
      assert u[..i] == t[..i];
      assert i == |t| ==> t[..i] == t;
    }
  }

  // ---- Failures and patches ----

  ghost predicate Clean(t: seq<Event>) {
    forall e :: e in t ==> e.Tolerable()
  }

  // Nothing follows the first failure.
  ghost predicate StopsAtFailure(t: seq<Event>) {
    forall i :: 0 <= i < |t| - 1 ==> t[i].Tolerable()
  }

  function Patches(t: seq<Event>): (p: seq<Event>)
    ensures |p| <= |t|
  {
    if t == [] then [] else
      var e := t[|t| - 1];
      Patches(t[..|t| - 1]) + (if e.action.Patch? then [e] else [])
  }

  ghost predicate Grows(t: seq<Event>, u: seq<Event>) {
    t <= u && Patches(u) == Patches(t)
  }

  // The part of a trace before the autoscaler is resumed.
  function BeforeResume(t: seq<Event>): seq<Event> {
    if |Patches(t)| == 2 then t[..|t| - 1] else t
  }

  // The patches of a run: none; a failed one; or one that pauses the autoscaler and, as the
  // very last event, one that restores its replica count.
  ghost predicate Resumed(c: Cluster, t: seq<Event>) {
    var paused := Patches(t);
    && (paused != [] ==> !c.force && c.autoscaler.Found? && c.autoscaler.replicas != 0)
    && (Event(Connect, true) in t && !c.force && c.autoscaler.Found? && c.autoscaler.replicas != 0 ==> paused != [])
    && (|paused| <= 1 ==> paused == [] || paused == [Event(Patch(0), false)])
    && (|paused| > 1 ==>
          && paused == [Event(Patch(0), true), t[|t| - 1]]
          && t[|t| - 1].action == Patch(c.autoscaler.replicas))
  }

  lemma PatchesAppend(t: seq<Event>, e: Event)
    ensures Patches(t + [e]) == Patches(t) + (if e.action.Patch? then [e] else [])
  {
    assert (t + [e])[..|t|] == t;
  }

  datatype Resume = Nop | ScaleBack(replicas: int)

  // A run that does not skip it pauses the autoscaler.
  predicate Scaled(c: Cluster) {
    c.autoscaler.Found? && c.autoscaler.replicas != 0
  }

  // What a run does before it looks at the autoscaler.
  predicate Opens(a: Action) {
    a in {Write(BackupDirectory), GenerateCerts, Write(OutputDirectory), Connect}
  }

  // Unless forced, or unless there is nothing to pause, a run pauses the autoscaler before
  // it does anything else in the cluster; it does nothing else if it cannot look it up.
  ghost predicate PausedFirst(c: Cluster, t: seq<Event>) {
    !c.force && !c.autoscaler.NotFound? && (c.autoscaler.Found? ==> c.autoscaler.replicas != 0) ==>
      forall i :: 0 <= i < |t| && !Opens(t[i].action) && t[i].action != Patch(0) ==> Event(Patch(0), true) in t[..i]
  }

  lemma OnlyOpened(c: Cluster, t: seq<Event>, ok: bool)
    requires forall e :: e in t ==> Opens(e.action)
    ensures PausedFirst(c, t) && PausedFirst(c, t + [Event(Patch(0), ok)])
  {
    var u := t + [Event(Patch(0), ok)];
    forall i | 0 <= i < |u|
      ensures Opens(u[i].action) || u[i].action == Patch(0)
    {
      if i < |t| {
        assert t[i] in t;
      }
    }
  }

  lemma PausedBefore(c: Cluster, t: seq<Event>, u: seq<Event>)
    requires (forall e :: e in t ==> Opens(e.action)) && t + [Event(Patch(0), true)] <= u
    ensures PausedFirst(c, u)
  {
    forall i | 0 <= i < |u| && !Opens(u[i].action) && u[i].action != Patch(0)
      ensures Event(Patch(0), true) in u[..i]
    {
      assert forall j :: 0 <= j < |t| ==> u[j] == (t + [Event(Patch(0), true)])[j] == t[j] && t[j] in t;
      assert u[|t|] == (t + [Event(Patch(0), true)])[|t|];
      assert u[..i][|t|] == u[|t|];
    }
  }

  lemma PatchAllowed(c: Cluster, t: seq<Event>, replicas: int)
    requires Reached(c, t, 3)
    ensures Allowed(c, t, Patch(replicas))
  {
  }

  lemma CleanStops(t: seq<Event>)
    requires Clean(t)
    ensures StopsAtFailure(t)
  {
  }

  lemma Start(c: Cluster)
    ensures Safe(c, []) && Clean([]) && Reached(c, [], 0) && Patches([]) == []
  {
  }

  lemma NotPaused(c: Cluster, t: seq<Event>)
    requires Patches(t) == [] && (c.force || !Scaled(c) || Event(Connect, true) !in t)
    ensures Resumed(c, t) && BeforeResume(t) == t
  {
  }

  lemma PauseFailed(c: Cluster, t: seq<Event>)
    requires Patches(t) == [Event(Patch(0), false)] && !c.force && Scaled(c)
    ensures Resumed(c, t) && BeforeResume(t) == t
  {
  }

  lemma ResumesLast(c: Cluster, t: seq<Event>, ok: bool)
    requires Patches(t) == [Event(Patch(0), true)] && !c.force && Scaled(c)
    ensures Resumed(c, t + [Event(Patch(c.autoscaler.replicas), ok)])
    ensures BeforeResume(t + [Event(Patch(c.autoscaler.replicas), ok)]) == t
  {
    PatchesAppend(t, Event(Patch(c.autoscaler.replicas), ok));
  }

  // ---- Steps on a node ----

  ghost predicate DoneOn(t: seq<Event>, u: string, steps: seq<Step>) {
    forall i :: 0 <= i < |steps| ==> Event(OnNode(u, steps[i]), true) in t
  }

  lemma DoneSuffix(t: seq<Event>, n: nat, m: nat, u: string, steps: seq<Step>)
    requires m <= n <= |t| && DoneOn(t[n..], u, steps)
    ensures DoneOn(t[m..], u, steps)
  {
    assert t[m..] == t[m..n] + t[n..];
  }

  lemma DoneLonger(t: seq<Event>, longer: seq<Event>, nodes: map<string, Host>, phase: Phase, done: set<string>)
    requires t <= longer && done <= nodes.Keys
    requires forall u :: u in done ==> DoneOn(t, u, Steps(phase, nodes[u]))
    ensures forall u :: u in done ==> DoneOn(longer, u, Steps(phase, nodes[u]))
  {
    assert forall e :: e in t ==> e in longer;
  }

  lemma PhaseDone(t: seq<Event>, phase: Phase, nodes: map<string, Host>)
    requires forall u :: u in nodes.Keys ==> DoneOn(t, u, Steps(phase, nodes[u]))
    ensures Within(PhaseActions(phase, nodes), t)
  {
    hide Steps;
    forall a | a in PhaseActions(phase, nodes)
      ensures Event(a, true) in t
    {
      var u, i :| u in nodes && 0 <= i < |Steps(phase, nodes[u])| && a == OnNode(u, Steps(phase, nodes[u])[i]);
      assert DoneOn(t, u, Steps(phase, nodes[u]));
    }
  }

  lemma StepOfPhase(phase: Phase, h: Host, i: nat)
    requires i < |Steps(phase, h)|
    ensures PhaseOf(Steps(phase, h)[i]) == phase
  {
  }

  lemma StepAllowed(c: Cluster, t: seq<Event>, phase: Phase, u: string, master: bool, i: nat, k: nat)
    requires c.Valid() && Reached(c, t, k) && StageOf(phase, master) == k
    requires u in c.NodesOf(master) && i < |Steps(phase, c.NodesOf(master)[u])|
    requires DoneOn(t[0..], u, Steps(phase, c.NodesOf(master)[u])[..i])
    requires phase.Distribute? ==> Event(CollectFiles, true) in t
    ensures Allowed(c, t, OnNode(u, Steps(phase, c.NodesOf(master)[u])[i]))
  {
    hide Reached, StageAt;
    var steps := Steps(phase, c.NodesOf(master)[u]);
    StepOfPhase(phase, c.NodesOf(master)[u], i);
    assert master <==> u in c.masters;
    assert t[0..] == t;
    forall j | 0 <= j < i
      ensures Event(OnNode(u, steps[j]), true) in t
    {
      assert steps[..i][j] == steps[j];
    }
    assert InSteps(t, u, steps, steps[i]);
  }

  lemma PlainAllowed(c: Cluster, t: seq<Event>, a: Action, k: nat)
    requires Reached(c, t, k) && Needs(c, a) <= k && !a.OnNode? && Fitting(c, t, a)
    ensures Allowed(c, t, a)
  {
    hide Reached, Needs;
    ReachedFewer(c, t, k, Needs(c, a));
  }

  lemma ListAllowed(c: Cluster, t: seq<Event>)
    requires Reached(c, t, 15)
    ensures Allowed(c, t, ListNodes)
  {
    hide Reached, StageAt;
  }

  lemma RestartAllowed(c: Cluster, t: seq<Event>, m: string)
    requires Reached(c, t, 8) && c.availabilitySet && m in c.masters
    ensures Allowed(c, t, Restart(m))
  {
    hide Reached, StageAt;
  }

  lemma Skip(c: Cluster, t: seq<Event>, k: nat)
    requires Reached(c, t, k) && StageAt(c, k) == {}
    ensures Reached(c, t, k + 1)
  {
    assert t[..|t|] == t;
    ReachedNext(c, t, |t|, k);
  }

  lemma NoneByName(list: seq<Host>)
    ensures ByName(list[..0]) == map[]
  {
  }

  lemma NextByName(list: seq<Host>, i: nat)
    requires i < |list|
    ensures ByName(list[..i + 1]) == ByName(list[..i])[list[i].uri := list[i]]
  {
    assert list[..i + 1][..i] == list[..i];
  }

  // The loops of getAgentNodes.
  method CollectNodes(list: seq<Host>) returns (ok: bool, nodes: map<string, Host>)
    ensures ok <==> forall i :: 0 <= i < |list| ==> list[i].os != Unknown
    ensures ok ==> nodes == ByName(list)
  {
    hide ByName;
    nodes := map[];
    NoneByName(list);
    for i := 0 to |list|
      invariant forall j :: 0 <= j < i ==> list[j].os != Unknown
      invariant nodes == ByName(list[..i])
    {
      if list[i].os == Unknown {
        return false, map[];
      }
      NextByName(list, i);
      nodes := nodes[list[i].uri := list[i]];
    }
    assert list[..|list|] == list;
    ok := true;
  }

  method DeleteMasters(nodes: map<string, Host>) returns (agents: map<string, Host>)
    ensures agents == map u | u in nodes && !nodes[u].IsMaster() :: nodes[u]
  {
    agents := nodes;
    var todo := nodes.Keys;
    while todo != {}
      invariant todo <= nodes.Keys
      invariant agents == map u | u in nodes && (u in todo || !nodes[u].IsMaster()) :: nodes[u]
      decreases |todo|
    {
      var u :| u in todo;
      todo := todo - {u};
      if nodes[u].IsMaster() {
        agents := agents - {u};
      }
    }
  }

  class RotateCertsCmd {
    const c: Cluster
    var nodes: map<string, Host>
    var trace: seq<Event>

    constructor (c: Cluster)
      ensures this.c == c && nodes == map[] && trace == []
    {
      this.c, nodes, trace := c, map[], [];
    }

    ghost predicate At(k: nat)
      reads this
    {
      c.Valid() && Safe(c, trace) && Clean(trace) && Reached(c, trace, k)
    }

    // What a part of the command leaves: on success stage k, otherwise a trace that ends
    // at the first failure, or a listing in which an operating system is unknown.
    ghost predicate Left(ok: bool, k: nat)
      reads this
    {
      c.Valid() && Safe(c, trace) && if ok then At(k) else StopsAtFailure(trace) && (!Clean(trace) || !c.OsKnown())
    }

    method Record(a: Action, ok: bool)
      requires c.Valid() && Safe(c, trace) && Allowed(c, trace, a)
      modifies `trace
      ensures trace == old(trace) + [Event(a, ok)] && Safe(c, trace)
      ensures old(Clean(trace)) ==> StopsAtFailure(trace) && (Event(a, ok).Tolerable() <==> Clean(trace))
      ensures Patches(trace) == Patches(old(trace)) + (if a.Patch? then [Event(a, ok)] else [])
    {
      SafeAppend(c, trace, Event(a, ok));
      PatchesAppend(trace, Event(a, ok));
      trace := trace + [Event(a, ok)];
    }

    // One effect, whose outcome the environment chooses.
    method Try(a: Action) returns (ok: bool)
      requires c.Valid() && Safe(c, trace) && Allowed(c, trace, a)
      modifies `trace
      ensures trace == old(trace) + [Event(a, ok)] && Safe(c, trace)
      ensures old(Clean(trace)) ==> StopsAtFailure(trace) && (Event(a, ok).Tolerable() <==> Clean(trace))
      ensures Patches(trace) == Patches(old(trace)) + (if a.Patch? then [Event(a, ok)] else [])
    {
      ok := *;
      Record(a, ok);
    }

    // A stage that is one action.
    method Single(a: Action, ghost k: nat) returns (ok: bool)
      requires At(k) && Needs(c, a) <= k && !a.OnNode? && !a.Patch? && !a.KubeSystemReady? && Fitting(c, trace, a)
      requires StageAt(c, k) <= {a}
      modifies `trace
      ensures trace == old(trace) + [Event(a, ok)] && (ok <==> Clean(trace))
      ensures Left(ok, k + 1) && Grows(old(trace), trace)
    {
      hide Reached, Safe, Allowed, StageAt, Needs, Patches;
      PlainAllowed(c, trace, a, k);
      ok := Try(a);
      ghost var n := |old(trace)|;
      if ok {
        assert trace[..n] == old(trace) && trace[n..] == [Event(a, true)];
        ReachedNext(c, trace, n, k);
      }
    }

    // An effect inside stage k that is no part of the stages.
    method TryLocal(a: Action, ghost k: nat) returns (ok: bool)
      requires At(k) && Needs(c, a) <= k && (a == GenerateCerts || a == CollectFiles)
      modifies `trace
      ensures trace == old(trace) + [Event(a, ok)] && (ok <==> Clean(trace))
      ensures Left(ok, k) && Grows(old(trace), trace)
    {
      hide Reached, Safe, Allowed, StageAt, Needs, Patches;
      PlainAllowed(c, trace, a, k);
      ok := Try(a);
      if ok {
        ReachedLonger(c, old(trace), trace, k);
      }
    }

    // A loop over the nodes that runs the steps of a phase on each of them.
    method ExecOnNodes(phase: Phase, ghost k: nat, ghost master: bool) returns (ok: bool)
      requires At(k) && nodes == c.NodesOf(master) && StageOf(phase, master) == k
      requires StageAt(c, k) == PhaseActions(phase, nodes) && (phase.Distribute? ==> Event(CollectFiles, true) in trace)
      modifies `trace
      ensures Left(ok, k + 1) && Grows(old(trace), trace)
    {
      hide Needs, Reached, Safe, Allowed, StageOf, Patches, Steps, StageAt, PhaseActions, Within, DoneOn, StopsAtFailure, Clean;
      ghost var n := |trace|;
      var todo := nodes.Keys;
      while todo != {}
        invariant todo <= nodes.Keys
        invariant At(k) && Grows(old(trace), trace)
        invariant phase.Distribute? ==> Event(CollectFiles, true) in trace
        invariant forall u :: u in nodes.Keys - todo ==> DoneOn(trace[n..], u, Steps(phase, nodes[u]))
        decreases |todo|
      {
        var u :| u in todo;
        ghost var before := trace;
        ok := ExecStepsSequence(phase, u, k, master);
        if !ok {
          return false;
        }
        DoneLonger(before[n..], trace[n..], nodes, phase, nodes.Keys - todo);
        DoneSuffix(trace, |before|, n, u, Steps(phase, nodes[u]));
        todo := todo - {u};
      }
      ok := true;
      assert trace[..n] == old(trace);
      PhaseDone(trace[n..], phase, nodes);
      ReachedNext(c, trace, n, k);
    }

    method ExecStepsSequence(phase: Phase, u: string, ghost k: nat, ghost master: bool) returns (ok: bool)
      requires At(k) && nodes == c.NodesOf(master) && u in nodes && StageOf(phase, master) == k
      requires phase.Distribute? ==> Event(CollectFiles, true) in trace
      modifies `trace
      ensures Left(ok, k) && Grows(old(trace), trace)
      ensures phase.Distribute? ==> Event(CollectFiles, true) in trace
      ensures ok ==> DoneOn(trace[|old(trace)|..], u, Steps(phase, nodes[u]))
    {
      hide Steps, StageAt, Needs, Reached, Safe, Allowed, StageOf, Patches;
      ghost var n := |trace|;
      var steps := Steps(phase, nodes[u]);
      for i := 0 to |steps|
        invariant At(k) && Grows(old(trace), trace)
        invariant DoneOn(trace[n..], u, steps[..i])
      {
        DoneSuffix(trace, n, 0, u, steps[..i]);
        StepAllowed(c, trace, phase, u, master, i, k);
        ghost var before := trace;
        ok := Try(OnNode(u, steps[i]));
        if !ok {
          return false;
        }
        assert trace[n..] == before[n..] + [Event(OnNode(u, steps[i]), true)];
        assert steps[..i + 1] == steps[..i] + [steps[i]];
        ReachedLonger(c, before, trace, k);
      }
      ok := true;
    }

    // getControlPlaneNodes and the assignment of its result.
    method GetControlPlaneNodes()
      modifies `nodes
      ensures nodes == c.MasterNodes()
    {
      nodes := map[];
      for i := 0 to |c.masters|
        invariant nodes == map m | m in c.masters[..i] :: Host(m, Linux)
      {
        nodes := nodes[c.masters[i] := Host(c.masters[i], Linux)];
      }
    }

    // getAgentNodes; on failure the assignment leaves no nodes.
    method GetAgentNodes() returns (ok: bool)
      requires At(15)
      modifies this
      ensures Left(ok, 16) && Grows(old(trace), trace)
      ensures ok <==> c.OsKnown()
      ensures nodes == if ok then c.AgentNodes() else map[]
    {
      hide Reached, Safe, Patches, ByName, PhaseActions;
      nodes := map[];
      ghost var n := |trace|;
      ListAllowed(c, trace);
      Record(ListNodes, c.listing.Listed?);
      if c.listing.ListError? {
        return false;
      }
      assert trace[..n] == old(trace) && trace[n..] == [Event(ListNodes, true)];
      ReachedNext(c, trace, n, 15);
      var found;
      ok, found := CollectNodes(c.listing.nodes);
      if ok {
        nodes := DeleteMasters(found);
      }
    }

    // ---- The phases ----

    method DistributeCerts(ghost k: nat, ghost master: bool) returns (ok: bool)
      requires At(k) && nodes == c.NodesOf(master) && StageOf(Distribute, master) == k
      modifies `trace
      ensures Left(ok, k + 1) && Grows(old(trace), trace)
    {
      hide Reached, Safe, Allowed, Patches, StopsAtFailure, Clean;
      ok := TryLocal(CollectFiles, k);
      if !ok { return false; }
      ok := ExecOnNodes(Distribute, k, master);
    }

    method BackupRemote(ghost k: nat, ghost master: bool) returns (ok: bool)
      requires At(k) && nodes == c.NodesOf(master) && StageOf(Scripts(Backup), master) == k
      modifies `trace
      ensures Left(ok, k + 1) && Grows(old(trace), trace)
    {
      hide Reached, Safe, Allowed, Patches, StopsAtFailure, Clean;
      ok := ExecOnNodes(Scripts(Backup), k, master);
    }

    method CleanupRemote(ghost k: nat, ghost master: bool) returns (ok: bool)
      requires At(k) && nodes == c.NodesOf(master) && StageOf(Scripts(Cleanup), master) == k
      modifies `trace
      ensures Left(ok, k + 1) && Grows(old(trace), trace)
    {
      hide Reached, Safe, Allowed, Patches, StopsAtFailure, Clean;
      ok := ExecOnNodes(Scripts(Cleanup), k, master);
    }

    method RebootNodes() returns (ok: bool)
      requires At(8)
      modifies `trace
      ensures Left(ok, 9) && Grows(old(trace), trace)
    {
      hide Reached, Safe, Allowed, Patches;
      ghost var n := |trace|;
      if c.availabilitySet {
        for i := 0 to |c.masters|
          invariant At(8) && Grows(old(trace), trace)
          invariant forall j :: 0 <= j < i ==> Event(Restart(c.masters[j]), true) in trace[n..]
        {
          RestartAllowed(c, trace, c.masters[i]);
          ghost var before := trace;
          ok := Try(Restart(c.masters[i]));
          if !ok {
            return false;
          }
          assert trace[n..] == before[n..] + [Event(Restart(c.masters[i]), true)];
          ReachedLonger(c, before, trace, 8);
        }
      }
      ok := true;
      assert trace[..n] == old(trace);
      ReachedNext(c, trace, n, 8);
    }

    method WaitForVMsRunning() returns (ok: bool)
      requires At(9) && nodes == c.MasterNodes()
      modifies `trace
      ensures Left(ok, 10) && Grows(old(trace), trace)
    {
      hide Reached, Safe, Allowed, Patches;
      ok := true;
      if c.availabilitySet {
        ok := Single(VMsRunning(nodes.Keys), 9);
      } else {
        Skip(c, trace, 9);
      }
    }

    method RotateMasters() returns (ok: bool)
      requires At(7) && nodes == c.MasterNodes()
      modifies `trace
      ensures Left(ok, 12) && Grows(old(trace), trace)
    {
      hide Reached, Safe, Allowed, Patches, StopsAtFailure, Clean;
      ok := ExecOnNodes(Scripts(CpCerts), 7, true);
      if !ok { return false; }
      ok := RebootNodes();
      if !ok { return false; }
      ok := WaitForVMsRunning();
      if !ok { return false; }
      ok := Single(NodesReady(nodes.Keys), 10);
      if !ok { return false; }
      ok := ExecOnNodes(Scripts(CpProxy), 11, true);
    }

    method RotateMasterCerts() returns (ok: bool)
      requires At(5)
      modifies this
      ensures Left(ok, 15) && Grows(old(trace), trace)
    {
      hide Reached, Safe, Allowed, Patches, StopsAtFailure, Clean;
      GetControlPlaneNodes();
      ok := DistributeCerts(5, true);
      if !ok { return false; }
      ok := BackupRemote(6, true);
      if !ok { return false; }
      ok := RotateMasters();
      if !ok { return false; }
      ok := CleanupRemote(12, true);
      if !ok { return false; }
      ok := Single(NodesReady(nodes.Keys), 13);
      if !ok { return false; }
      ok := Single(ControlPlaneReady, 14);
    }

    method RotateAgents() returns (ok: bool)
      requires At(18) && nodes == c.AgentNodes()
      modifies `trace
      ensures Left(ok, 19) && Grows(old(trace), trace)
    {
      hide Reached, Safe, Allowed, Patches, StopsAtFailure, Clean;
      ok := ExecOnNodes(Scripts(AgentCerts), 18, false);
    }

    method RotateAgentCerts() returns (ok: bool)
      requires At(15)
      modifies this
      ensures Left(ok, 22) && Grows(old(trace), trace)
      ensures ok ==> c.OsKnown() && exists e :: e in trace && e.action == KubeSystemReady
    {
      hide Reached, Safe, Allowed, Patches, StopsAtFailure, Clean;
      ok := GetAgentNodes();
      if !ok { return false; }
      ok := DistributeCerts(16, false);
      if !ok { return false; }
      ok := BackupRemote(17, false);
      if !ok { return false; }
      ok := RotateAgents();
      if !ok { return false; }
      ok := CleanupRemote(19, false);
      if !ok { return false; }
      ok := Single(NodesReady(nodes.Keys), 20);
      if !ok { return false; }
      ok := Single(RotateTokens, 21);
      if !ok { return false; }
      WaitForKubeSystemReadiness();
    }

    // Its error is only logged.
    method WaitForKubeSystemReadiness()
      requires At(22)
      modifies `trace
      ensures At(22) && Grows(old(trace), trace)
      ensures exists e :: e in trace && e.action == KubeSystemReady
    {
      hide Reached, Safe, Patches;
      var ok := Try(KubeSystemReady);
      assert Event(KubeSystemReady, ok) in trace;
      ReachedLonger(c, old(trace), trace, 22);
    }

    // ---- The command ----

    method UpdateAPIModel() returns (ok: bool)
      requires At(22) && exists e :: e in trace && e.action == KubeSystemReady
      modifies `trace
      ensures Left(ok, STAGES) && Grows(old(trace), trace)
    {
      hide Reached, Safe, Allowed, Patches, StopsAtFailure, Clean;
      ok := Single(Write(ModelDirectory), 22);
      if !ok { return false; }
      ok := Single(RemoveOutput, 23);
    }

    // What run does before it looks at the autoscaler.
    method Prepare() returns (ok: bool)
      requires At(0) && trace == []
      modifies `trace
      ensures Left(ok, 3) && Grows(old(trace), trace)
      ensures !ok ==> Event(Connect, true) !in trace && !Clean(trace)
      ensures forall e :: e in trace ==> Opens(e.action)
    {
      hide Reached, Safe, Allowed, Patches, StopsAtFailure, Clean;
      ok := Single(Write(BackupDirectory), 0);
      if !ok { return false; }
      ok := TryLocal(GenerateCerts, 1);
      if !ok { return false; }
      ok := Single(Write(OutputDirectory), 1);
      if !ok { return false; }
      ok := Single(Connect, 2);
    }

    method WaitUnlessForced() returns (ok: bool)
      requires At(3)
      modifies `trace
      ensures Left(ok, 5) && Grows(old(trace), trace)
    {
      hide Reached, Safe, Allowed, Patches, StopsAtFailure, Clean;
      if c.force {
        Skip(c, trace, 3);
        Skip(c, trace, 4);
        return true;
      }
      ok := Single(NodesReady(c.MasterSet()), 3);
      if !ok { return false; }
      ok := Single(ControlPlaneReady, 4);
    }

    method Rotate() returns (ok: bool)
      requires At(3)
      modifies this
      ensures Left(ok, STAGES) && Grows(old(trace), trace)
      ensures ok ==> c.OsKnown()
    {
      hide Reached, Safe, Allowed, Patches, StopsAtFailure, Clean;
      ok := WaitUnlessForced();
      if !ok { return false; }
      ok := RotateMasterCerts();
      if !ok { return false; }
      ok := RotateAgentCerts();
      if !ok { return false; }
      ok := UpdateAPIModel();
    }

    // PauseClusterAutoscaler; the second result is the replica count that its closure restores.
    method PauseClusterAutoscaler() returns (ok: bool, resume: Resume)
      requires At(3)
      modifies `trace
      ensures c.Valid() && Safe(c, trace) && (resume.ScaleBack? ==> ok)
      ensures if ok then At(3) else StopsAtFailure(trace) && (!Clean(trace) || c.autoscaler.LookupError?)
      ensures trace == old(trace) + (if Scaled(c) then [Event(Patch(0), ok)] else [])
      ensures Patches(trace) == Patches(old(trace)) + (if Scaled(c) then [Event(Patch(0), ok)] else [])
      ensures resume == if Scaled(c) && ok then ScaleBack(c.autoscaler.replicas) else Nop
      ensures !Scaled(c) ==> (ok <==> !c.autoscaler.LookupError?)
      ensures Reached(c, trace, 3)
    {
      hide Reached, Safe, Patches;
      CleanStops(trace);
      if c.autoscaler.LookupError? {
        return false, Nop;
      }
      if c.autoscaler.NotFound? || c.autoscaler.replicas == 0 {
        return true, Nop;
      }
      PatchAllowed(c, trace, 0);
      ok := Try(Patch(0));
      ReachedLonger(c, old(trace), trace, 3);
      resume := if ok then ScaleBack(c.autoscaler.replicas) else Nop;
    }

    // run.
    method Run() returns (ok: bool)
      requires c.Valid() && trace == []
      modifies this
      ensures Safe(c, trace) && StopsAtFailure(BeforeResume(trace)) && Resumed(c, trace) && PausedFirst(c, trace)
      ensures ok <==> Clean(BeforeResume(trace)) && c.OsKnown() && (c.force || !c.autoscaler.LookupError?)
      ensures ok ==> Reached(c, BeforeResume(trace), STAGES)
    {
      hide Reached, Safe, Allowed, Patches, StopsAtFailure, Clean, BeforeResume, Resumed, PausedFirst;
      Start(c);
      ok := Prepare();
      ghost var prepared := trace;
      OnlyOpened(c, prepared, false);
      if !ok {
        NotPaused(c, trace);
        return false;
      }
      if c.force {
        ok := Rotate();
        if ok { CleanStops(trace); }
        NotPaused(c, trace);
        NeverPaused(c, trace);
        return ok;
      }
      var resume;
      ok, resume := PauseClusterAutoscaler();
      ghost var paused := trace;
      if !ok {
        OnlyOpened(c, prepared, ok);
        if Scaled(c) { PauseFailed(c, trace); } else { NotPaused(c, trace); }
        assert !Scaled(c) ==> trace == prepared;
        return false;
      }
      ok := Rotate();
      if ok { CleanStops(trace); }
      if resume.Nop? {
        NotPaused(c, trace);
        NeverPaused(c, trace);
      } else {
        ReachedLonger(c, paused, trace, 3);
        PatchAllowed(c, trace, resume.replicas);
        ghost var rotated := trace;
        var r := Try(Patch(resume.replicas));
        ResumesLast(c, rotated, r);
        PausedBefore(c, prepared, trace);
      }
    }
  }

  lemma NeverPaused(c: Cluster, t: seq<Event>)
    requires c.force || !(c.autoscaler.LookupError? || Scaled(c))
    ensures PausedFirst(c, t)
  {
  }

  // ---- What a safe trace means ----

  // The actions succeeded in this order, all of them before position i.
  ghost predicate Earlier(t: seq<Event>, chain: seq<Action>, i: nat) {
    chain == [] ||
    exists j: nat ::
      j < i && j < |t| && t[j] == Event(chain[|chain| - 1], true) && Earlier(t, chain[..|chain| - 1], j)
  }

  lemma {:induction false} EarlierLonger(t: seq<Event>, u: seq<Event>, chain: seq<Action>, i: nat, j: nat)
    requires Earlier(t, chain, i) && t <= u && i <= j
    ensures Earlier(u, chain, j)
    decreases |chain|
  {
    if chain != [] {
      var n: nat :| n < i && n < |t| && t[n] == Event(chain[|chain| - 1], true) && Earlier(t, chain[..|chain| - 1], n);
      EarlierLonger(t, u, chain[..|chain| - 1], n, n);
      assert u[n] == t[n];
    }
  }

  // Actions of successive stages have succeeded in the order of the stages.
  ghost predicate Staged(c: Cluster, chain: seq<Action>, stages: seq<nat>, k: nat) {
    && |chain| == |stages|
    && (forall n :: 0 <= n < |chain| ==> chain[n] in StageAt(c, stages[n]) && stages[n] < k)
    && (forall n :: 0 < n < |chain| ==> stages[n - 1] < stages[n])
  }

  lemma {:induction false} ChainHolds(c: Cluster, t: seq<Event>, k: nat, chain: seq<Action>, stages: seq<nat>)
    requires Reached(c, t, k) && Staged(c, chain, stages, k)
    ensures Earlier(t, chain, |t|)
    decreases |chain|
  {
    hide StageAt;
    if chain != [] {
      var last := |chain| - 1;
      var s := stages[last];
      ReachedFewer(c, t, k, s + 1);
      var i: nat :| i <= |t| && Reached(c, t[..i], s) && Within(StageAt(c, s), t[i..]);
      assert Event(chain[last], true) in t[i..];
      var j: nat :| i <= j < |t| && t[j] == Event(chain[last], true);
      if last > 0 { Increasing(stages, last); }
      ChainHolds(c, t[..i], s, chain[..last], stages[..last]);
      EarlierLonger(t[..i], t, chain[..last], i, j);
    }
  }

  lemma {:induction false} Increasing(stages: seq<nat>, last: nat)
    requires last < |stages| && forall n :: 0 < n < |stages| ==> stages[n - 1] < stages[n]
    ensures forall n :: 0 <= n < last ==> stages[n] < stages[last]
  {
    if last > 0 {
      Increasing(stages, last - 1);
    }
  }

  lemma InPhase(phase: Phase, nodes: map<string, Host>, u: string, i: nat)
    requires u in nodes && i < |Steps(phase, nodes[u])|
    ensures OnNode(u, Steps(phase, nodes[u])[i]) in PhaseActions(phase, nodes)
  {
  }

  lemma MasterActions(c: Cluster, m: string)
    requires c.Valid() && m in c.masters
    ensures OnNode(m, Copy(MasterFiles)) in StageAt(c, 5)
    ensures OnNode(m, Bash(Backup)) in StageAt(c, 6)
    ensures OnNode(m, Bash(CpCerts)) in StageAt(c, 7)
    ensures OnNode(m, Bash(CpProxy)) in StageAt(c, 11)
    ensures OnNode(m, Bash(Cleanup)) in StageAt(c, 12)
  {
    hide PhaseActions;
    var nodes := c.MasterNodes();
    assert nodes[m] == Host(m, Linux) && nodes[m].IsMaster();
    InPhase(Distribute, nodes, m, 0);
    InPhase(Scripts(Backup), nodes, m, 0);
    InPhase(Scripts(CpCerts), nodes, m, 0);
    InPhase(Scripts(CpProxy), nodes, m, 0);
    InPhase(Scripts(Cleanup), nodes, m, 0);
  }

  // ---- The order of a run, action by action ----

  // Before any node is touched.
  function Opening(c: Cluster): seq<Action> {
    [Write(BackupDirectory), Write(OutputDirectory), Connect]
    + (if c.force then [] else [NodesReady(c.MasterSet()), ControlPlaneReady])
  }

  // What every master m went through before a step runs on any master.
  function BeforeOnMaster(c: Cluster, m: string, step: Step): seq<Action> {
    var copied := Opening(c) + [OnNode(m, Copy(MasterFiles))];
    var backedUp := copied + [OnNode(m, Bash(Backup))];
    var ready := backedUp + [OnNode(m, Bash(CpCerts))]
                 + (if c.availabilitySet then [Restart(m), VMsRunning(c.MasterSet())] else [])
                 + [NodesReady(c.MasterSet())];
    match step
    case Bash(Backup) => copied
    case Bash(CpCerts) => backedUp
    case Bash(CpProxy) => ready
    case Bash(Cleanup) => ready + [OnNode(m, Bash(CpProxy))]
    case _ => Opening(c)
  }

  // What every master went through before any agent is touched.
  function Masters(c: Cluster, m: string): seq<Action> {
    BeforeOnMaster(c, m, Bash(Cleanup))
    + [OnNode(m, Bash(Cleanup)), NodesReady(c.MasterSet()), ControlPlaneReady, ListNodes]
  }

  // What every agent h went through before a step runs on any agent.
  function BeforeOnAgent(h: Host, step: Step): seq<Action> {
    var copied := [OnNode(h.uri, Copy(if h.os == Linux then LinuxFiles else WindowsFiles))];
    var backedUp := copied + [OnNode(h.uri, if h.os == Linux then Bash(Backup) else PowerShell(Backup))];
    match step
    case Bash(Backup) => copied
    case PowerShell(Backup) => copied
    case Bash(AgentCerts) => backedUp
    case PowerShell(AgentCerts) => backedUp
    case DeleteKubeProxyPods => backedUp
    case Bash(Cleanup) => backedUp + Rotated(h)
    case PowerShell(Cleanup) => backedUp + Rotated(h)
    case _ => []
  }

  // The new certificates are taken over; on Linux the proxy's pods are deleted afterwards.
  function Rotated(h: Host): seq<Action> {
    if h.os == Linux then [OnNode(h.uri, Bash(AgentCerts)), OnNode(h.uri, DeleteKubeProxyPods)]
    else [OnNode(h.uri, PowerShell(AgentCerts))]
  }

  // All that an agent goes through.
  function Agent(h: Host): seq<Action> {
    BeforeOnAgent(h, Bash(Cleanup)) + [OnNode(h.uri, if h.os == Linux then Bash(Cleanup) else PowerShell(Cleanup))]
  }

  function Closing(c: Cluster): seq<Action> {
    [NodesReady(c.AgentNodes().Keys), RotateTokens]
  }

  // ---- Stages of these actions ----

  lemma StagedTogether(c: Cluster, a: seq<Action>, x: seq<nat>, k: nat, b: seq<Action>, y: seq<nat>, n: nat)
    requires Staged(c, a, x, k) && Staged(c, b, y, n) && k <= n && forall i :: 0 <= i < |y| ==> k <= y[i]
    ensures Staged(c, a + b, x + y, n)
  {
    hide StageAt;
  }

  lemma StagedOne(c: Cluster, a: Action, k: nat)
    requires a in StageAt(c, k)
    ensures Staged(c, [a], [k], k + 1)
  {
    hide StageAt;
  }

  // One action more.
  lemma StagedNext(c: Cluster, chain: seq<Action>, stages: seq<nat>, a: Action, k: nat)
    requires Staged(c, chain, stages, k) && a in StageAt(c, k)
    ensures Staged(c, chain + [a], stages + [k], k + 1)
  {
    hide StageAt;
    StagedOne(c, a, k);
    StagedTogether(c, chain, stages, k, [a], [k], k + 1);
  }

  lemma StagedLater(c: Cluster, chain: seq<Action>, stages: seq<nat>, k: nat, n: nat)
    requires Staged(c, chain, stages, k) && k <= n
    ensures Staged(c, chain, stages, n)
  {
    hide StageAt;
  }

  lemma OpeningStaged(c: Cluster) returns (stages: seq<nat>)
    ensures Staged(c, Opening(c), stages, 5)
  {
    hide PhaseActions, Steps;
    stages := if c.force then [0, 1, 2] else [0, 1, 2, 3, 4];
  }

  lemma MasterStaged(c: Cluster, m: string, step: Step, k: nat) returns (stages: seq<nat>)
    requires c.Valid() && m in c.masters && (step, k) in {(Bash(Backup), 6), (Bash(CpCerts), 7), (Bash(CpProxy), 11), (Bash(Cleanup), 12)}
    ensures Staged(c, BeforeOnMaster(c, m, step), stages, k)
  {
    hide StageAt, PhaseActions, Steps, Opening, Staged;
    MasterActions(c, m);
    stages := OpeningStaged(c);
    var chain := Opening(c);
    StagedNext(c, chain, stages, OnNode(m, Copy(MasterFiles)), 5);
    chain, stages := chain + [OnNode(m, Copy(MasterFiles))], stages + [5];
    if step == Bash(Backup) { return; }
    StagedNext(c, chain, stages, OnNode(m, Bash(Backup)), 6);
    chain, stages := chain + [OnNode(m, Bash(Backup))], stages + [6];
    if step == Bash(CpCerts) { return; }
    StagedNext(c, chain, stages, OnNode(m, Bash(CpCerts)), 7);
    chain, stages := chain + [OnNode(m, Bash(CpCerts))], stages + [7];
    stages := RestartStaged(c, m, chain, stages);
    chain := chain + (if c.availabilitySet then [Restart(m), VMsRunning(c.MasterSet())] else []);
    WaitStages(c);
    StagedNext(c, chain, stages, NodesReady(c.MasterSet()), 10);
    chain, stages := chain + [NodesReady(c.MasterSet())], stages + [10];
    if step == Bash(CpProxy) { return; }
    StagedNext(c, chain, stages, OnNode(m, Bash(CpProxy)), 11);
    chain, stages := chain + [OnNode(m, Bash(CpProxy))], stages + [11];
  }

  lemma RestartStaged(c: Cluster, m: string, chain: seq<Action>, stages: seq<nat>) returns (more: seq<nat>)
    requires m in c.masters && Staged(c, chain, stages, 8)
    ensures Staged(c, chain + (if c.availabilitySet then [Restart(m), VMsRunning(c.MasterSet())] else []), more, 10)
  {
    hide Staged;
    if c.availabilitySet {
      StagedNext(c, chain, stages, Restart(m), 8);
      StagedNext(c, chain + [Restart(m)], stages + [8], VMsRunning(c.MasterSet()), 9);
      assert chain + [Restart(m)] + [VMsRunning(c.MasterSet())] == chain + [Restart(m), VMsRunning(c.MasterSet())];
      more := stages + [8] + [9];
    } else {
      StagedLater(c, chain, stages, 8, 10);
      assert chain + [] == chain;
      more := stages;
    }
  }

  lemma WaitStages(c: Cluster)
    ensures NodesReady(c.MasterSet()) in StageAt(c, 10) && NodesReady(c.MasterSet()) in StageAt(c, 13)
    ensures ControlPlaneReady in StageAt(c, 14) && ListNodes in StageAt(c, 15)
    ensures NodesReady(c.AgentNodes().Keys) in StageAt(c, 20) && RotateTokens in StageAt(c, 21)
    ensures Write(ModelDirectory) in StageAt(c, 22) && RemoveOutput in StageAt(c, 23)
  {
    hide PhaseActions;
  }

  lemma MastersStaged(c: Cluster, m: string) returns (stages: seq<nat>)
    requires c.Valid() && m in c.masters
    ensures Staged(c, Masters(c, m), stages, 16)
  {
    hide StageAt, PhaseActions, Steps, Staged, BeforeOnMaster;
    MasterActions(c, m);
    WaitStages(c);
    stages := MasterStaged(c, m, Bash(Cleanup), 12);
    var chain := BeforeOnMaster(c, m, Bash(Cleanup));
    StagedNext(c, chain, stages, OnNode(m, Bash(Cleanup)), 12);
    StagedNext(c, chain + [OnNode(m, Bash(Cleanup))], stages + [12], NodesReady(c.MasterSet()), 13);
    StagedNext(c, chain + [OnNode(m, Bash(Cleanup))] + [NodesReady(c.MasterSet())], stages + [12] + [13], ControlPlaneReady, 14);
    StagedNext(c, chain + [OnNode(m, Bash(Cleanup))] + [NodesReady(c.MasterSet())] + [ControlPlaneReady],
               stages + [12] + [13] + [14], ListNodes, 15);
    stages := stages + [12] + [13] + [14] + [15];
    assert Masters(c, m) == chain + [OnNode(m, Bash(Cleanup))] + [NodesReady(c.MasterSet())] + [ControlPlaneReady] + [ListNodes];
  }

  ghost predicate IsAgent(c: Cluster, h: Host) {
    h.uri in c.AgentNodes() && c.AgentNodes()[h.uri] == h
  }

  lemma AgentActions(c: Cluster, h: Host)
    requires IsAgent(c, h) && h.os != Unknown
    ensures OnNode(h.uri, Copy(if h.os == Linux then LinuxFiles else WindowsFiles)) in StageAt(c, 16)
    ensures OnNode(h.uri, if h.os == Linux then Bash(Backup) else PowerShell(Backup)) in StageAt(c, 17)
    ensures OnNode(h.uri, if h.os == Linux then DeleteKubeProxyPods else PowerShell(AgentCerts)) in StageAt(c, 18)
    ensures OnNode(h.uri, if h.os == Linux then Bash(Cleanup) else PowerShell(Cleanup)) in StageAt(c, 19)
  {
    hide PhaseActions, Steps;
    var nodes := c.AgentNodes();
    AgentSteps(h);
    InPhase(Distribute, nodes, h.uri, 0);
    InPhase(Scripts(Backup), nodes, h.uri, 0);
    InPhase(Scripts(AgentCerts), nodes, h.uri, if h.os == Linux then 1 else 0);
    InPhase(Scripts(Cleanup), nodes, h.uri, 0);
  }

  lemma AgentSteps(h: Host)
    requires !h.IsMaster() && h.os != Unknown
    ensures forall phase :: phase in {Distribute, Scripts(Backup), Scripts(Cleanup)} ==> Steps(phase, h) != []
    ensures Steps(Distribute, h)[0] == if h.os == Linux then Copy(LinuxFiles) else Copy(WindowsFiles)
    ensures Steps(Scripts(Backup), h)[0] == if h.os == Linux then Bash(Backup) else PowerShell(Backup)
    ensures Steps(Scripts(AgentCerts), h)
         == if h.os == Linux then [Bash(AgentCerts), DeleteKubeProxyPods] else [PowerShell(AgentCerts)]
    ensures Steps(Scripts(Cleanup), h)[0] == if h.os == Linux then Bash(Cleanup) else PowerShell(Cleanup)
  {
  }

  // The last action of a stage stands for the whole stage; what comes before it on the same
  // agent is put in afterwards.
  function StagedAgent(h: Host, n: nat): seq<Action> {
    [OnNode(h.uri, Copy(if h.os == Linux then LinuxFiles else WindowsFiles)),
     OnNode(h.uri, if h.os == Linux then Bash(Backup) else PowerShell(Backup)),
     OnNode(h.uri, if h.os == Linux then DeleteKubeProxyPods else PowerShell(AgentCerts)),
     OnNode(h.uri, if h.os == Linux then Bash(Cleanup) else PowerShell(Cleanup))][..if n <= 4 then n else 4]
  }

  lemma AgentStaged(c: Cluster, h: Host, n: nat)
    requires IsAgent(c, h) && h.os != Unknown && n <= 4
    ensures Staged(c, StagedAgent(h, n), [16, 17, 18, 19][..n], 16 + n)
  {
    hide StageAt;
    AgentActions(c, h);
  }

  // The API model is overwritten only after every action of every earlier stage succeeded,
  // on masters and agents, and nothing but the last wait failed.
  lemma {:induction false} ModelIsWrittenLast(c: Cluster, t: seq<Event>, i: nat)
    requires c.Valid() && Safe(c, t) && StopsAtFailure(BeforeResume(t)) && Resumed(c, t)
    requires i < |t| && t[i].action == Write(ModelDirectory)
    ensures forall k: nat, a :: k < 22 && a in StageAt(c, k) ==> Event(a, true) in t[..i]
    ensures forall j :: 0 <= j < i ==> t[j].Tolerable()
  {
    hide Reached, StageAt;
    assert Allowed(c, t[..i], t[i].action);
    forall k: nat, a | k < 22 && a in StageAt(c, k)
      ensures Event(a, true) in t[..i]
    {
      ChainHolds(c, t[..i], 22, [a], [k]);
    }
    forall j | 0 <= j < i
      ensures t[j].Tolerable()
    {
      assert BeforeResume(t)[j] == t[j];
    }
  }

  // Whatever is staged before an action precedes it in a safe trace.
  lemma {:induction false} OrderHolds(c: Cluster, t: seq<Event>, i: nat, chain: seq<Action>, stages: seq<nat>, k: nat)
    requires Safe(c, t) && i < |t| && k <= Needs(c, t[i].action) && Staged(c, chain, stages, k)
    ensures Earlier(t, chain, i)
  {
    hide Reached, StageAt, Staged, Needs, Fitting, Belongs;
    assert Allowed(c, t[..i], t[i].action);
    ReachedFewer(c, t[..i], Needs(c, t[i].action), k);
    ChainHolds(c, t[..i], k, chain, stages);
    EarlierLonger(t[..i], t, chain, i, i);
  }

  lemma NodeNeeds(c: Cluster, t: seq<Event>, i: nat, u: string, step: Step)
    requires c.Valid() && Safe(c, t) && i < |t| && t[i].action == OnNode(u, step)
    ensures u in c.masters ==> step in {Copy(MasterFiles), Bash(Backup), Bash(CpCerts), Bash(CpProxy), Bash(Cleanup)}
    ensures u !in c.masters ==> u in c.AgentNodes() && OnAgent(c.AgentNodes()[u].os, step)
    ensures Needs(c, OnNode(u, step)) == Turn(step, u in c.masters)
  {
    hide Reached, StageAt, Fitting;
    assert Allowed(c, t[..i], t[i].action);
    assert u in c.masters ==> c.MasterNodes()[u].IsMaster();
    assert u in c.AgentNodes() ==> !c.AgentNodes()[u].IsMaster() && c.AgentNodes()[u].os != Unknown;
  }

  predicate OnAgent(os: OS, step: Step) {
    if os == Linux then step in {Copy(LinuxFiles), Bash(Backup), Bash(AgentCerts), DeleteKubeProxyPods, Bash(Cleanup)}
    else step in {Copy(WindowsFiles), PowerShell(Backup), PowerShell(AgentCerts), PowerShell(Cleanup)}
  }

  // The stage of a step.
  function Turn(step: Step, master: bool): nat {
    match step
    case Copy(_) => if master then 5 else 16
    case DeleteKubeProxyPods => 18
    case Bash(CpCerts) => 7
    case Bash(CpProxy) => 11
    case Bash(Backup) => if master then 6 else 17
    case Bash(Cleanup) => if master then 12 else 19
    case PowerShell(Backup) => if master then 6 else 17
    case PowerShell(Cleanup) => if master then 12 else 19
    case _ => if step == PowerShell(CpCerts) then 7 else if step == PowerShell(CpProxy) then 11 else 18
  }

  // Nothing but saving the state is done before the new certificates were generated, and no
  // files are copied before they were collected.
  lemma {:induction false} CertsGenerated(c: Cluster, t: seq<Event>, i: nat)
    requires c.Valid() && Safe(c, t) && i < |t|
    ensures t[i].action in {Write(BackupDirectory), GenerateCerts} || Event(GenerateCerts, true) in t[..i]
    ensures t[i].action.OnNode? && t[i].action.step.Copy? ==> Event(CollectFiles, true) in t[..i]
  {
    hide Reached, StageAt, Staged, Belongs;
    assert Allowed(c, t[..i], t[i].action);
    if t[i].action !in {Write(BackupDirectory), GenerateCerts, Write(OutputDirectory)} {
      OpeningActions(c);
      var chain := [Write(OutputDirectory)];
      LaterNeeds(c, t[i].action);
      OrderHolds(c, t, i, chain, [1], 2);
      var j: nat :| j < i && j < |t| && t[j] == Event(Write(OutputDirectory), true);
      assert Allowed(c, t[..j], t[j].action);
      var n :| 0 <= n < |t[..j]| && t[..j][n] == Event(GenerateCerts, true);
      assert t[..i][n] == Event(GenerateCerts, true);
    }
  }

  lemma OpeningActions(c: Cluster)
    ensures Staged(c, [Write(BackupDirectory)], [0], 1) && Staged(c, [Write(OutputDirectory)], [1], 2)
    ensures Staged(c, [Write(BackupDirectory), Write(OutputDirectory)], [0, 1], 2)
    ensures Staged(c, [Write(BackupDirectory), Write(OutputDirectory), Connect], [0, 1, 2], 3)
  {
    hide PhaseActions;
  }

  lemma LaterNeeds(c: Cluster, a: Action)
    requires a !in {Write(BackupDirectory), GenerateCerts, Write(OutputDirectory)}
    ensures Needs(c, a) >= if a == Connect then 2 else 3
  {
  }

  // The cluster is reached after the certificates were written, and nothing is asked of it
  // before that.
  lemma {:induction false} ConnectFirst(c: Cluster, t: seq<Event>, i: nat)
    requires c.Valid() && Safe(c, t) && i < |t|
    requires t[i].action !in {Write(BackupDirectory), GenerateCerts, Write(OutputDirectory)}
    ensures Earlier(t, [Write(BackupDirectory), Write(OutputDirectory)] + (if t[i].action == Connect then [] else [Connect]), i)
  {
    hide Reached, StageAt, Staged, Safe, Needs, Earlier;
    OpeningActions(c);
    LaterNeeds(c, t[i].action);
    var both := [Write(BackupDirectory), Write(OutputDirectory)];
    assert both + [] == both && both + [Connect] == [Write(BackupDirectory), Write(OutputDirectory), Connect];
    if t[i].action == Connect {
      OrderHolds(c, t, i, both, [0, 1], 2);
    } else {
      OrderHolds(c, t, i, both + [Connect], [0, 1, 2], 3);
    }
  }

  // The nodes are listed once the masters are done.
  lemma {:induction false} ListOrder(c: Cluster, t: seq<Event>, i: nat, m: string)
    requires c.Valid() && Safe(c, t) && i < |t| && t[i].action == ListNodes && m in c.masters
    ensures Earlier(t, BeforeOnMaster(c, m, Bash(Cleanup))
                       + [OnNode(m, Bash(Cleanup)), NodesReady(c.MasterSet()), ControlPlaneReady], i)
  {
    hide Reached, StageAt, Safe, BeforeOnMaster, Earlier, Staged;
    var before := BeforeOnMaster(c, m, Bash(Cleanup)) + [OnNode(m, Bash(Cleanup)), NodesReady(c.MasterSet()), ControlPlaneReady];
    var stages := MastersStaged(c, m);
    assert Masters(c, m) == before + [ListNodes];
    var fewer := StagedFewer(c, before, ListNodes, stages, 15);
    OrderHolds(c, t, i, before, fewer, 15);
  }

  lemma StagedFewer(c: Cluster, chain: seq<Action>, last: Action, stages: seq<nat>, k: nat) returns (fewer: seq<nat>)
    requires Staged(c, chain + [last], stages, k + 1)
    ensures Staged(c, chain, fewer, k)
  {
    hide StageAt;
    fewer := stages[..|stages| - 1];
    var all := chain + [last];
    var n := |chain|;
    assert forall i :: 0 <= i < n ==> all[i] == chain[i];
    if n > 0 {
      Increasing(stages, n);
    }
  }

  // The service account tokens are renewed once the agents are ready.
  lemma {:induction false} TokensOrder(c: Cluster, t: seq<Event>, i: nat, m: string, h: Host)
    requires c.Valid() && Safe(c, t) && i < |t| && t[i].action == RotateTokens && m in c.masters && IsAgent(c, h)
    ensures Earlier(t, Masters(c, m) + Agent(h) + [NodesReady(c.AgentNodes().Keys)], i)
  {
    hide Reached, StageAt, Safe, Masters, Agent, Staged, StagedAgent, Earlier;
    var front, stages := AllStaged(c, m, h, 4);
    WaitStages(c);
    StagedNext(c, front, stages, NodesReady(c.AgentNodes().Keys), 20);
    OrderHolds(c, t, i, front + [NodesReady(c.AgentNodes().Keys)], stages + [20], 21);
    PutCertsIn(c, t, i, m, h, 4, [NodesReady(c.AgentNodes().Keys)]);
  }

  // The output is removed after the API model was written.
  lemma {:induction false} OutputRemovedLast(c: Cluster, t: seq<Event>, i: nat)
    requires Safe(c, t) && i < |t| && t[i].action == RemoveOutput
    ensures Event(Write(ModelDirectory), true) in t[..i]
  {
    hide Reached, StageAt, Safe;
    WaitStages(c);
    OrderHolds(c, t, i, [Write(ModelDirectory)], [22], 23);
    var j: nat :| j < i && j < |t| && t[j] == Event(Write(ModelDirectory), true);
    assert t[..i][j] == t[j];
  }

  // No node is touched before the state was saved, the new certificates were written and the
  // cluster was reached; nor, unless forced, before the masters and the control plane were ready.
  lemma {:induction false} OpeningFirst(c: Cluster, t: seq<Event>, i: nat)
    requires c.Valid() && Safe(c, t) && i < |t| && t[i].action.OnNode?
    ensures Earlier(t, Opening(c), i)
  {
    hide Reached, StageAt, Safe, Staged;
    NodeNeeds(c, t, i, t[i].action.node, t[i].action.step);
    var stages := OpeningStaged(c);
    OrderHolds(c, t, i, Opening(c), stages, 5);
  }

  // No step runs on a master before the step before it succeeded on every master.
  lemma {:induction false} MasterOrder(c: Cluster, t: seq<Event>, i: nat, u: string, step: Step, m: string)
    requires c.Valid() && Safe(c, t) && i < |t| && t[i].action == OnNode(u, step) && u in c.masters && m in c.masters
    ensures step in {Copy(MasterFiles), Bash(Backup), Bash(CpCerts), Bash(CpProxy), Bash(Cleanup)}
    ensures Earlier(t, BeforeOnMaster(c, m, step), i)
  {
    hide Reached, StageAt, Safe, Staged, Opening;
    NodeNeeds(c, t, i, u, step);
    if step == Copy(MasterFiles) {
      OpeningFirst(c, t, i);
    } else {
      var stages := MasterStaged(c, m, step, Turn(step, true));
      OrderHolds(c, t, i, BeforeOnMaster(c, m, step), stages, Turn(step, true));
    }
  }

  // A front proxy is rotated on masters only, and not before every master has its
  // certificates, was restarted and was seen running (availability sets), and all were ready.
  lemma {:induction false} ProxyAfterAllMasters(c: Cluster, t: seq<Event>, i: nat, u: string, m: string)
    requires c.Valid() && Safe(c, t) && i < |t| && t[i].action == OnNode(u, Bash(CpProxy)) && m in c.masters
    ensures u in c.masters
    ensures Earlier(t, BeforeOnMaster(c, m, Bash(CpProxy)), i)
  {
    hide Reached, StageAt, Safe, BeforeOnMaster;
    NodeNeeds(c, t, i, u, Bash(CpProxy));
    MasterOrder(c, t, i, u, Bash(CpProxy), m);
  }

  // Only masters in availability sets are restarted and waited for, and only after every
  // master has taken over its certificates.
  lemma {:induction false} RestartOrder(c: Cluster, t: seq<Event>, i: nat, m: string)
    requires c.Valid() && Safe(c, t) && i < |t| && (t[i].action.Restart? || t[i].action.VMsRunning?) && m in c.masters
    ensures c.availabilitySet && (t[i].action.Restart? ==> t[i].action.node in c.masters)
    ensures t[i].action.VMsRunning? ==> t[i].action.nodes == c.MasterSet()
    ensures Earlier(t, BeforeOnMaster(c, m, Bash(CpCerts)) + [OnNode(m, Bash(CpCerts))]
                       + (if t[i].action.VMsRunning? then [Restart(m)] else []), i)
  {
    hide Reached, StageAt, Staged, BeforeOnMaster, PhaseActions, Belongs;
    assert Allowed(c, t[..i], t[i].action);
    MasterActions(c, m);
    var chain := BeforeOnMaster(c, m, Bash(CpCerts)) + [OnNode(m, Bash(CpCerts))];
    var stages := MasterStaged(c, m, Bash(CpCerts), 7);
    StagedNext(c, BeforeOnMaster(c, m, Bash(CpCerts)), stages, OnNode(m, Bash(CpCerts)), 7);
    stages := stages + [7];
    if t[i].action.VMsRunning? {
      RestartsStaged(c, m);
      StagedNext(c, chain, stages, Restart(m), 8);
      OrderHolds(c, t, i, chain + [Restart(m)], stages + [8], 9);
    } else {
      assert chain + [] == chain;
      OrderHolds(c, t, i, chain, stages, 8);
    }
  }

  lemma RestartsStaged(c: Cluster, m: string)
    requires c.availabilitySet && m in c.masters
    ensures Restart(m) in StageAt(c, 8)
  {
  }

  // No agent is touched before all of that happened on every master, and no step runs on an
  // agent before the step before it succeeded on every agent.
  lemma {:induction false} AgentOrder(c: Cluster, t: seq<Event>, i: nat, u: string, step: Step, m: string, h: Host)
    requires c.Valid() && Safe(c, t) && i < |t| && t[i].action == OnNode(u, step) && u !in c.masters
    requires m in c.masters && IsAgent(c, h)
    ensures u in c.AgentNodes() && OnAgent(c.AgentNodes()[u].os, step)
    ensures Earlier(t, Masters(c, m) + BeforeOnAgent(h, step), i)
  {
    hide Reached, StageAt, Safe, Staged, Masters, Earlier, Rotated;
    NodeNeeds(c, t, i, u, step);
    var n := Turn(step, false) - 16;
    AgentSoFar(c, t, i, m, h, n);
    assert Masters(c, m) + [] == Masters(c, m);
  }

  // What has happened on an agent after n of its four stages.
  function SoFar(h: Host, n: nat): seq<Action> {
    if n == 4 then Agent(h) else if n == 3 then BeforeOnAgent(h, Bash(Cleanup))
    else if n == 2 then BeforeOnAgent(h, Bash(AgentCerts)) else if n == 1 then BeforeOnAgent(h, Bash(Backup)) else []
  }

  lemma {:induction false} AgentSoFar(c: Cluster, t: seq<Event>, i: nat, m: string, h: Host, n: nat)
    requires c.Valid() && Safe(c, t) && i < |t| && m in c.masters && IsAgent(c, h)
    requires n <= 4 && 16 + n <= Needs(c, t[i].action)
    ensures Earlier(t, Masters(c, m) + SoFar(h, n), i)
  {
    hide Reached, StageAt, Safe, Staged, Needs;
    var chain, stages := AllStaged(c, m, h, n);
    OrderHolds(c, t, i, chain, stages, 16 + n);
    PutCerts(c, t, i, m, h, n);
  }

  lemma AllStaged(c: Cluster, m: string, h: Host, n: nat) returns (chain: seq<Action>, stages: seq<nat>)
    requires c.Valid() && m in c.masters && IsAgent(c, h) && n <= 4
    ensures chain == Masters(c, m) + StagedAgent(h, n) && Staged(c, chain, stages, 16 + n)
  {
    hide StageAt, Masters, StagedAgent, Staged;
    var front := MastersStaged(c, m);
    AgentStaged(c, h, n);
    chain, stages := Masters(c, m) + StagedAgent(h, n), front + [16, 17, 18, 19][..n];
    assert forall i :: 0 <= i < n ==> [16, 17, 18, 19][..n][i] >= 16;
    StagedTogether(c, Masters(c, m), front, 16, StagedAgent(h, n), [16, 17, 18, 19][..n], 16 + n);
  }

  // Putting in, before one of the actions, what is known to precede it.
  lemma {:induction false} EarlierRefined(t: seq<Event>, a: seq<Action>, x: Action, b: seq<Action>, before: seq<Action>, i: nat)
    requires Earlier(t, a + [x] + b, i)
    requires forall p: nat :: p < |t| && t[p] == Event(x, true) ==> Earlier(t, before, p)
    ensures Earlier(t, before + [x] + b, i)
    decreases |b|
  {
    var chain, more := a + [x] + b, before + [x] + b;
    var j: nat :| j < i && j < |t| && t[j] == Event(chain[|chain| - 1], true) && Earlier(t, chain[..|chain| - 1], j);
    if b == [] {
      assert more[..|more| - 1] == before;
    } else {
      var last := |b| - 1;
      assert chain[..|chain| - 1] == a + [x] + b[..last];
      EarlierRefined(t, a, x, b[..last], before, j);
      assert more[..|more| - 1] == before + [x] + b[..last];
      assert more[|more| - 1] == b[last] == chain[|chain| - 1];
    }
  }

  // The deletion of the pods on a Linux agent follows agent_certs there, which in turn follows
  // what comes before.
  lemma {:induction false} CertsBeforePods(c: Cluster, t: seq<Event>, p: nat, m: string, h: Host)
    requires c.Valid() && Safe(c, t) && p < |t| && t[p].action == OnNode(h.uri, DeleteKubeProxyPods)
    requires m in c.masters && IsAgent(c, h)
    ensures Earlier(t, Masters(c, m) + SoFar(h, 2) + [OnNode(h.uri, Bash(AgentCerts))], p)
  {
    hide Reached, StageAt, Staged, Masters, SoFar, Safe;
    PodsAfterCerts(c, t, p, h.uri);
    var q :| 0 <= q < p && t[q] == Event(OnNode(h.uri, Bash(AgentCerts)), true);
    NodeNeeds(c, t, q, h.uri, Bash(AgentCerts));
    assert h.uri !in c.masters by {
      assert !c.AgentNodes()[h.uri].IsMaster();
    }
    var chain, stages := AllStaged(c, m, h, 2);
    OrderHolds(c, t, q, chain, stages, 18);
    TwoStages(h);
    var all := chain + [OnNode(h.uri, Bash(AgentCerts))];
    assert all[..|all| - 1] == chain;
  }

  lemma TwoStages(h: Host)
    ensures StagedAgent(h, 2) == SoFar(h, 2)
  {
  }

  lemma PutCerts(c: Cluster, t: seq<Event>, i: nat, m: string, h: Host, n: nat)
    requires c.Valid() && Safe(c, t) && i <= |t| && m in c.masters && IsAgent(c, h) && n <= 4
    requires Earlier(t, Masters(c, m) + StagedAgent(h, n), i)
    ensures Earlier(t, Masters(c, m) + SoFar(h, n), i)
  {
    hide Safe, Masters;
    assert Masters(c, m) + StagedAgent(h, n) + [] == Masters(c, m) + StagedAgent(h, n);
    PutCertsIn(c, t, i, m, h, n, []);
    assert Masters(c, m) + SoFar(h, n) + [] == Masters(c, m) + SoFar(h, n);
  }

  lemma PutCertsIn(c: Cluster, t: seq<Event>, i: nat, m: string, h: Host, n: nat, rest: seq<Action>)
    requires c.Valid() && Safe(c, t) && i <= |t| && m in c.masters && IsAgent(c, h) && n <= 4
    requires Earlier(t, Masters(c, m) + StagedAgent(h, n) + rest, i)
    ensures Earlier(t, Masters(c, m) + SoFar(h, n) + rest, i)
  {
    hide Safe, Masters, Earlier, StagedAgent, SoFar;
    var front, pods := Masters(c, m), OnNode(h.uri, DeleteKubeProxyPods);
    Halves(h, n);
    if n >= 3 && h.os == Linux {
      var first, cleanup := SoFar(h, 2), CleanedUp(h, n);
      assert front + (first + [pods] + cleanup) + rest == front + first + [pods] + (cleanup + rest);
      forall p: nat | p < |t| && t[p] == Event(pods, true)
        ensures Earlier(t, front + first + [OnNode(h.uri, Bash(AgentCerts))], p)
      {
        CertsBeforePods(c, t, p, m, h);
      }
      EarlierRefined(t, front + first, pods, cleanup + rest, front + first + [OnNode(h.uri, Bash(AgentCerts))], i);
      var certs := [OnNode(h.uri, Bash(AgentCerts))];
      assert front + (first + certs + [pods] + cleanup) + rest == front + first + certs + [pods] + (cleanup + rest);
    }
  }

  // Where the deletion of the pods is, and what is put in before it.
  lemma Halves(h: Host, n: nat)
    requires n <= 4
    ensures if n >= 3 && h.os == Linux then
              var pods, certs := [OnNode(h.uri, DeleteKubeProxyPods)], [OnNode(h.uri, Bash(AgentCerts))];
              && StagedAgent(h, n) == SoFar(h, 2) + pods + CleanedUp(h, n)
              && SoFar(h, n) == SoFar(h, 2) + certs + pods + CleanedUp(h, n)
            else StagedAgent(h, n) == SoFar(h, n)
  {
  }

  function CleanedUp(h: Host, n: nat): seq<Action> {
    if n == 4 then [OnNode(h.uri, if h.os == Linux then Bash(Cleanup) else PowerShell(Cleanup))] else []
  }

  // ---- The end of a run ----

  // The API model is overwritten only after all that happened on every master and agent, after
  // the agents were ready, the tokens were renewed, and the last wait was over.
  lemma {:induction false} AgentBeforeModel(c: Cluster, t: seq<Event>, i: nat, m: string, h: Host)
    requires c.Valid() && Safe(c, t) && i < |t| && t[i].action == Write(ModelDirectory) && m in c.masters && IsAgent(c, h)
    ensures exists j :: 0 <= j < i && t[j].action == KubeSystemReady && Earlier(t, Masters(c, m) + Agent(h) + Closing(c), j)
  {
    hide Reached, StageAt, Staged, Masters, Agent, Closing, Earlier, Belongs;
    assert Allowed(c, t[..i], t[i].action);
    var j :| 0 <= j < |t[..i]| && t[..i][j].action == KubeSystemReady;
    var chain, stages := RunStaged(c, m, h);
    OrderHolds(c, t, j, chain, stages, 22);
    PutCertsIn(c, t, j, m, h, 4, Closing(c));
  }

  lemma RunStaged(c: Cluster, m: string, h: Host) returns (chain: seq<Action>, stages: seq<nat>)
    requires c.Valid() && m in c.masters && IsAgent(c, h)
    ensures chain == Masters(c, m) + StagedAgent(h, 4) + Closing(c) && Staged(c, chain, stages, 22)
  {
    hide StageAt, Masters, StagedAgent, Staged;
    var front, x := AllStaged(c, m, h, 4);
    ClosingStaged(c);
    chain, stages := front + Closing(c), x + [20, 21];
    StagedTogether(c, front, x, 20, Closing(c), [20, 21], 22);
  }

  lemma ClosingStaged(c: Cluster)
    ensures Staged(c, Closing(c), [20, 21], 22)
  {
    hide StageAt;
    WaitStages(c);
  }

  // The same without any agent.
  lemma {:induction false} MastersBeforeModel(c: Cluster, t: seq<Event>, i: nat, m: string)
    requires c.Valid() && Safe(c, t) && i < |t| && t[i].action == Write(ModelDirectory) && m in c.masters
    ensures exists j :: 0 <= j < i && t[j].action == KubeSystemReady && Earlier(t, Masters(c, m) + Closing(c), j)
  {
    hide Reached, StageAt, Staged, Masters, Closing, Earlier, Belongs;
    assert Allowed(c, t[..i], t[i].action);
    var j :| 0 <= j < |t[..i]| && t[..i][j].action == KubeSystemReady;
    var stages := MastersStaged(c, m);
    ClosingStaged(c);
    StagedTogether(c, Masters(c, m), stages, 16, Closing(c), [20, 21], 22);
    OrderHolds(c, t, j, Masters(c, m) + Closing(c), stages + [20, 21], 22);
  }

  // A run that has passed all stages ends by writing the API model and removing the output.
  lemma {:induction false} RunInOrder(c: Cluster, t: seq<Event>, m: string, h: Host)
    requires c.Valid() && Safe(c, t) && Reached(c, t, STAGES) && m in c.masters && IsAgent(c, h)
    ensures Earlier(t, Masters(c, m) + Agent(h) + (Closing(c) + [Write(ModelDirectory), RemoveOutput]), |t|)
  {
    hide Reached, StageAt, Staged, Masters, Agent, Closing, Earlier, Safe;
    var chain, stages := RunStaged(c, m, h);
    WaitStages(c);
    StagedNext(c, chain, stages, Write(ModelDirectory), 22);
    StagedNext(c, chain + [Write(ModelDirectory)], stages + [22], RemoveOutput, 23);
    var all := chain + [Write(ModelDirectory)] + [RemoveOutput];
    ChainHolds(c, t, STAGES, all, stages + [22] + [23]);
    var rest := Closing(c) + [Write(ModelDirectory), RemoveOutput];
    assert all == Masters(c, m) + StagedAgent(h, 4) + rest;
    PutCertsIn(c, t, |t|, m, h, 4, rest);
  }

  // kube-proxy is restarted on a node only once the node has its new certificates.
  lemma PodsAfterCerts(c: Cluster, t: seq<Event>, i: nat, u: string)
    requires Safe(c, t) && i < |t| && t[i].action == OnNode(u, DeleteKubeProxyPods)
    ensures Event(OnNode(u, Bash(AgentCerts)), true) in t[..i]
  {
    hide Reached;
    assert Allowed(c, t[..i], t[i].action);
    var steps := Steps(Scripts(AgentCerts), c.NodesOf(u in c.masters)[u]);
    var k :| 0 <= k < |steps| && steps[k] == DeleteKubeProxyPods
      && forall j :: 0 <= j < k ==> Event(OnNode(u, steps[j]), true) in t[..i];
    assert k == 1 && steps[0] == Bash(AgentCerts);
  }

  // A complete run has rotated every listed node outside the control plane, except those of
  // a pool whose name begins with "master": these are taken for control plane nodes.
  lemma {:induction false} RotatedUnlessPrefixed(c: Cluster, t: seq<Event>, u: string)
    requires c.Valid() && c.OsKnown() && Safe(c, t) && Reached(c, t, STAGES)
    requires u in ByName(c.listing.nodes) && u !in c.masters
    ensures (exists i :: 0 <= i < |t| && t[i].action.OnNode? && t[i].action.node == u) <==> !(CONTROL_PLANE_VM_PREFIX <= u)
  {
    hide Reached, StageAt;
    if CONTROL_PLANE_VM_PREFIX <= u {
      forall i | 0 <= i < |t| && t[i].action.OnNode?
        ensures t[i].action.node != u
      {
        assert Allowed(c, t[..i], t[i].action);
        assert u !in c.AgentNodes();
      }
    } else {
      var h := ByName(c.listing.nodes)[u];
      ReachedFewer(c, t, STAGES, 17);
      AgentStaged(c, h, 1);
      assert [16, 17, 18, 19][..1] == [16];
      ChainHolds(c, t, 17, StagedAgent(h, 1), [16]);
    }
  }

  // It happens: with one master and one node of a pool named "master1", a complete run does
  // nothing on that node.
  lemma MasterPoolSkipped(t: seq<Event>)
    requires var c := Cluster(["k8s-master-1-0"], true, false, NotFound, Listed([Host("k8s-master1-1-0", Linux)]));
             Safe(c, t) && Reached(c, t, STAGES)
    ensures forall i :: 0 <= i < |t| && t[i].action.OnNode? ==> t[i].action.node != "k8s-master1-1-0"
  {
    hide Reached, StageAt, Safe;
    var c := Cluster(["k8s-master-1-0"], true, false, NotFound, Listed([Host("k8s-master1-1-0", Linux)]));
    var u := "k8s-master1-1-0";
    assert "k8s-master-1-0"[..10] == CONTROL_PLANE_VM_PREFIX && u[..10] == CONTROL_PLANE_VM_PREFIX;
    assert |u| == 15 && |"k8s-master-1-0"| == 14;
    assert c.listing.nodes == [Host(u, Linux)] && Host(u, Linux) in c.listing.nodes;
    RotatedUnlessPrefixed(c, t, u);
  }
}
