/**
 The venue bring-up, the state switch and the teardown of lifecycle.go over one world: the API server,
 the supervisors and pidfiles of the host, the managed ssh config, and a clock the waits move.
 Each call is proved to do what a fixed list of stages, or a plain account of its effects, says.
 */
module Venue {
  import opened ApiServer
  import opened Clock
  import opened ClusterOps
  import opened Entity
  import opened JsonValues
  import opened RunStrategy
  import opened Wrappers
  import Argv = PortForwardArgv
  import NF = NormalForm
  import P = Polling
  import PF = PortForward
  import R = Render
  import V = Validate

  /* ----- the managed ssh config ----- */

  datatype Stanza = Stanza(hostname: string, port: int, user: string)

  datatype SshState = SshState(stanzas: map<string, Stanza>, included: bool)

  class SshConfig {
    var stanzas: map<string, Stanza>
    var included: bool

    constructor (s: SshState)
      ensures View() == s
    {
      stanzas, included := s.stanzas, s.included;
    }

    function View(): SshState
      reads this
    {
      SshState(stanzas, included)
    }

    method WriteStanza(alias: string, stanza: Stanza)
      modifies this
      ensures View() == old(View()).(stanzas := old(stanzas)[alias := stanza])
    {
      stanzas := stanzas[alias := stanza];
    }

    method RemoveStanza(alias: string) returns (remaining: nat)
      modifies this
      ensures View() == old(View()).(stanzas := old(stanzas) - {alias})
      ensures remaining == |stanzas|
    {
      stanzas := stanzas - {alias};
      remaining := |stanzas|;
    }

    method SetInclude(on: bool)
      modifies this
      ensures View() == old(View()).(included := on)
    {
      included := on;
    }
  }

  /* ----- the world ----- */

  datatype World = World(store: Store, turns: seq<Turn>, host: PF.HostState, ssh: SshState, now: nat)

  /** The cluster a connection selects; None when no client can be built for it. */
  type Clusters = Connection -> Option<Connection>

  /** The deploy state a writer may have left; today nothing writes it. */
  datatype Prior = Prior(context: string, namespace: string, sshPort: int)

  /** The deploy with its entity and cluster resolved. */
  datatype Deploy = Deploy(kv: KubeVirt, target: Connection, dryRun: bool, nodeAlias: string,
                           requiresExclusive: seq<string>)

  datatype Stage =
    | Delivered | Rendered | Applied | RunRequested | ReadySeen | AgentSeen | AddressSeen
    | ForwardUp | StanzaPublished | IncludeEnsured | SshUp | CloudInitDone | PackageLockFree | CharlyInstalled

  /** Everything a bring-up meets outside this world. */
  datatype Env = Env(deploy: Option<Deploy>, box: Option<V.BoxMetadata>, keysMade: bool, prior: Option<Prior>,
                     freePort: Option<int>, clusters: Clusters, delivered: bool, files: Result<CloudFiles, string>,
                     vmi: P.Status, timing: Stage -> P.Timing, start: PF.StartEnv,
                     stanzaWritten: bool, includeEnsured: bool, guest: Stage -> bool)

  datatype PrepareError = Unresolved | NoIdentity | NoKeys | NoPort | NoClient | Failed(stage: Stage)

  function VmName(identity: string): string {
    "charly-" + identity
  }

  function StateDir(base: string, vm: string): string {
    base + "/" + vm
  }

  lemma NamesAreDistinct(base: string, a: string, b: string)
    ensures VmName(a) == VmName(b) <==> a == b
    ensures StateDir(base, VmName(a)) == StateDir(base, VmName(b)) <==> a == b
  {
    assert a == VmName(a)[7..] && b == VmName(b)[7..];
    assert VmName(a) == StateDir(base, VmName(a))[|base| + 1..];
    assert VmName(b) == StateDir(base, VmName(b))[|base| + 1..];
  }

  /* ----- the plan ----- */

  predicate Delivers(d: Deploy) {
    !d.dryRun && d.kv.source.kind == "container_disk" && d.kv.source.image != "" && d.nodeAlias != ""
  }

  /** The stages before, among and after the waits. */
  function ApplyPlan(d: Deploy): seq<Stage> {
    if Delivers(d) then [Delivered] + RENDER_PLAN else RENDER_PLAN
  }

  const RENDER_PLAN: seq<Stage> := [Rendered, Applied]
  const WAIT_PLAN: seq<Stage> := [RunRequested, ReadySeen, AgentSeen, AddressSeen]
  const PUBLISH_PLAN: seq<Stage> := [ForwardUp, StanzaPublished, IncludeEnsured]
  const GUEST_PLAN: seq<Stage> := [SshUp, CloudInitDone, PackageLockFree, CharlyInstalled]

  function BootPlan(d: Deploy): seq<Stage> {
    if d.dryRun then ApplyPlan(d) else ApplyPlan(d) + WAIT_PLAN
  }

  function ConnectPlan(d: Deploy): seq<Stage> {
    if d.dryRun then PUBLISH_PLAN else PUBLISH_PLAN + GUEST_PLAN
  }

  /** The fixed list of steps. A dry run still applies the CR and opens the forward. */
  function Plan(d: Deploy): seq<Stage> {
    BootPlan(d) + ConnectPlan(d)
  }

  /* ----- what each stage does ----- */

  /** What the preflight settles before anything is touched. */
  datatype Case = Case(deploy: Deploy, vm: string, dir: string, namespace: string, user: string, port: int,
                       cluster: Connection, opts: RenderOptions) {
    function VmKey(): Key {
      Key(cluster, VirtualMachines, namespace, vm)
    }

    function Forward(): Argv.Request {
      Argv.Request(deploy.target.kubeconfig, deploy.target.context, namespace, vm, port)
    }

    function SshStanza(): Stanza {
      Stanza("127.0.0.1", port, user)
    }
  }

  function ChosenPort(e: Env): Option<int> {
    if e.prior.Some? && e.prior.value.sshPort != 0 then Some(e.prior.value.sshPort) else e.freePort
  }

  function GuestIdentity(kv: KubeVirt, box: Option<V.BoxMetadata>): (string, string) {
    (V.Identity(kv.distro, if box.Some? then box.value.distro else "", kv.source.kind, box),
     V.Identity(kv.sshUser, if box.Some? then box.value.sshUser else "", kv.source.kind, box))
  }

  function Preflight(base: string, identity: string, e: Env): Result<Case, PrepareError> {
    if e.deploy.None? then Err(Unresolved)
    else
      var d, vm := e.deploy.value, VmName(identity);
      var (distro, user) := GuestIdentity(d.kv, e.box);
      if distro == "" || user == "" then Err(NoIdentity)
      else if !e.keysMade then Err(NoKeys)
      else if ChosenPort(e).None? then Err(NoPort)
      else if e.clusters(d.target).None? then Err(NoClient)
      else
        var namespace := NF.OrElse(d.kv.namespace, "default");
        Ok(Case(d, vm, StateDir(base, vm), namespace, user, ChosenPort(e).value, e.clusters(d.target).value,
                RenderOptions(vm, namespace, distro, user, d.requiresExclusive)))
  }

  /** The CR the deploy renders to, if it does. */
  function CrOf(c: Case, e: Env): Option<Object> {
    if R.RenderFailure(c.deploy.kv, c.opts, e.files).Some? then None
    else Some(NF.Encode(NF.Normalize(c.deploy.kv, c.opts, R.FilesOf(e.files))))
  }

  const READY_WAIT: nat := 15 * 60 * SECOND
  const AGENT_WAIT: nat := 20 * 60 * SECOND
  const ADDRESS_WAIT: nat := 10 * 60 * SECOND

  function LoopOf(stage: Stage): P.Loop {
    match stage
    case ReadySeen => P.VenueReady
    case AgentSeen => P.VenueAgent
    case _ => P.VenueAddress
  }

  function BoundOf(stage: Stage): nat {
    match stage
    case ReadySeen => READY_WAIT
    case AgentSeen => AGENT_WAIT
    case _ => ADDRESS_WAIT
  }

  function WaitRun(e: Env, stage: Stage, start: nat): P.Run {
    P.Poll(P.LookFor(LoopOf(stage)), e.vmi, e.timing(stage), start, BoundOf(stage))
  }

  /** The world after a stage, and whether the bring-up goes on. */
  ghost function Do(c: Case, e: Env, cr: Option<Object>, w: World, stage: Stage): (World, bool) {
    match stage
    case Delivered => (w, e.delivered)
    case Rendered => (w, cr.Some?)
    case Applied =>
      var t1, t2 := Head(w.turns), Head(Tail(w.turns));
      var s1 := Others(w.store, t1.writes);
      var s2 := Others(s1, t2.writes);
      if t1.refused then (w.(store := s1, turns := Tail(w.turns)), false)
      else
        var ok := !t2.refused && Unmoved(s1, s2, c.VmKey()) && cr.Some?;
        (w.(store := if ok then s2.Put(c.VmKey(), cr.value) else s2, turns := Tail(Tail(w.turns))), ok)
    case RunRequested =>
      var (store, turns, ok) := AfterPatch(w.store, w.turns, c.VmKey(), ALWAYS);
      (w.(store := store, turns := turns), ok)
    case ReadySeen | AgentSeen | AddressSeen =>
      var run := WaitRun(e, stage, w.now);
      (w.(now := run.finish), run.outcome.Returned?)
    case ForwardUp =>
      var (h, r) := PF.AfterStart(w.host, c.dir, c.Forward(), e.start);
      (w.(host := h), r.Ok?)
    case StanzaPublished =>
      (if e.stanzaWritten then w.(ssh := w.ssh.(stanzas := w.ssh.stanzas[c.vm := c.SshStanza()])) else w,
       e.stanzaWritten)
    case IncludeEnsured =>
      (if e.includeEnsured then w.(ssh := w.ssh.(included := true)) else w, e.includeEnsured)
    case _ => (w, e.guest(stage))
  }

  /** The stages in order, until one fails; and how many were completed. */
  ghost function Bringup(c: Case, e: Env, cr: Option<Object>, w: World, plan: seq<Stage>): (r: (World, nat))
    ensures r.1 <= |plan|
    decreases |plan|
  {
    if plan == [] then (w, 0)
    else
      var (w', ok) := Do(c, e, cr, w, plan[0]);
      if !ok then (w', 0)
      else
        var (w'', n) := Bringup(c, e, cr, w', plan[1..]);
        (w'', n + 1)
  }

  lemma {:induction false} BringupJoins(c: Case, e: Env, cr: Option<Object>, w: World, p: seq<Stage>, q: seq<Stage>)
    ensures var (w1, n) := Bringup(c, e, cr, w, p);
            Bringup(c, e, cr, w, p + q) == if n < |p| then (w1, n)
                                           else (Bringup(c, e, cr, w1, q).0, n + Bringup(c, e, cr, w1, q).1)
    decreases |p|
  {
    if p == [] {
      assert p + q == q;
    } else {
      assert (p + q)[1..] == p[1..] + q;
      BringupJoins(c, e, cr, Do(c, e, cr, w, p[0]).0, p[1..], q);
    }
  }

  /** A phase: all of its stages, or all up to the one that failed. */
  ghost predicate Reached(c: Case, e: Env, cr: Option<Object>, w: World, plan: seq<Stage>, failed: Option<Stage>,
                          w': World)
  {
    var (end, n) := Bringup(c, e, cr, w, plan);
    && w' == end
    && match failed
       case None => n == |plan|
       case Some(stage) => n < |plan| && plan[n] == stage
  }

  lemma GoesOn(c: Case, e: Env, cr: Option<Object>, w0: World, done: seq<Stage>, w1: World, phase: seq<Stage>,
               failed: Option<Stage>, w2: World)
    requires Reached(c, e, cr, w0, done, None, w1) && Reached(c, e, cr, w1, phase, failed, w2)
    ensures Reached(c, e, cr, w0, done + phase, failed, w2)
  {
    BringupJoins(c, e, cr, w0, done, phase);
  }

  lemma StopsThere(c: Case, e: Env, cr: Option<Object>, w0: World, phase: seq<Stage>, failed: Option<Stage>, w1: World,
                   rest: seq<Stage>)
    requires Reached(c, e, cr, w0, phase, failed, w1) && failed.Some?
    ensures Reached(c, e, cr, w0, phase + rest, failed, w1)
  {
    BringupJoins(c, e, cr, w0, phase, rest);
  }

  /** The i-th stage of a phase, after the ones before it. */
  lemma NextStage(c: Case, e: Env, cr: Option<Object>, w0: World, phase: seq<Stage>, i: nat, w: World, w': World,
                  ok: bool)
    requires i < |phase| && Reached(c, e, cr, w0, phase[..i], None, w) && (w', ok) == Do(c, e, cr, w, phase[i])
    ensures ok ==> Reached(c, e, cr, w0, phase[..i + 1], None, w')
    ensures ok && i + 1 == |phase| ==> Reached(c, e, cr, w0, phase, None, w')
    ensures !ok ==> Reached(c, e, cr, w0, phase, Some(phase[i]), w')
  {
    assert [phase[i]][1..] == [];
    var failed := if ok then None else Some(phase[i]);
    assert Reached(c, e, cr, w, [phase[i]], failed, w');
    GoesOn(c, e, cr, w0, phase[..i], w, [phase[i]], failed, w');
    assert phase[..i] + [phase[i]] == phase[..i + 1];
    if ok {
      assert i + 1 == |phase| ==> phase[..i + 1] == phase;
    } else {
      StopsThere(c, e, cr, w0, phase[..i + 1], failed, w', phase[i + 1..]);
      assert phase[..i + 1] + phase[i + 1..] == phase;
    }
  }

  /** The CR of a deploy that passes the preflight. */
  function PlannedCr(base: string, identity: string, e: Env): Option<Object> {
    match Preflight(base, identity, e)
    case Ok(c) => CrOf(c, e)
    case Err(_) => None
  }

  /** Prepare-venue as a function of the world; cr is what the deploy renders to, if it does. */
  ghost function AfterPrepare(base: string, identity: string, e: Env, cr: Option<Object>, w: World)
    : (World, Result<string, PrepareError>)
  {
    match Preflight(base, identity, e)
    case Err(error) => (w, Err(error))
    case Ok(c) =>
      var (w', n) := Bringup(c, e, cr, w, Plan(c.deploy));
      (w', if n == |Plan(c.deploy)| then Ok(c.vm) else Err(Failed(Plan(c.deploy)[n])))
  }

  /* ----- teardown ----- */

  datatype TeardownEnv = TeardownEnv(prior: Option<Prior>, clusters: Clusters, stanzaRemoved: bool,
                                     includeRemoved: bool)

  /** What the calls after prepare take the VirtualMachine to be: no kubeconfig, and a default namespace. */
  function RecomputedConnection(prior: Option<Prior>): Connection {
    Connection("", if prior.Some? then prior.value.context else "")
  }

  function RecomputedNamespace(prior: Option<Prior>): string {
    if prior.Some? then NF.OrElse(prior.value.namespace, "default") else "default"
  }

  function RecomputedKey(prior: Option<Prior>, clusters: Clusters, vm: string): Option<Key> {
    match clusters(RecomputedConnection(prior))
    case Some(cluster) => Some(Key(cluster, VirtualMachines, RecomputedNamespace(prior), vm))
    case None => None
  }

  ghost function AfterDelete(w: World, key: Key): World {
    var s1 := Others(w.store, Head(w.turns).writes);
    w.(store := if Head(w.turns).refused then s1 else s1.Remove(key), turns := Tail(w.turns))
  }

  function AfterCleanup(ssh: SshState, vm: string, e: TeardownEnv): SshState {
    if !e.stanzaRemoved then ssh
    else SshState(ssh.stanzas - {vm}, ssh.included && !(ssh.stanzas - {vm} == map[] && e.includeRemoved))
  }

  ghost function AfterTeardown(base: string, identity: string, e: TeardownEnv, w: World): World {
    var vm := VmName(identity);
    var deleted := match RecomputedKey(e.prior, e.clusters, vm) case Some(k) => AfterDelete(w, k) case None => w;
    deleted.(host := PF.AfterPidfileStop(w.host, StateDir(base, vm)), ssh := AfterCleanup(w.ssh, vm, e))
  }

  /** The state switch never has a prior state to read, and patches what it recomputes. */
  ghost function AfterState(identity: string, clusters: Clusters, start: bool, w: World): (World, bool) {
    match RecomputedKey(None, clusters, VmName(identity))
    case None => (w, false)
    case Some(key) =>
      var (store, turns, ok) := AfterPatch(w.store, w.turns, key, if start then ALWAYS else HALTED);
      (w.(store := store, turns := turns), ok)
  }

  /* ----- the calls ----- */

  lemma CrNamesTheVm(c: Case, e: Env)
    requires c.opts.name == c.vm && CrOf(c, e).Some?
    ensures KeyOf(c.cluster, VirtualMachines, c.namespace, CrOf(c, e).value) == c.VmKey()
  {
    NamedBy(NF.Normalize(c.deploy.kv, c.opts, R.FilesOf(e.files)));
  }

  lemma NamedBy(v: NF.VmForm)
    ensures TextAt(NF.Encode(v), METADATA_NAME) == v.name
  {
    NamedManifest(v.name, v.namespace, NF.SpecObject(v));
  }

  lemma NamedManifest(name: string, namespace: string, spec: Object)
    ensures TextAt(NF.Manifest(name, namespace, spec), METADATA_NAME) == name
  {
  }

  class Site {
    const server: Server
    const host: PF.Host
    const ssh: SshConfig
    var now: nat

    constructor (server: Server, host: PF.Host, ssh: SshConfig, now: nat)
      ensures View() == World(server.store, server.turns, host.View(), ssh.View(), now)
    {
      this.server, this.host, this.ssh, this.now := server, host, ssh, now;
    }

    function View(): World
      reads this, server, host, ssh
    {
      World(server.store, server.turns, host.View(), ssh.View(), now)
    }

    method Resolve(base: string, identity: string, e: Env) returns (r: Result<Case, PrepareError>)
      ensures r == Preflight(base, identity, e)
    {
      if e.deploy.None? { return Err(Unresolved); }
      var d, vm := e.deploy.value, VmName(identity);
      var namespace := d.kv.namespace;
      if namespace == "" { namespace := "default"; }
      var resolved := V.ResolveGuestIdentity(d.kv, e.box);
      if resolved.Err? { return Err(NoIdentity); }
      var (distro, user) := resolved.value;
      if !e.keysMade { return Err(NoKeys); }
      var port := 0;
      if e.prior.Some? { port := e.prior.value.sshPort; }
      if port == 0 {
        if e.freePort.None? { return Err(NoPort); }
        port := e.freePort.value;
      }
      var cluster := e.clusters(d.target);
      if cluster.None? { return Err(NoClient); }
      r := Ok(Case(d, vm, StateDir(base, vm), namespace, user, port, cluster.value,
                   RenderOptions(vm, namespace, distro, user, d.requiresExclusive)));
    }

    method ApplyCr(c: Case, e: Env, body: Object) returns (ok: bool)
      requires server.store.Valid() && KeyOf(c.cluster, VirtualMachines, c.namespace, body) == c.VmKey()
      modifies server
      ensures server.store.Valid()
      ensures (View(), ok) == Do(c, e, Some(body), old(View()), Applied)
    {
      var applied := ApplyObject(server, c.cluster, VirtualMachines, c.namespace, body);
      ok := applied.Ok?;
    }

    method RenderCr(c: Case, e: Env) returns (cr: Option<Object>)
      requires c.opts.name == c.vm
      ensures cr == CrOf(c, e)
      ensures cr.Some? ==> KeyOf(c.cluster, VirtualMachines, c.namespace, cr.value) == c.VmKey()
    {
      var rendered := R.RenderVirtualMachine(c.deploy.kv, c.opts, e.files);
      if rendered.Err? { return None; }
      CrNamesTheVm(c, e);
      cr := Some(rendered.value);
    }

    method RenderAndApply(c: Case, e: Env, ghost cr: Option<Object>) returns (failed: Option<Stage>)
      requires server.store.Valid() && c.opts.name == c.vm && cr == CrOf(c, e)
      modifies server
      ensures server.store.Valid()
      ensures Reached(c, e, cr, old(View()), RENDER_PLAN, failed, View())
    {
      ghost var w0 := View();
      var rendered := RenderCr(c, e);
      NextStage(c, e, cr, w0, RENDER_PLAN, 0, w0, w0, rendered.Some?);
      if rendered.None? { return Some(Rendered); }
      var ok := ApplyCr(c, e, rendered.value);
      NextStage(c, e, cr, w0, RENDER_PLAN, 1, w0, View(), ok);
      failed := if ok then None else Some(Applied);
    }

    /** Stream the image to the node when it has to be there, render the CR, apply it. */
    method DeliverAndApply(c: Case, e: Env, ghost cr: Option<Object>) returns (failed: Option<Stage>)
      requires server.store.Valid() && c.opts.name == c.vm && cr == CrOf(c, e)
      modifies server
      ensures server.store.Valid()
      ensures Reached(c, e, cr, old(View()), ApplyPlan(c.deploy), failed, View())
    {
      ghost var w0, delivery := View(), [Delivered];
      var d := c.deploy;
      var deliver := !d.dryRun && d.kv.source.kind == "container_disk" && d.kv.source.image != "" && d.nodeAlias != "";
      if deliver {
        NextStage(c, e, cr, w0, delivery, 0, w0, w0, e.delivered);
        if !e.delivered {
          StopsThere(c, e, cr, w0, delivery, Some(Delivered), w0, RENDER_PLAN);
          return Some(Delivered);
        }
      }
      failed := RenderAndApply(c, e, cr);
      if deliver {
        GoesOn(c, e, cr, w0, delivery, w0, RENDER_PLAN, failed, View());
      }
    }

    method Wait(c: Case, e: Env, ghost cr: Option<Object>, stage: Stage) returns (ok: bool)
      requires stage in {ReadySeen, AgentSeen, AddressSeen}
      modifies this
      ensures (View(), ok) == Do(c, e, cr, old(View()), stage)
    {
      var look := P.LookFor(LoopOf(stage));
      var run := P.PollUntil(look, e.vmi, e.timing(stage), now, BoundOf(stage));
      P.SettledIsUnique(look, e.vmi, e.timing(stage), now, BoundOf(stage), run, WaitRun(e, stage, now));
      now := run.finish;
      ok := run.outcome.Returned?;
    }

    method RequestRun(c: Case, e: Env, ghost cr: Option<Object>) returns (ok: bool)
      requires server.store.Valid()
      modifies server
      ensures server.store.Valid()
      ensures (View(), ok) == Do(c, e, cr, old(View()), RunRequested)
    {
      var running := UpdateRunStrategy(server, c.cluster, c.namespace, c.vm, ALWAYS);
      ok := running.Ok?;
    }

    method RunAndWait(c: Case, e: Env, ghost cr: Option<Object>) returns (failed: Option<Stage>)
      requires server.store.Valid()
      modifies this, server
      ensures server.store.Valid()
      ensures Reached(c, e, cr, old(View()), WAIT_PLAN, failed, View())
    {
      ghost var w0 := View();
      var ok := RequestRun(c, e, cr);
      ghost var w1 := View();
      NextStage(c, e, cr, w0, WAIT_PLAN, 0, w0, w1, ok);
      if !ok { return Some(RunRequested); }
      ok := Wait(c, e, cr, ReadySeen);
      ghost var w2 := View();
      NextStage(c, e, cr, w0, WAIT_PLAN, 1, w1, w2, ok);
      if !ok { return Some(ReadySeen); }
      ok := Wait(c, e, cr, AgentSeen);
      ghost var w3 := View();
      NextStage(c, e, cr, w0, WAIT_PLAN, 2, w2, w3, ok);
      if !ok { return Some(AgentSeen); }
      ok := Wait(c, e, cr, AddressSeen);
      NextStage(c, e, cr, w0, WAIT_PLAN, 3, w3, View(), ok);
      failed := if ok then None else Some(AddressSeen);
    }

    method OpenForward(c: Case, e: Env, ghost cr: Option<Object>) returns (ok: bool)
      requires PF.Fresh(host.View(), e.start.launch.pid)
      modifies host
      ensures (View(), ok) == Do(c, e, cr, old(View()), ForwardUp)
    {
      var forward := host.Start(c.dir, c.Forward(), e.start);
      ok := forward.Ok?;
    }

    method PublishStanza(c: Case, e: Env, ghost cr: Option<Object>) returns (ok: bool)
      modifies ssh
      ensures (View(), ok) == Do(c, e, cr, old(View()), StanzaPublished)
    {
      if e.stanzaWritten {
        ssh.WriteStanza(c.vm, Stanza("127.0.0.1", c.port, c.user));
      }
      ok := e.stanzaWritten;
    }

    method EnsureInclude(c: Case, e: Env, ghost cr: Option<Object>) returns (ok: bool)
      modifies ssh
      ensures (View(), ok) == Do(c, e, cr, old(View()), IncludeEnsured)
    {
      if e.includeEnsured {
        ssh.SetInclude(true);
      }
      ok := e.includeEnsured;
    }

    method Publish(c: Case, e: Env, ghost cr: Option<Object>) returns (failed: Option<Stage>)
      requires PF.Fresh(host.View(), e.start.launch.pid)
      modifies host, ssh
      ensures Reached(c, e, cr, old(View()), PUBLISH_PLAN, failed, View())
    {
      ghost var w0 := View();
      var ok := OpenForward(c, e, cr);
      ghost var w1 := View();
      NextStage(c, e, cr, w0, PUBLISH_PLAN, 0, w0, w1, ok);
      if !ok { return Some(ForwardUp); }
      ok := PublishStanza(c, e, cr);
      ghost var w2 := View();
      NextStage(c, e, cr, w0, PUBLISH_PLAN, 1, w1, w2, ok);
      if !ok { return Some(StanzaPublished); }
      ok := EnsureInclude(c, e, cr);
      NextStage(c, e, cr, w0, PUBLISH_PLAN, 2, w2, View(), ok);
      failed := if ok then None else Some(IncludeEnsured);
    }

    method AwaitGuest(c: Case, e: Env, ghost cr: Option<Object>) returns (failed: Option<Stage>)
      ensures Reached(c, e, cr, View(), GUEST_PLAN, failed, View())
    {
      ghost var w := View();
      NextStage(c, e, cr, w, GUEST_PLAN, 0, w, w, e.guest(SshUp));
      if !e.guest(SshUp) { return Some(SshUp); }
      NextStage(c, e, cr, w, GUEST_PLAN, 1, w, w, e.guest(CloudInitDone));
      if !e.guest(CloudInitDone) { return Some(CloudInitDone); }
      NextStage(c, e, cr, w, GUEST_PLAN, 2, w, w, e.guest(PackageLockFree));
      if !e.guest(PackageLockFree) { return Some(PackageLockFree); }
      NextStage(c, e, cr, w, GUEST_PLAN, 3, w, w, e.guest(CharlyInstalled));
      failed := if e.guest(CharlyInstalled) then None else Some(CharlyInstalled);
    }

    /** Deliver and apply; unless this is a dry run, start the VM and wait for it. */
    method Boot(c: Case, e: Env, ghost cr: Option<Object>) returns (failed: Option<Stage>)
      requires server.store.Valid() && c.opts.name == c.vm && cr == CrOf(c, e)
      modifies this, server
      ensures server.store.Valid()
      ensures Reached(c, e, cr, old(View()), BootPlan(c.deploy), failed, View())
    {
      ghost var w0 := View();
      failed := DeliverAndApply(c, e, cr);
      ghost var w1 := View();
      if c.deploy.dryRun { return; }
      if failed.Some? {
        StopsThere(c, e, cr, w0, ApplyPlan(c.deploy), failed, w1, WAIT_PLAN);
        return;
      }
      failed := RunAndWait(c, e, cr);
      GoesOn(c, e, cr, w0, ApplyPlan(c.deploy), w1, WAIT_PLAN, failed, View());
    }

    /** Open the forward and publish it; unless this is a dry run, wait for the guest. */
    method Connect(c: Case, e: Env, ghost cr: Option<Object>) returns (failed: Option<Stage>)
      requires PF.Fresh(host.View(), e.start.launch.pid)
      modifies host, ssh
      ensures Reached(c, e, cr, old(View()), ConnectPlan(c.deploy), failed, View())
    {
      ghost var w0 := View();
      failed := Publish(c, e, cr);
      ghost var w1 := View();
      if c.deploy.dryRun { return; }
      if failed.Some? {
        StopsThere(c, e, cr, w0, PUBLISH_PLAN, failed, w1, GUEST_PLAN);
        return;
      }
      failed := AwaitGuest(c, e, cr);
      GoesOn(c, e, cr, w0, PUBLISH_PLAN, w1, GUEST_PLAN, failed, View());
    }

    method PrepareVenue(base: string, identity: string, e: Env) returns (r: Result<string, PrepareError>)
      requires server.store.Valid() && PF.Fresh(host.View(), e.start.launch.pid)
      modifies this, server, host, ssh
      ensures server.store.Valid()
      ensures (View(), r) == AfterPrepare(base, identity, e, PlannedCr(base, identity, e), old(View()))
    {
      var resolved := Resolve(base, identity, e);
      if resolved.Err? { return Err(resolved.error); }
      var c := resolved.value;
      ghost var cr, w0 := CrOf(c, e), View();
      var failed := Boot(c, e, cr);
      if failed.Some? {
        StopsThere(c, e, cr, w0, BootPlan(c.deploy), failed, View(), ConnectPlan(c.deploy));
        return Err(Failed(failed.value));
      }
      ghost var w1 := View();
      failed := Connect(c, e, cr);
      GoesOn(c, e, cr, w0, BootPlan(c.deploy), w1, ConnectPlan(c.deploy), failed, View());
      if failed.Some? { return Err(Failed(failed.value)); }
      r := Ok(c.vm);
    }

    /** Errors are dropped, a client that cannot be built included. */
    method DeleteVm(cluster: Option<Connection>, namespace: string, vm: string)
      requires server.store.Valid()
      modifies server
      ensures server.store.Valid()
      ensures cluster.Some? ==>
                View() == AfterDelete(old(View()), Key(cluster.value, VirtualMachines, namespace, vm))
      ensures cluster.None? ==> View() == old(View())
    {
      if cluster.Some? {
        var ignored := DeleteVirtualMachine(server, cluster.value, namespace, vm);
      }
    }

    method CleanSsh(vm: string, e: TeardownEnv)
      modifies ssh
      ensures ssh.View() == AfterCleanup(old(ssh.View()), vm, e)
    {
      if e.stanzaRemoved {
        var remaining := ssh.RemoveStanza(vm);
        if remaining == 0 && e.includeRemoved {
          ssh.SetInclude(false);
        }
      }
    }

    method PostTeardown(base: string, identity: string, e: TeardownEnv)
      requires server.store.Valid()
      modifies server, host, ssh
      ensures server.store.Valid()
      ensures View() == AfterTeardown(base, identity, e, old(View()))
    {
      var namespace, conn := "default", Connection("", "");
      if e.prior.Some? {
        conn := conn.(context := e.prior.value.context);
        if e.prior.value.namespace != "" { namespace := e.prior.value.namespace; }
      }
      var vm := VmName(identity);
      DeleteVm(e.clusters(conn), namespace, vm);
      host.StopByPidfile(StateDir(base, vm));
      CleanSsh(vm, e);
    }

    method SetState(identity: string, clusters: Clusters, start: bool) returns (ok: bool)
      requires server.store.Valid()
      modifies server
      ensures server.store.Valid()
      ensures (View(), ok) == AfterState(identity, clusters, start, old(View()))
    {
      var cluster := clusters(Connection("", ""));
      if cluster.None? { return false; }
      var strategy := if start then ALWAYS else HALTED;
      var updated := UpdateRunStrategy(server, cluster.value, "default", VmName(identity), strategy);
      ok := updated.Ok?;
    }
  }
}
