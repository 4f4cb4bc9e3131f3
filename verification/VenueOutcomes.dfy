/**
 The venue calls by their outcome, in the source's own constants: what the preflight settles, which steps
 there are, when each call succeeds, and what it asks the cluster for.
 */
module VenueOutcomes {
  import opened ApiServer
  import opened ClusterOps
  import opened Entity
  import opened JsonValues
  import opened PortForward
  import opened Venue
  import opened VenueRuns
  import opened Wrappers
  import Argv = PortForwardArgv
  import P = Polling
  import R = Render
  import V = Validate

  /* ----- preflight ----- */

  function DistroOf(kv: KubeVirt, box: Option<V.BoxMetadata>): string {
    if kv.distro == "" && kv.source.kind == "container_disk" && box.Some? then box.value.distro else kv.distro
  }

  function UserOf(kv: KubeVirt, box: Option<V.BoxMetadata>): string {
    if kv.sshUser == "" && kv.source.kind == "container_disk" && box.Some? then box.value.sshUser else kv.sshUser
  }

  function NamespaceOf(kv: KubeVirt): string {
    if kv.namespace == "" then "default" else kv.namespace
  }

  /** The persisted port, or else a free one. */
  function PortOf(e: Env): Option<int> {
    if e.prior.Some? && e.prior.value.sshPort != 0 then Some(e.prior.value.sshPort) else e.freePort
  }

  /** When the preflight goes through, and else with what: the first thing missing. */
  lemma PreflightFailsWith(base: string, identity: string, e: Env)
    ensures var r := Preflight(base, identity, e);
            if e.deploy.None? then r == Err(Unresolved)
            else if DistroOf(e.deploy.value.kv, e.box) == "" then r == Err(NoIdentity)
            else if UserOf(e.deploy.value.kv, e.box) == "" then r == Err(NoIdentity)
            else if !e.keysMade then r == Err(NoKeys)
            else if PortOf(e).None? then r == Err(NoPort)
            else if e.clusters(e.deploy.value.target).None? then r == Err(NoClient)
            else r.Ok?
  {
  }

  /** What it settles: one key, one port, one directory and one identity for all steps after it. */
  lemma PreflightSettles(base: string, identity: string, e: Env)
    requires Preflight(base, identity, e).Ok?
    ensures e.deploy.Some? && PortOf(e).Some? && e.clusters(e.deploy.value.target).Some?
    ensures var c, d := Preflight(base, identity, e).value, e.deploy.value;
            var vm, namespace := "charly-" + identity, NamespaceOf(d.kv);
            var port, user := PortOf(e).value, UserOf(d.kv, e.box);
            && c.deploy == d && c.vm == vm && c.dir == base + "/charly-" + identity
            && c.VmKey() == Key(e.clusters(d.target).value, VirtualMachines, namespace, vm)
            && c.Forward() == Argv.Request(d.target.kubeconfig, d.target.context, namespace, vm, port)
            && c.SshStanza() == Stanza("127.0.0.1", port, user)
            && c.opts == RenderOptions(vm, namespace, DistroOf(d.kv, e.box), user, d.requiresExclusive)
  {
  }

  /* ----- the steps ----- */

  /** An image that has to be on a node this host reaches. */
  predicate NeedsDelivery(d: Deploy) {
    !d.dryRun && d.kv.source.kind == "container_disk" && d.kv.source.image != "" && d.nodeAlias != ""
  }

  /** The fixed list. */
  lemma PlanIs(d: Deploy)
    ensures Plan(d) == (if NeedsDelivery(d) then [Delivered] else [])
                       + [Rendered, Applied]
                       + (if d.dryRun then [] else [RunRequested, ReadySeen, AgentSeen, AddressSeen])
                       + [ForwardUp, StanzaPublished, IncludeEnsured]
                       + (if d.dryRun then [] else [SshUp, CloudInitDone, PackageLockFree, CharlyInstalled])
  {
  }

  /* ----- image delivery ----- */

  lemma UndeliveredStops(c: Case, e: Env, cr: Option<Object>, w: World)
    requires NeedsDelivery(c.deploy) && !e.delivered
    ensures Bringup(c, e, cr, w, Plan(c.deploy)) == (w, 0) && Plan(c.deploy)[0] == Delivered
  {
    PlanIs(c.deploy);
    assert Plan(c.deploy)[0] == Delivered;
  }

  /** A CR whose image has to be on the node is applied only after the image was delivered. */
  lemma AppliedMeansDelivered(c: Case, e: Env, cr: Option<Object>, w: World)
    requires NeedsDelivery(c.deploy) && Applied in Trace(c, e, cr, w)
    ensures e.delivered
  {
    if !e.delivered {
      UndeliveredStops(c, e, cr, w);
    }
  }

  /** Without it the call fails there, with the world as it was. */
  lemma UndeliveredFails(base: string, identity: string, e: Env, cr: Option<Object>, w: World)
    requires Preflight(base, identity, e).Ok? && NeedsDelivery(e.deploy.value) && !e.delivered
    ensures AfterPrepare(base, identity, e, cr, w) == (w, Err(Failed(Delivered)))
  {
    UndeliveredStops(Preflight(base, identity, e).value, e, cr, w);
  }

  function Flipped(e: Env): Env {
    e.(delivered := !e.delivered)
  }

  lemma {:induction false} FlippedRunsAlike(c: Case, e: Env, cr: Option<Object>, w: World, plan: seq<Stage>)
    requires Delivered !in plan
    ensures Bringup(c, e, cr, w, plan) == Bringup(c, Flipped(e), cr, w, plan)
    decreases |plan|
  {
    if plan != [] {
      assert plan[0] != Delivered;
      SameDo(c, e, cr, w, plan[0]);
      FlippedRunsAlike(c, e, cr, Do(c, e, cr, w, plan[0]).0, plan[1..]);
    }
  }

  lemma SameDo(c: Case, e: Env, cr: Option<Object>, w: World, stage: Stage)
    requires stage != Delivered
    ensures Do(c, e, cr, w, stage) == Do(c, Flipped(e), cr, w, stage)
  {
  }

  /**
   In every other case, a dry run, another source, no image, or a cluster this host does not reach, nothing
   is delivered: the outcome is the same whether a delivery would have worked or not.
   */
  lemma DeliveryIsNotAskedFor(base: string, identity: string, e: Env, cr: Option<Object>, w: World)
    requires e.deploy.Some? ==> !NeedsDelivery(e.deploy.value)
    ensures AfterPrepare(base, identity, e, cr, w) == AfterPrepare(base, identity, Flipped(e), cr, w)
  {
    SamePreflight(base, identity, e);
    if Preflight(base, identity, e).Ok? {
      var c := Preflight(base, identity, e).value;
      NothingDelivered(c.deploy);
      FlippedRunsAlike(c, e, cr, w, Plan(c.deploy));
    }
  }

  lemma SamePreflight(base: string, identity: string, e: Env)
    ensures Preflight(base, identity, e) == Preflight(base, identity, Flipped(e))
    ensures Preflight(base, identity, e).Ok? ==> Some(Preflight(base, identity, e).value.deploy) == e.deploy
  {
  }

  lemma NothingDelivered(d: Deploy)
    requires !NeedsDelivery(d)
    ensures Delivered !in Plan(d)
  {
    PlanIs(d);
  }

  /* ----- the waits ----- */

  /** Fifteen minutes for Ready, twenty for the agent, ten for the address. */
  function MinutesOf(stage: Stage): nat {
    match stage
    case ReadySeen => 15
    case AgentSeen => 20
    case _ => 10
  }

  /** A wait that gives up has waited its minutes, and at most a sleep and a Get longer. */
  lemma WaitGivesUpAfter(e: Env, stage: Stage, start: nat, latency: nat, slack: nat)
    requires stage in {ReadySeen, AgentSeen, AddressSeen} && P.Prompt(e.timing(stage), latency, slack)
    ensures var run, bound := WaitRun(e, stage, start), MinutesOf(stage) * 60_000_000_000;
            && (run.outcome.TimedOut? ==> run.finish > start + bound)
            && run.finish <= start + bound + 2_000_000_000 + latency + slack
            && run.outcome != P.TerminalPhase
  {
    var look := P.LookFor(LoopOf(stage));
    P.LoopsEndInTime(look, e.vmi, e.timing(stage), start, BoundOf(stage), WaitRun(e, stage, start), latency, slack);
    P.LoopsEndAsObserved(LoopOf(stage), e.vmi, e.timing(stage), start, BoundOf(stage), WaitRun(e, stage, start));
  }

  /** Do the three waits, each started when the one before ended, see what they wait for? */
  predicate WaitsSucceed(e: Env, start: nat) {
    var ready := WaitRun(e, ReadySeen, start);
    var agent := WaitRun(e, AgentSeen, ready.finish);
    ready.outcome.Returned? && agent.outcome.Returned? && WaitRun(e, AddressSeen, agent.finish).outcome.Returned?
  }

  const WAITS: seq<Stage> := [ReadySeen, AgentSeen, AddressSeen]

  lemma WaitDoes(c: Case, e: Env, cr: Option<Object>, w: World, stage: Stage)
    requires stage in {ReadySeen, AgentSeen, AddressSeen}
    ensures var run := WaitRun(e, stage, w.now);
            Do(c, e, cr, w, stage) == (w.(now := run.finish), run.outcome.Returned?)
  {
  }

  lemma FirstThen(c: Case, e: Env, cr: Option<Object>, w: World, w': World, ok: bool, stage: Stage, rest: seq<Stage>)
    requires Do(c, e, cr, w, stage) == (w', ok)
    ensures var (end, n) := Bringup(c, e, cr, w', rest);
            Bringup(c, e, cr, w, [stage] + rest) == if ok then (end, n + 1) else (w', 0)
  {
    assert ([stage] + rest)[1..] == rest;
  }

  lemma AddressWaitRuns(c: Case, e: Env, cr: Option<Object>, w: World)
    ensures var (w', n) := Bringup(c, e, cr, w, [AddressSeen]);
            (n == 1 <==> WaitRun(e, AddressSeen, w.now).outcome.Returned?) && w' == w.(now := w'.now)
  {
    WaitDoes(c, e, cr, w, AddressSeen);
    Single(c, e, cr, w, AddressSeen);
  }

  lemma AgentWaitRuns(c: Case, e: Env, cr: Option<Object>, w: World)
    ensures var (w', n) := Bringup(c, e, cr, w, [AgentSeen] + [AddressSeen]);
            var agent := WaitRun(e, AgentSeen, w.now);
            && (n == 2 <==> agent.outcome.Returned? && WaitRun(e, AddressSeen, agent.finish).outcome.Returned?)
            && w' == w.(now := w'.now)
  {
    var agent := WaitRun(e, AgentSeen, w.now);
    WaitDoes(c, e, cr, w, AgentSeen);
    FirstThen(c, e, cr, w, w.(now := agent.finish), agent.outcome.Returned?, AgentSeen, [AddressSeen]);
    AddressWaitRuns(c, e, cr, w.(now := agent.finish));
  }

  lemma WaitsRun(c: Case, e: Env, cr: Option<Object>, w: World)
    ensures var (w', n) := Bringup(c, e, cr, w, WAITS);
            (n == 3 <==> WaitsSucceed(e, w.now)) && w' == w.(now := w'.now)
  {
    var ready := WaitRun(e, ReadySeen, w.now);
    WaitDoes(c, e, cr, w, ReadySeen);
    FirstThen(c, e, cr, w, w.(now := ready.finish), ready.outcome.Returned?, ReadySeen, [AgentSeen] + [AddressSeen]);
    AgentWaitRuns(c, e, cr, w.(now := ready.finish));
    assert WAITS == [ReadySeen] + ([AgentSeen] + [AddressSeen]);
  }

  /* ----- when a bring-up succeeds ----- */

  predicate GuestIsReady(e: Env) {
    e.guest(SshUp) && e.guest(CloudInitDone) && e.guest(PackageLockFree) && e.guest(CharlyInstalled)
  }

  lemma GuestStepsRun(c: Case, e: Env, cr: Option<Object>, w: World)
    ensures Bringup(c, e, cr, w, GUEST_PLAN).1 == 4 <==> GuestIsReady(e)
  {
    assert GUEST_PLAN == [SshUp, CloudInitDone, PackageLockFree, CharlyInstalled];
    NextStage(c, e, cr, w, GUEST_PLAN, 0, w, w, e.guest(SshUp));
    if e.guest(SshUp) {
      NextStage(c, e, cr, w, GUEST_PLAN, 1, w, w, e.guest(CloudInitDone));
      if e.guest(CloudInitDone) {
        NextStage(c, e, cr, w, GUEST_PLAN, 2, w, w, e.guest(PackageLockFree));
        if e.guest(PackageLockFree) {
          NextStage(c, e, cr, w, GUEST_PLAN, 3, w, w, e.guest(CharlyInstalled));
        }
      }
    }
  }

  /** A forward can be had: one that speaks ssh is there, or a fresh one comes up. */
  predicate ForwardCanBeHad(h: HostState, dir: string, env: StartEnv) {
    || (LivePid(h, dir).Some? && SpeaksSSH(env.peer))
    || (env.virtctl.Some? && env.launch.started && env.launch.alive && !env.launch.runError)
  }

  predicate CanConnect(c: Case, e: Env, h: HostState) {
    && c.dir != "" && ForwardCanBeHad(h, c.dir, e.start) && e.stanzaWritten && e.includeEnsured
    && (!c.deploy.dryRun ==> GuestIsReady(e))
  }

  lemma ConnectRuns(c: Case, e: Env, cr: Option<Object>, w: World)
    requires Fresh(w.host, e.start.launch.pid)
    ensures Bringup(c, e, cr, w, ConnectPlan(c.deploy)).1 == |ConnectPlan(c.deploy)| <==> CanConnect(c, e, w.host)
  {
    var w1 := Bringup(c, e, cr, w, PUBLISH_PLAN).0;
    PublishDoes(c, e, cr, w);
    StartSucceedsIff(w.host, c.dir, c.Forward(), e.start);
    GuestStepsRun(c, e, cr, w1);
    BringupJoins(c, e, cr, w, PUBLISH_PLAN, GUEST_PLAN);
  }

  predicate CanBoot(c: Case, e: Env, cr: Option<Object>, start: nat) {
    && (NeedsDelivery(c.deploy) ==> e.delivered) && cr.Some?
    && (!c.deploy.dryRun ==> WaitsSucceed(e, start))
  }

  lemma QuietBootRuns(c: Case, e: Env, cr: Option<Object>, w: World)
    requires w.turns == []
    ensures var (w', n) := Bringup(c, e, cr, w, BootPlan(c.deploy));
            (n == |BootPlan(c.deploy)| <==> CanBoot(c, e, cr, w.now)) && w'.host == w.host
  {
    var d := c.deploy;
    var writes, waits := WritePlan(d), if d.dryRun then [] else WAITS;
    assert BootPlan(d) == writes + waits;
    QuietWrites(c, e, cr, w);
    HostIsLeft(c, e, cr, w, BootPlan(d));
    WaitsRun(c, e, cr, QuietlyWritten(c, e, cr, w));
    BringupJoins(c, e, cr, w, writes, waits);
  }

  /**
   With no other writer at the server, a bring-up succeeds exactly when: an image that needs it is delivered
   and the CR renders; unless dry, the VMI shows Ready, AgentConnected and an address, each in its minutes;
   a forward can be had; stanza and include are written; and, unless dry, the guest gets ready.
   */
  lemma QuietBringUpSucceedsIff(base: string, identity: string, e: Env, cr: Option<Object>, w: World)
    requires w.turns == [] && Fresh(w.host, e.start.launch.pid) && Preflight(base, identity, e).Ok?
    ensures var c, r := Preflight(base, identity, e).value, AfterPrepare(base, identity, e, cr, w).1;
            && (r.Ok? <==> CanBoot(c, e, cr, w.now) && CanConnect(c, e, w.host))
            && (r.Ok? ==> r.value == "charly-" + identity)
  {
    QuietBringupCompletesIff(Preflight(base, identity, e).value, e, cr, w);
  }

  lemma QuietBringupCompletesIff(c: Case, e: Env, cr: Option<Object>, w: World)
    requires w.turns == [] && Fresh(w.host, e.start.launch.pid)
    ensures Bringup(c, e, cr, w, Plan(c.deploy)).1 == |Plan(c.deploy)|
       <==> CanBoot(c, e, cr, w.now) && CanConnect(c, e, w.host)
  {
    var w1 := Bringup(c, e, cr, w, BootPlan(c.deploy)).0;
    QuietBootRuns(c, e, cr, w);
    ConnectRuns(c, e, cr, w1);
    BringupJoins(c, e, cr, w, BootPlan(c.deploy), ConnectPlan(c.deploy));
  }

  /** And the VM it leaves asks for Always, whatever was authored, and is the rendered CR otherwise. */
  lemma QuietBringUpRunsTheVm(c: Case, e: Env, cr: Option<Object>, w: World)
    requires w.turns == [] && !c.deploy.dryRun && Applied in Trace(c, e, cr, w)
    ensures cr.Some? && HasStrategy(Bringup(c, e, cr, w, Plan(c.deploy)).0.store, c.VmKey(), cr.value, "Always")
  {
    QuietBringUpConverges(c, e, cr, w);
    PutHasStrategy(w.store.Put(c.VmKey(), cr.value), c.VmKey(), cr.value, "Always");
  }

  /* ----- the calls after it ----- */

  /** With a prior state: its context, no kubeconfig, and its namespace. */
  lemma RecomputedFromPrior(prior: Prior, clusters: Clusters, identity: string)
    ensures var cluster := clusters(Connection("", prior.context));
            RecomputedKey(Some(prior), clusters, VmName(identity))
            == if cluster.None? then None
               else
                 var namespace := if prior.namespace == "" then "default" else prior.namespace;
                 Some(Key(cluster.value, VirtualMachines, namespace, "charly-" + identity))
  {
  }

  /** A start or stop: when it succeeds, and the strategy it leaves. */
  lemma SwitchWrites(identity: string, clusters: Clusters, start: bool, w: World)
    ensures var (w', ok) := AfterState(identity, clusters, start, w);
            var cluster, met := clusters(Connection("", "")), Others(w.store, Head(w.turns).writes);
            if cluster.None? then !ok && w' == w
            else
              var key := Key(cluster.value, VirtualMachines, "default", "charly-" + identity);
              && (ok <==> !Head(w.turns).refused && key in met.entries)
              && (ok ==> HasStrategy(w'.store, key, met.entries[key].body, if start then "Always" else "Halted"))
              && (!ok ==> w'.store == met)
              && w'.host == w.host && w'.ssh == w.ssh
  {
    if clusters(Connection("", "")).Some? {
      var key := Key(clusters(Connection("", "")).value, VirtualMachines, "default", "charly-" + identity);
      PatchWrites(w.store, w.turns, key, if start then "Always" else "Halted");
    }
  }
}
