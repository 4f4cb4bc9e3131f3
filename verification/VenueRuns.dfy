/** What the venue calls guarantee, one by one and over whole runs. */
module VenueRuns {
  import opened ApiServer
  import opened Clock
  import opened ClusterOps
  import opened Entity
  import opened JsonValues
  import opened PortForward
  import opened RunStrategy
  import opened Venue
  import opened Wrappers
  import Argv = PortForwardArgv
  import NF = NormalForm
  import P = Polling
  import R = Render
  import V = Validate

  /* ----- one bring-up: order and time ----- */

  /** The stages a bring-up completed. */
  ghost function Trace(c: Case, e: Env, cr: Option<Object>, w: World): seq<Stage> {
    Plan(c.deploy)[..Bringup(c, e, cr, w, Plan(c.deploy)).1]
  }

  /** At time t the VMI showed what the stage waits for. */
  predicate Shows(e: Env, stage: Stage, t: nat) {
    e.vmi(t).Found? &&
    match stage
    case ReadySeen => P.HasCondition(e.vmi(t).body, "Ready")
    case AgentSeen => P.HasCondition(e.vmi(t).body, "AgentConnected")
    case _ => P.InterfaceIP(e.vmi(t).body) != ""
  }

  lemma WaitShows(e: Env, stage: Stage, start: nat) returns (t: nat)
    requires stage in {ReadySeen, AgentSeen, AddressSeen} && WaitRun(e, stage, start).outcome.Returned?
    ensures start <= t <= WaitRun(e, stage, start).finish && Shows(e, stage, t)
  {
    t := P.ReturnedIsAnswered(P.LookFor(LoopOf(stage)), e.vmi, e.timing(stage), start, BoundOf(stage),
                              WaitRun(e, stage, start));
  }

  /** The three waits show their conditions one after the other. */
  ghost predicate ShownInOrder(e: Env, from: nat, to: nat) {
    exists t1, t2, t3 :: from <= t1 <= t2 <= t3 <= to && Shows(e, ReadySeen, t1) && Shows(e, AgentSeen, t2)
        && Shows(e, AddressSeen, t3)
  }

  lemma {:induction false} ClockNeverFalls(c: Case, e: Env, cr: Option<Object>, w: World, plan: seq<Stage>)
    ensures w.now <= Bringup(c, e, cr, w, plan).0.now
    decreases |plan|
  {
    if plan != [] {
      StageTime(c, e, cr, w, plan[0]);
      ClockNeverFalls(c, e, cr, Do(c, e, cr, w, plan[0]).0, plan[1..]);
    }
  }

  lemma StageTime(c: Case, e: Env, cr: Option<Object>, w: World, stage: Stage)
    ensures w.now <= Do(c, e, cr, w, stage).0.now
  {
    if stage in {ReadySeen, AgentSeen, AddressSeen} {
      P.RunsTakeTime(P.LookFor(LoopOf(stage)), e.vmi, e.timing(stage), w.now, BoundOf(stage), WaitRun(e, stage, w.now));
    }
  }

  lemma SplitAt(c: Case, e: Env, cr: Option<Object>, w: World, plan: seq<Stage>, i: nat)
    requires i <= |plan|
    ensures var (wi, n) := Bringup(c, e, cr, w, plan[..i]);
            Bringup(c, e, cr, w, plan) == if n < i then (wi, n)
                                          else (Bringup(c, e, cr, wi, plan[i..]).0,
                                                n + Bringup(c, e, cr, wi, plan[i..]).1)
  {
    BringupJoins(c, e, cr, w, plan[..i], plan[i..]);
    assert plan == plan[..i] + plan[i..];
  }

  lemma Single(c: Case, e: Env, cr: Option<Object>, w: World, stage: Stage)
    ensures var (w', ok) := Do(c, e, cr, w, stage); Bringup(c, e, cr, w, [stage]) == (w', if ok then 1 else 0)
  {
  }

  lemma FirstIsDone(c: Case, e: Env, cr: Option<Object>, w: World, plan: seq<Stage>)
    requires Bringup(c, e, cr, w, plan).1 > 0
    ensures Do(c, e, cr, w, plan[0]).1
  {
  }

  lemma LastIsDone(c: Case, e: Env, cr: Option<Object>, w: World, plan: seq<Stage>, i: nat)
    requires i < |plan| && Bringup(c, e, cr, w, plan[..i]).1 == i
             && Do(c, e, cr, Bringup(c, e, cr, w, plan[..i]).0, plan[i]).1
    ensures Bringup(c, e, cr, w, plan[..i + 1]) == (Do(c, e, cr, Bringup(c, e, cr, w, plan[..i]).0, plan[i]).0, i + 1)
  {
    BringupJoins(c, e, cr, w, plan[..i], [plan[i]]);
    Single(c, e, cr, Bringup(c, e, cr, w, plan[..i]).0, plan[i]);
    assert plan[..i] + [plan[i]] == plan[..i + 1];
  }

  /** A completed stage was done in the world the stages before it left. */
  lemma Completed(c: Case, e: Env, cr: Option<Object>, w: World, plan: seq<Stage>, i: nat)
    requires i < Bringup(c, e, cr, w, plan).1
    ensures var (wi, n) := Bringup(c, e, cr, w, plan[..i]);
            && n == i && Do(c, e, cr, wi, plan[i]).1
            && Bringup(c, e, cr, w, plan[..i + 1]) == (Do(c, e, cr, wi, plan[i]).0, i + 1)
  {
    SplitAt(c, e, cr, w, plan, i);
    FirstIsDone(c, e, cr, Bringup(c, e, cr, w, plan[..i]).0, plan[i..]);
    LastIsDone(c, e, cr, w, plan, i);
  }

  /** The clock at the end is no earlier than after any completed prefix. */
  lemma PrefixIsEarlier(c: Case, e: Env, cr: Option<Object>, w: World, plan: seq<Stage>, i: nat)
    requires i <= Bringup(c, e, cr, w, plan).1
    ensures w.now <= Bringup(c, e, cr, w, plan[..i]).0.now <= Bringup(c, e, cr, w, plan).0.now
  {
    SplitAt(c, e, cr, w, plan, i);
    ClockNeverFalls(c, e, cr, w, plan[..i]);
    ClockNeverFalls(c, e, cr, Bringup(c, e, cr, w, plan[..i]).0, plan[i..]);
  }

  /** A completed wait shows its condition between its start and its end. */
  lemma CompletedWait(c: Case, e: Env, cr: Option<Object>, w: World, plan: seq<Stage>, i: nat) returns (t: nat)
    requires i < Bringup(c, e, cr, w, plan).1 && plan[i] in {ReadySeen, AgentSeen, AddressSeen}
    ensures Bringup(c, e, cr, w, plan[..i]).0.now <= t <= Bringup(c, e, cr, w, plan[..i + 1]).0.now
            && Shows(e, plan[i], t)
  {
    Completed(c, e, cr, w, plan, i);
    t := WaitShows(e, plan[i], Bringup(c, e, cr, w, plan[..i]).0.now);
  }

  /**
   Outside dry runs, a bring-up that gets to the forward has applied the CR, asked for it to run, and
   seen the VMI ready, then its agent, then its address. A dry run goes straight from apply to forward.
   */
  lemma ForwardFollowsTheWaits(c: Case, e: Env, cr: Option<Object>, w: World)
    requires ForwardUp in Trace(c, e, cr, w)
    ensures BootPlan(c.deploy) <= Trace(c, e, cr, w)
    ensures !c.deploy.dryRun ==> BootPlan(c.deploy) == ApplyPlan(c.deploy) + WAIT_PLAN
    ensures !c.deploy.dryRun ==> ShownInOrder(e, w.now, Bringup(c, e, cr, w, Plan(c.deploy)).0.now)
    ensures c.deploy.dryRun ==> Trace(c, e, cr, w) <= [Rendered, Applied, ForwardUp, StanzaPublished, IncludeEnsured]
  {
    var plan, k := Plan(c.deploy), |ApplyPlan(c.deploy)|;
    ForwardComesAfterBoot(c.deploy, Bringup(c, e, cr, w, plan).1);
    if !c.deploy.dryRun {
      ShownIn(c, e, cr, w, plan, k + 1);
    }
  }

  lemma ShownIn(c: Case, e: Env, cr: Option<Object>, w: World, plan: seq<Stage>, k: nat)
    requires k + 3 <= Bringup(c, e, cr, w, plan).1 && plan[k..k + 3] == [ReadySeen, AgentSeen, AddressSeen]
    ensures ShownInOrder(e, w.now, Bringup(c, e, cr, w, plan).0.now)
  {
    PrefixIsEarlier(c, e, cr, w, plan, k);
    PrefixIsEarlier(c, e, cr, w, plan, k + 3);
    assert plan[k] == plan[k..k + 3][0] && plan[k + 1] == plan[k..k + 3][1] && plan[k + 2] == plan[k..k + 3][2];
    var t1 := CompletedWait(c, e, cr, w, plan, k);
    var t2 := CompletedWait(c, e, cr, w, plan, k + 1);
    var t3 := CompletedWait(c, e, cr, w, plan, k + 2);
  }

  lemma ForwardComesAfterBoot(d: Deploy, n: nat)
    requires n <= |Plan(d)| && ForwardUp in Plan(d)[..n]
    ensures n > |BootPlan(d)| && BootPlan(d) <= Plan(d)[..n]
    ensures !d.dryRun ==> Plan(d)[|ApplyPlan(d)| + 1..|ApplyPlan(d)| + 4] == [ReadySeen, AgentSeen, AddressSeen]
    ensures d.dryRun ==> Plan(d)[..n] <= [Rendered, Applied, ForwardUp, StanzaPublished, IncludeEnsured]
  {
  }

  /** The longest the waits among these stages can take. */
  function Budget(plan: seq<Stage>, latency: nat, slack: nat): nat {
    if plan == [] then 0 else StageBudget(plan[0], latency, slack) + Budget(plan[1..], latency, slack)
  }

  function StageBudget(stage: Stage, latency: nat, slack: nat): nat {
    if stage in {ReadySeen, AgentSeen, AddressSeen} then BoundOf(stage) + P.POLL_SLEEP + slack + latency else 0
  }

  lemma {:induction false} StaysInBudget(c: Case, e: Env, cr: Option<Object>, w: World, plan: seq<Stage>, latency: nat,
                                         slack: nat)
    requires forall stage :: P.Prompt(e.timing(stage), latency, slack)
    ensures Bringup(c, e, cr, w, plan).0.now <= w.now + Budget(plan, latency, slack)
    decreases |plan|
  {
    if plan != [] {
      StageInBudget(c, e, cr, w, plan[0], latency, slack);
      StaysInBudget(c, e, cr, Do(c, e, cr, w, plan[0]).0, plan[1..], latency, slack);
    }
  }

  lemma StageInBudget(c: Case, e: Env, cr: Option<Object>, w: World, stage: Stage, latency: nat, slack: nat)
    requires P.Prompt(e.timing(stage), latency, slack)
    ensures Do(c, e, cr, w, stage).0.now <= w.now + StageBudget(stage, latency, slack)
  {
    if stage in {ReadySeen, AgentSeen, AddressSeen} {
      P.LoopsEndInTime(P.LookFor(LoopOf(stage)), e.vmi, e.timing(stage), w.now, BoundOf(stage),
                       WaitRun(e, stage, w.now), latency, slack);
    }
  }

  lemma {:induction false} BudgetsAdd(p: seq<Stage>, q: seq<Stage>, latency: nat, slack: nat)
    ensures Budget(p + q, latency, slack) == Budget(p, latency, slack) + Budget(q, latency, slack)
  {
    if p == [] {
      assert p + q == q;
    } else {
      assert (p + q)[1..] == p[1..] + q;
      BudgetsAdd(p[1..], q, latency, slack);
    }
  }

  /** However a bring-up ends, its waits together take at most 45 minutes and three sleeps, Gets and oversleeps. */
  lemma WaitsTakeAtMost(c: Case, e: Env, cr: Option<Object>, w: World, latency: nat, slack: nat)
    requires forall stage :: P.Prompt(e.timing(stage), latency, slack)
    ensures Bringup(c, e, cr, w, Plan(c.deploy)).0.now <= w.now + (2700 + 6) * SECOND + 3 * (latency + slack)
    ensures c.deploy.dryRun ==> Bringup(c, e, cr, w, Plan(c.deploy)).0.now == w.now
  {
    StaysInBudget(c, e, cr, w, Plan(c.deploy), latency, slack);
    ClockNeverFalls(c, e, cr, w, Plan(c.deploy));
    BudgetsAdd(BootPlan(c.deploy), ConnectPlan(c.deploy), latency, slack);
    NoWaits(ApplyPlan(c.deploy), latency, slack);
    NoWaits(ConnectPlan(c.deploy), latency, slack);
    if !c.deploy.dryRun {
      BudgetsAdd(ApplyPlan(c.deploy), WAIT_PLAN, latency, slack);
      WaitBudget(latency, slack);
    }
  }

  lemma WaitBudget(latency: nat, slack: nat)
    ensures Budget(WAIT_PLAN, latency, slack) == (2700 + 6) * SECOND + 3 * (latency + slack)
  {
    assert WAIT_PLAN[1..] == [ReadySeen, AgentSeen, AddressSeen];
    assert WAIT_PLAN[1..][1..] == [AgentSeen, AddressSeen];
    assert WAIT_PLAN[1..][1..][1..] == [AddressSeen];
    assert Budget([AddressSeen], latency, slack) == ADDRESS_WAIT + P.POLL_SLEEP + slack + latency;
    assert Budget([AgentSeen, AddressSeen], latency, slack) == AGENT_WAIT + P.POLL_SLEEP + slack + latency
           + Budget([AddressSeen], latency, slack);
  }

  lemma {:induction false} NoWaits(plan: seq<Stage>, latency: nat, slack: nat)
    requires forall i | 0 <= i < |plan| :: plan[i] !in {ReadySeen, AgentSeen, AddressSeen}
    ensures Budget(plan, latency, slack) == 0
  {
    if plan != [] {
      NoWaits(plan[1..], latency, slack);
    }
  }

  /* ----- one bring-up: what validation buys ----- */

  /**
   A valid entity that is no containerDisk never fails the preflight for want of an identity, and its
   bring-up never stops at rendering unless the shared cloud-init renderer itself failed.
   */
  lemma ValidEntitiesRender(base: string, identity: string, e: Env, knownDistros: set<string>)
    requires e.deploy.Some? && e.deploy.value.kv.source.kind != "container_disk"
    requires V.Valid(V.BodyOf(e.deploy.value.kv), knownDistros)
    ensures Preflight(base, identity, e) != Err(NoIdentity)
    ensures Preflight(base, identity, e).Ok? ==>
              var c := Preflight(base, identity, e).value;
              && c.user == c.deploy.kv.sshUser != "" && !Delivers(c.deploy)
              && (CrOf(c, e).None? <==> c.deploy.kv.hasCloudInit && e.files.Err?)
  {
    if Preflight(base, identity, e).Ok? {
      V.ValidIdentityResolves(e.deploy.value.kv, knownDistros, Preflight(base, identity, e).value.opts, e.files);
    }
  }

  /* ----- one bring-up: what it leaves ----- */

  /** Where a bring-up that nobody disturbs at the server stops before the waits, if it does. */
  function EarlyFailure(c: Case, e: Env, cr: Option<Object>): Option<Stage> {
    if Delivers(c.deploy) && !e.delivered then Some(Delivered) else if cr.None? then Some(Rendered) else None
  }

  /** With no other writer about: nothing, or a CR that is applied, and running unless this is a dry run. */
  lemma QuietBringUpConverges(c: Case, e: Env, cr: Option<Object>, w: World)
    requires w.turns == []
    ensures var store, trace := Bringup(c, e, cr, w, Plan(c.deploy)).0.store, Trace(c, e, cr, w);
            && (Applied in trace <==> EarlyFailure(c, e, cr) == None)
            && Bringup(c, e, cr, w, Plan(c.deploy)).0.turns == []
            && store == (if Applied !in trace then w.store
                         else if c.deploy.dryRun then w.store.Put(c.VmKey(), cr.value)
                         else AppliedAndRunning(w.store, c.VmKey(), cr.value))
  {
    var d := c.deploy;
    var first, rest := WritePlan(d), (if d.dryRun then [] else [ReadySeen, AgentSeen, AddressSeen]) + ConnectPlan(d);
    assert Plan(d) == first + rest;
    QuietWrites(c, e, cr, w);
    var w1 := QuietlyWritten(c, e, cr, w);
    BringupJoins(c, e, cr, w, first, rest);
    StoreIsLeft(c, e, cr, w1, rest);
    AppliedIsLast(d, Bringup(c, e, cr, w, Plan(d)).1);
  }

  function WritePlan(d: Deploy): seq<Stage> {
    ApplyPlan(d) + if d.dryRun then [] else [RunRequested]
  }

  lemma AppliedIsLast(d: Deploy, n: nat)
    requires n <= |Plan(d)|
    ensures Applied in Plan(d)[..n] <==> n >= |ApplyPlan(d)|
  {
    var k := |ApplyPlan(d)| - 1;
    assert Plan(d)[k] == Applied;
    if n > k { assert Plan(d)[..n][k] == Applied; }
    assert forall i | 0 <= i < k :: Plan(d)[i] == ApplyPlan(d)[i] != Applied;
  }

  function QuietlyWritten(c: Case, e: Env, cr: Option<Object>, w: World): World {
    if EarlyFailure(c, e, cr).Some? || cr.None? then w
    else w.(store := if c.deploy.dryRun then w.store.Put(c.VmKey(), cr.value)
            else AppliedAndRunning(w.store, c.VmKey(), cr.value))
  }

  lemma QuietWrites(c: Case, e: Env, cr: Option<Object>, w: World)
    requires w.turns == []
    ensures Reached(c, e, cr, w, WritePlan(c.deploy), EarlyFailure(c, e, cr), QuietlyWritten(c, e, cr, w))
  {
    var plan, i := WritePlan(c.deploy), 0;
    if Delivers(c.deploy) {
      NextStage(c, e, cr, w, plan, 0, w, w, e.delivered);
      if !e.delivered { return; }
      i := 1;
    }
    NextStage(c, e, cr, w, plan, i, w, w, cr.Some?);
    if cr.None? { return; }
    var w1 := w.(store := w.store.Put(c.VmKey(), cr.value));
    NextStage(c, e, cr, w, plan, i + 1, w, w1, true);
    if !c.deploy.dryRun {
      var w2 := w.(store := AppliedAndRunning(w.store, c.VmKey(), cr.value));
      NextStage(c, e, cr, w, plan, i + 2, w1, w2, true);
    }
  }

  lemma {:induction false} StoreIsLeft(c: Case, e: Env, cr: Option<Object>, w: World, plan: seq<Stage>)
    requires forall i | 0 <= i < |plan| :: plan[i] !in {Applied, RunRequested}
    ensures Bringup(c, e, cr, w, plan).0.store == w.store && Bringup(c, e, cr, w, plan).0.turns == w.turns
    decreases |plan|
  {
    if plan != [] {
      StoreIsLeft(c, e, cr, Do(c, e, cr, w, plan[0]).0, plan[1..]);
    }
  }

  /* ----- one bring-up: the forward and its stanza ----- */

  lemma {:induction false} HostIsLeft(c: Case, e: Env, cr: Option<Object>, w: World, plan: seq<Stage>)
    requires forall i | 0 <= i < |plan| :: plan[i] != ForwardUp
    ensures Bringup(c, e, cr, w, plan).0.host == w.host
    decreases |plan|
  {
    if plan != [] {
      HostIsLeft(c, e, cr, Do(c, e, cr, w, plan[0]).0, plan[1..]);
    }
  }

  lemma {:induction false} SshIsLeft(c: Case, e: Env, cr: Option<Object>, w: World, plan: seq<Stage>)
    requires forall i | 0 <= i < |plan| :: plan[i] !in {StanzaPublished, IncludeEnsured}
    ensures Bringup(c, e, cr, w, plan).0.ssh == w.ssh
    decreases |plan|
  {
    if plan != [] {
      SshIsLeft(c, e, cr, Do(c, e, cr, w, plan[0]).0, plan[1..]);
    }
  }

  /** The three publishing stages. */
  lemma PublishDoes(c: Case, e: Env, cr: Option<Object>, w: World)
    ensures var (w', n) := Bringup(c, e, cr, w, PUBLISH_PLAN);
            var (h, r) := AfterStart(w.host, c.dir, c.Forward(), e.start);
            && w'.host == h
            && (n >= 1 <==> r.Ok?) && (n >= 2 <==> r.Ok? && e.stanzaWritten) && (n == 3 <==> n >= 2 && e.includeEnsured)
            && w'.ssh == SshState(if n >= 2 then w.ssh.stanzas[c.vm := c.SshStanza()] else w.ssh.stanzas,
                                  w.ssh.included || n == 3)
  {
  }

  /** What a bring-up does to the host and the ssh config: nothing, unless it gets as far as the forward. */
  lemma BringUpPublishes(c: Case, e: Env, cr: Option<Object>, w: World)
    ensures var (w', n) := Bringup(c, e, cr, w, Plan(c.deploy));
            var k := |BootPlan(c.deploy)|;
            var (h, r) := AfterStart(w.host, c.dir, c.Forward(), e.start);
            && w'.host == (if n < k then w.host else h)
            && (n >= k + 1 <==> n >= k && r.Ok?)
            && (n >= k + 2 <==> n >= k + 1 && e.stanzaWritten)
            && (n >= k + 3 <==> n >= k + 2 && e.includeEnsured)
            && w'.ssh == SshState(if n >= k + 2 then w.ssh.stanzas[c.vm := c.SshStanza()] else w.ssh.stanzas,
                                  w.ssh.included || n >= k + 3)
  {
    var d := c.deploy;
    var boot, guest := BootPlan(d), if d.dryRun then [] else GUEST_PLAN;
    var w1 := Bringup(c, e, cr, w, boot).0;
    HostIsLeft(c, e, cr, w, boot);
    SshIsLeft(c, e, cr, w, boot);
    PublishDoes(c, e, cr, w1);
    var w2 := Bringup(c, e, cr, w1, PUBLISH_PLAN).0;
    HostIsLeft(c, e, cr, w2, guest);
    SshIsLeft(c, e, cr, w2, guest);
    assert ConnectPlan(d) == PUBLISH_PLAN + guest;
    BringupJoins(c, e, cr, w1, PUBLISH_PLAN, guest);
    BringupJoins(c, e, cr, w, boot, ConnectPlan(d));
  }

  /**
   A published stanza belongs to a live forward: its alias is the VM, its port the one the forward was
   asked for. That forward was launched for exactly this request, unless it is an older one of the
   directory, launched for another, while the port answers with "SSH-".
   */
  lemma StanzaHasAForward(c: Case, e: Env, cr: Option<Object>, w: World)
    requires HostInv(w.host) && Fresh(w.host, e.start.launch.pid)
    requires StanzaPublished in Trace(c, e, cr, w)
    ensures var w' := Bringup(c, e, cr, w, Plan(c.deploy)).0;
            var before, live := LivePid(w.host, c.dir), LivePid(w'.host, c.dir);
            && c.vm in w'.ssh.stanzas && w'.ssh.stanzas[c.vm] == Stanza("127.0.0.1", c.port, c.user)
            && live.Some? && w'.host.groups[live.value].dir == c.dir
            && (w'.host.groups[live.value].request == c.Forward()
                <==> !(before.Some? && SpeaksSSH(e.start.peer) && w.host.groups[before.value].request != c.Forward()))
            && c.Forward() == Argv.Request(c.deploy.target.kubeconfig, c.deploy.target.context, c.namespace, c.vm,
                                           c.port)
  {
    BringUpPublishes(c, e, cr, w);
    StanzaIsLate(c.deploy, Bringup(c, e, cr, w, Plan(c.deploy)).1);
    HandleIsLive(w.host, c.dir, c.Forward(), e.start);
    RequestIsServedIff(w.host, c.dir, c.Forward(), e.start);
  }

  lemma StanzaIsLate(d: Deploy, n: nat)
    requires n <= |Plan(d)| && StanzaPublished in Plan(d)[..n]
    ensures n >= |BootPlan(d)| + 2
  {
  }

  /* ----- the include line ----- */

  /** The include is there exactly while some stanza is. */
  predicate IncludeFits(ssh: SshState) {
    ssh.included <==> ssh.stanzas != map[]
  }

  /** A bring-up breaks that exactly by getting the first stanza published and then failing to ensure the include. */
  lemma PrepareKeepsIncludeIff(c: Case, e: Env, cr: Option<Object>, w: World)
    requires IncludeFits(w.ssh)
    ensures IncludeFits(Bringup(c, e, cr, w, Plan(c.deploy)).0.ssh)
       <==> !(&& Bringup(c, e, cr, w, BootPlan(c.deploy)).1 == |BootPlan(c.deploy)|
              && AfterStart(w.host, c.dir, c.Forward(), e.start).1.Ok?
              && e.stanzaWritten && !e.includeEnsured && w.ssh.stanzas == map[])
  {
    BringUpPublishes(c, e, cr, w);
    BringupJoins(c, e, cr, w, BootPlan(c.deploy), ConnectPlan(c.deploy));
    assert c.vm in w.ssh.stanzas[c.vm := c.SshStanza()];
  }

  /** A teardown breaks it only by removing the last stanza and then failing to remove the include. */
  lemma TeardownKeepsIncludeIff(ssh: SshState, vm: string, e: TeardownEnv)
    requires IncludeFits(ssh)
    ensures IncludeFits(AfterCleanup(ssh, vm, e))
       <==> !(e.stanzaRemoved && !e.includeRemoved && ssh.stanzas != map[] && ssh.stanzas - {vm} == map[])
  {
  }

  /* ----- the DataVolumes of two deploys ----- */

  /** The DataVolume the cluster makes from the template of a CR. */
  function DataVolumeKey(c: Case, cr: Option<Object>): Option<Key> {
    if cr.None? || R.TemplatesIn(cr.value) == [] then None
    else Some(Key(c.cluster, DataVolumes, c.namespace, R.TemplateName(R.TemplatesIn(cr.value)[0])))
  }

  /**
   VM names do not keep DataVolumes apart: two deploys that render name the same one exactly when both
   boot from a DataVolume in the same namespace of the same cluster.
   */
  lemma DataVolumesCollideIff(c: Case, e: Env, c': Case, e': Env)
    ensures var key, key' := DataVolumeKey(c, CrOf(c, e)), DataVolumeKey(c', CrOf(c', e'));
            key.Some? && key == key'
            <==> && CrOf(c, e).Some? && CrOf(c', e').Some?
                 && IsDataVolumeKind(c.deploy.kv.source.kind) && IsDataVolumeKind(c'.deploy.kv.source.kind)
                 && c.cluster == c'.cluster && c.namespace == c'.namespace
  {
    DataVolumeKeyIs(c, e);
    DataVolumeKeyIs(c', e');
  }

  lemma DataVolumeKeyIs(c: Case, e: Env)
    ensures DataVolumeKey(c, CrOf(c, e))
         == if CrOf(c, e).Some? && IsDataVolumeKind(c.deploy.kv.source.kind)
            then Some(Key(c.cluster, DataVolumes, c.namespace, "boot"))
            else None
  {
    R.GuestOfCr(c.deploy.kv, c.opts, R.FilesOf(e.files));
    R.DataVolumeKinds(c.deploy.kv.source);
    R.BootTemplate(NF.BootOf(c.deploy.kv.source));
  }

  /* ----- teardown ----- */

  /**
   After teardown: no live supervisor, no pidfile; no process at all of the deploy's forwards exactly when
   none of them, however old, had a virtctl running; the stanza gone when its removal worked; and the VM
   gone when the cluster took the delete and the recomputed key is the key the deploy was applied under.
   Any other key keeps what the others left there.
   */
  lemma TeardownClears(base: string, identity: string, e: TeardownEnv, w: World, key: Key)
    requires HostInv(w.host)
    ensures var w', vm := AfterTeardown(base, identity, e, w), VmName(identity);
            var s1 := Others(w.store, Head(w.turns).writes);
            && StateDir(base, vm) !in w'.host.pidFiles
            && (forall p | p in w'.host.groups && w'.host.groups[p].dir == StateDir(base, vm) ::
                !w'.host.groups[p].alive)
            && (DirIsEmpty(w'.host, StateDir(base, vm))
                <==> forall p | p in w.host.groups && w.host.groups[p].dir == StateDir(base, vm) ::
                     w.host.groups[p].loop.running == {})
            && (vm in w'.ssh.stanzas <==> vm in w.ssh.stanzas && !e.stanzaRemoved)
            && (e.clusters(RecomputedConnection(e.prior)).Some? ==>
                  (key in w'.store.entries <==>
                     && key in s1.entries
                     && (Head(w.turns).refused || RecomputedKey(e.prior, e.clusters, vm) != Some(key))))
            && (e.clusters(RecomputedConnection(e.prior)).None? ==> w'.store == w.store)
  {
    PidfileStopEmptiesDirIff(w.host, StateDir(base, VmName(identity)));
  }

  /**
   Without a prior state, teardown and the state switch reach a deploy exactly when it uses the ambient cluster's
   default namespace.
   */
  lemma RecomputedIffDefault(base: string, identity: string, e: Env, clusters: Clusters)
    requires Preflight(base, identity, e).Ok?
    ensures var c := Preflight(base, identity, e).value;
            RecomputedKey(None, clusters, VmName(identity)) == Some(c.VmKey())
            <==> c.deploy.kv.namespace in {"", "default"} && clusters(Connection("", "")) == Some(c.cluster)
  {
  }

  /** Elsewhere, a start or stop leaves the deploy's VM to the others, and so does a teardown. */
  lemma UnreachedVmSurvives(base: string, identity: string, e: TeardownEnv, clusters: Clusters, start: bool, w: World,
                            key: Key)
    requires RecomputedKey(None, clusters, VmName(identity)) != Some(key)
             && RecomputedKey(e.prior, e.clusters, VmName(identity)) != Some(key)
    requires key in w.store.entries && Head(w.turns).writes == []
    ensures Untouched(w.store, AfterState(identity, clusters, start, w).0.store, key)
    ensures Untouched(w.store, AfterTeardown(base, identity, e, w).store, key)
  {
  }

  /** For instance: a deploy in namespace "prod" of the ambient cluster outlives its teardown. */
  lemma NamespacedVmOutlivesTeardown(base: string, e: Env, te: TeardownEnv, w: World, c: Case)
    requires Preflight(base, "web", e) == Ok(c) && c.deploy.kv.namespace == "prod"
    requires te.prior == None && w.turns == [] && c.VmKey() in w.store.entries
    ensures c.VmKey() == Key(c.cluster, VirtualMachines, "prod", "charly-web")
    ensures Untouched(w.store, AfterTeardown(base, "web", te, w).store, c.VmKey())
  {
  }

  /**
   w' is w as far as cluster, pidfiles and ssh config go, and no supervisor of dir is live; its processes
   are all gone exactly when none had a virtctl running before.
   */
  ghost predicate BackTo(w: World, w': World, before: HostState, dir: string) {
    && Contents(w'.store) == Contents(w.store) && w'.host.pidFiles == w.host.pidFiles && w'.ssh == w.ssh
    && (forall p | p in w'.host.groups && w'.host.groups[p].dir == dir :: !w'.host.groups[p].alive)
    && (DirIsEmpty(w'.host, dir)
        <==> forall p | p in before.groups && before.groups[p].dir == dir :: before.groups[p].loop.running == {})
  }

  /**
   Teardown undoes a bring-up, however far that got and whatever the supervisors did meanwhile: for a
   deploy that was not there and that teardown recomputes rightly, cluster, pidfiles and ssh config are
   as before.
   */
  lemma TeardownUndoesPrepare(base: string, identity: string, c: Case, e: Env, cr: Option<Object>, te: TeardownEnv,
                              w: World, meanwhile: HostState)
    requires HostInv(meanwhile)
    requires Preflight(base, identity, e) == Ok(c) && w.turns == [] && IncludeFits(w.ssh)
    requires c.VmKey() !in w.store.entries && RecomputedKey(te.prior, te.clusters, c.vm) == Some(c.VmKey())
    requires c.vm !in w.ssh.stanzas && te.stanzaRemoved && te.includeRemoved
    requires c.dir !in w.host.pidFiles
    requires meanwhile.pidFiles - {c.dir} == AfterPrepare(base, identity, e, cr, w).0.host.pidFiles - {c.dir}
    ensures BackTo(w, AfterTeardown(base, identity, te, AfterPrepare(base, identity, e, cr, w).0.(host := meanwhile)),
                   meanwhile, c.dir)
  {
    assert c.vm == VmName(identity) && c.dir == StateDir(base, c.vm);
    BringupIsUndone(base, identity, c, e, cr, te, w, meanwhile);
  }

  lemma BringupIsUndone(base: string, identity: string, c: Case, e: Env, cr: Option<Object>, te: TeardownEnv, w: World,
                        meanwhile: HostState)
    requires HostInv(meanwhile) && w.turns == [] && IncludeFits(w.ssh)
    requires c.vm == VmName(identity) && c.dir == StateDir(base, c.vm)
    requires c.VmKey() !in w.store.entries && RecomputedKey(te.prior, te.clusters, c.vm) == Some(c.VmKey())
    requires c.vm !in w.ssh.stanzas && te.stanzaRemoved && te.includeRemoved && c.dir !in w.host.pidFiles
    requires meanwhile.pidFiles - {c.dir} == Bringup(c, e, cr, w, Plan(c.deploy)).0.host.pidFiles - {c.dir}
    ensures BackTo(w, AfterTeardown(base, identity, te, Bringup(c, e, cr, w, Plan(c.deploy)).0.(host := meanwhile)),
                   meanwhile, c.dir)
  {
    var w1 := Bringup(c, e, cr, w, Plan(c.deploy)).0;
    RemovedAgain(c, e, cr, w);
    BringUpPublishes(c, e, cr, w);
    PidFilesElsewhere(w.host, c.dir, c.Forward(), e.start);
    assert w.host.pidFiles - {c.dir} == w.host.pidFiles;
    StanzaRemovedAgain(w.ssh, w1.ssh, c.vm, te);
    TornDown(base, identity, te, w1.(host := meanwhile), c.VmKey());
  }

  lemma StanzaRemovedAgain(before: SshState, published: SshState, vm: string, te: TeardownEnv)
    requires IncludeFits(before) && vm !in before.stanzas && te.stanzaRemoved && te.includeRemoved
    requires published.stanzas - {vm} == before.stanzas - {vm} && (before.included ==> published.included)
    ensures AfterCleanup(published, vm, te) == before
  {
  }

  /** An undisturbed teardown, spelled out. */
  lemma TornDown(base: string, identity: string, te: TeardownEnv, w: World, key: Key)
    requires HostInv(w.host) && w.turns == [] && RecomputedKey(te.prior, te.clusters, VmName(identity)) == Some(key)
    ensures var w', dir := AfterTeardown(base, identity, te, w), StateDir(base, VmName(identity));
            && w'.store == w.store.Remove(key) && w'.ssh == AfterCleanup(w.ssh, VmName(identity), te)
            && w'.host.pidFiles == w.host.pidFiles - {dir}
            && (forall p | p in w'.host.groups && w'.host.groups[p].dir == dir :: !w'.host.groups[p].alive)
            && (DirIsEmpty(w'.host, dir)
                <==> forall p | p in w.host.groups && w.host.groups[p].dir == dir ::
                     w.host.groups[p].loop.running == {})
  {
    PidfileStopEmptiesDirIff(w.host, StateDir(base, VmName(identity)));
  }

  lemma RemovedAgain(c: Case, e: Env, cr: Option<Object>, w: World)
    requires w.turns == [] && c.VmKey() !in w.store.entries
    ensures var w1 := Bringup(c, e, cr, w, Plan(c.deploy)).0;
            Contents(w1.store.Remove(c.VmKey())) == Contents(w.store) && w1.turns == []
  {
    QuietBringUpConverges(c, e, cr, w);
  }

  lemma PidFilesElsewhere(h: HostState, dir: string, request: Argv.Request, env: StartEnv)
    ensures AfterStart(h, dir, request, env).0.pidFiles - {dir} == h.pidFiles - {dir}
  {
  }
}
