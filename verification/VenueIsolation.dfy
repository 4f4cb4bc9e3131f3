/**
 Runs of venue calls over many deploys, with the supervisors stepping in between: what holds after each
 call, and that a call on one deploy leaves every other deploy alone.
 */
module VenueIsolation {
  import opened ApiServer
  import opened JsonValues
  import opened PortForward
  import opened RunStrategy
  import opened Venue
  import opened VenueRuns
  import opened Wrappers
  import Argv = PortForwardArgv
  import PF = PortForward

  /* ----- the cluster ----- */

  lemma PutTouches(s: Store, turns: seq<Turn>, key: Key, body: Object)
    ensures OnlyTouches(s, turns, Others(s, Head(turns).writes), Tail(turns), {})
    ensures OnlyTouches(s, turns, Others(s, Head(turns).writes), Tail(turns), {key})
    ensures OnlyTouches(s, turns, Others(s, Head(turns).writes).Put(key, body), Tail(turns), {key})
    ensures OnlyTouches(s, turns, Others(s, Head(turns).writes).Remove(key), Tail(turns), {key})
  {
    var s1 := Others(s, Head(turns).writes);
    assert Contents(s1.Put(key, body)) - {key} == Contents(s1) - {key};
    assert Contents(s1.Remove(key)) - {key} == Contents(s1) - {key};
    TouchesOnce(s, turns, s1, {});
    TouchesOnce(s, turns, s1, {key});
    TouchesOnce(s, turns, s1.Put(key, body), {key});
    TouchesOnce(s, turns, s1.Remove(key), {key});
  }

  lemma ApplyTouches(c: Case, e: Env, cr: Option<Object>, w: World)
    ensures var w' := Do(c, e, cr, w, Applied).0; OnlyTouches(w.store, w.turns, w'.store, w'.turns, {c.VmKey()})
  {
    var key, body := c.VmKey(), if cr.Some? then cr.value else map[];
    var s1, t1 := Others(w.store, Head(w.turns).writes), Tail(w.turns);
    PutTouches(w.store, w.turns, key, body);
    PutTouches(s1, t1, key, body);
    var w' := Do(c, e, cr, w, Applied).0;
    if !Head(w.turns).refused {
      TouchesJoin(w.store, w.turns, s1, t1, w'.store, w'.turns, {}, {key});
      assert {} + {key} == {key};
    }
  }

  lemma StageTouches(c: Case, e: Env, cr: Option<Object>, w: World, stage: Stage)
    ensures var w' := Do(c, e, cr, w, stage).0; OnlyTouches(w.store, w.turns, w'.store, w'.turns, {c.VmKey()})
  {
    match stage {
      case Applied => ApplyTouches(c, e, cr, w);
      case RunRequested =>
        var s1 := Others(w.store, Head(w.turns).writes);
        PutTouches(w.store, w.turns, c.VmKey(),
                   if c.VmKey() in s1.entries then WithRunStrategy(s1.entries[c.VmKey()].body, ALWAYS) else map[]);
      case _ => TouchesNothing(w.store, w.turns, {c.VmKey()});
    }
  }

  lemma {:induction false} BringupTouches(c: Case, e: Env, cr: Option<Object>, w: World, plan: seq<Stage>)
    ensures var w' := Bringup(c, e, cr, w, plan).0; OnlyTouches(w.store, w.turns, w'.store, w'.turns, {c.VmKey()})
    decreases |plan|
  {
    if plan == [] {
      TouchesNothing(w.store, w.turns, {c.VmKey()});
    } else {
      StageTouches(c, e, cr, w, plan[0]);
      var w1 := Do(c, e, cr, w, plan[0]).0;
      BringupTouches(c, e, cr, w1, plan[1..]);
      var w2 := Bringup(c, e, cr, w1, plan[1..]).0;
      TouchesJoin(w.store, w.turns, w1.store, w1.turns, w2.store, w2.turns, {c.VmKey()}, {c.VmKey()});
      assert {c.VmKey()} + {c.VmKey()} == {c.VmKey()};
    }
  }

  lemma TeardownTouches(base: string, identity: string, e: TeardownEnv, w: World)
    ensures var w' := AfterTeardown(base, identity, e, w);
            OnlyTouches(w.store, w.turns, w'.store, w'.turns,
                        KeysOf(RecomputedKey(e.prior, e.clusters, VmName(identity))))
  {
    match RecomputedKey(e.prior, e.clusters, VmName(identity))
    case Some(key) => PutTouches(w.store, w.turns, key, map[]);
    case None => TouchesNothing(w.store, w.turns, {});
  }

  lemma StateTouches(identity: string, clusters: Clusters, start: bool, w: World)
    ensures var w' := AfterState(identity, clusters, start, w).0;
            OnlyTouches(w.store, w.turns, w'.store, w'.turns, KeysOf(RecomputedKey(None, clusters, VmName(identity))))
  {
    match RecomputedKey(None, clusters, VmName(identity))
    case Some(key) =>
      var s1 := Others(w.store, Head(w.turns).writes);
      PutTouches(w.store, w.turns, key,
                 if key in s1.entries then WithRunStrategy(s1.entries[key].body, if start then ALWAYS else HALTED)
                    else map[]);
    case None => TouchesNothing(w.store, w.turns, {});
  }

  function KeysOf(key: Option<Key>): set<Key> {
    if key.Some? then {key.value} else {}
  }

  /* ----- the host ----- */

  /** Every supervisor of the directory, and its pidfile, are the same in both; neither has one the other has not. */
  ghost predicate SameDir(h: HostState, h': HostState, dir: string) {
    && (forall p | p in h.groups && h.groups[p].dir == dir :: p in h'.groups && h'.groups[p] == h.groups[p])
    && (forall p | p in h'.groups && h'.groups[p].dir == dir :: p in h.groups && h'.groups[p] == h.groups[p])
    && (dir in h.pidFiles <==> dir in h'.pidFiles)
    && (dir in h.pidFiles ==> h.pidFiles[dir] == h'.pidFiles[dir])
  }

  lemma ClearingSpares(h: HostState, dir: string, other: string)
    requires HostInv(h) && other != dir
    ensures SameDir(h, Cleared(h, dir), other)
  {
  }

  lemma LaunchSpares(h: HostState, pid: Pid, dir: string, request: Argv.Request, alive: bool, other: string)
    requires Fresh(h, pid) && other != dir
    ensures SameDir(h, Launched(h, pid, dir, request, alive), other)
  {
  }

  lemma SpareTwice(h: HostState, h1: HostState, h2: HostState, dir: string)
    requires SameDir(h, h1, dir) && SameDir(h1, h2, dir)
    ensures SameDir(h, h2, dir)
  {
  }

  lemma StartSpares(h: HostState, dir: string, request: Argv.Request, env: StartEnv, other: string)
    requires HostInv(h) && Fresh(h, env.launch.pid) && other != dir
    ensures SameDir(h, AfterStart(h, dir, request, env).0, other)
  {
    var after, c := AfterStart(h, dir, request, env).0, Cleared(h, dir);
    ClearingSpares(h, dir, other);
    ClearingKeepsHostInv(h, dir, env.launch.pid);
    var l := Launched(c, env.launch.pid, dir, request, env.launch.alive);
    LaunchSpares(c, env.launch.pid, dir, request, env.launch.alive, other);
    SpareTwice(h, c, l, other);
    assert after in {h, c, l};
  }

  lemma PidfileStopSpares(h: HostState, dir: string, other: string)
    requires HostInv(h) && other != dir
    ensures SameDir(h, AfterPidfileStop(h, dir), other)
  {
  }

  /* ----- runs ----- */

  /** A prepare carries the CR its deploy renders to; what follows holds for any. */
  datatype Call =
    | Prepare(identity: string, env: Env, cr: Option<Object>)
    | Switch(identity: string, clusters: Clusters, start: bool)
    | Teardown(identity: string, tearing: TeardownEnv)
    | Tick(event: PF.Event)

  ghost predicate VenueNext(base: string, w: World, call: Call, w': World) {
    match call
    case Prepare(identity, e, cr) => Fresh(w.host, e.start.launch.pid) && w' == AfterPrepare(base, identity, e, cr, w).0
    case Switch(identity, clusters, start) => w' == AfterState(identity, clusters, start, w).0
    case Teardown(identity, e) => w' == AfterTeardown(base, identity, e, w)
    case Tick(event) =>
      && (event.LoopStep? || event.SupervisorDies?)
      && HostNext(w.host, event, w'.host) && w' == w.(host := w'.host)
  }

  ghost predicate IsVenueRun(base: string, ws: seq<World>, calls: seq<Call>) {
    |ws| == |calls| + 1 && forall i | 0 <= i < |calls| :: VenueNext(base, ws[i], calls[i], ws[i + 1])
  }

  /** The one key a call may write. */
  function TouchedBy(base: string, call: Call): set<Key> {
    match call
    case Prepare(identity, e, _) =>
      (match Preflight(base, identity, e) case Ok(c) => {c.VmKey()} case Err(_) => {})
    case Switch(identity, clusters, _) => KeysOf(RecomputedKey(None, clusters, VmName(identity)))
    case Teardown(identity, e) => KeysOf(RecomputedKey(e.prior, e.clusters, VmName(identity)))
    case Tick(_) => {}
  }

  function TouchedByAll(base: string, calls: seq<Call>): set<Key> {
    if calls == [] then {} else TouchedByAll(base, calls[..|calls| - 1]) + TouchedBy(base, calls[|calls| - 1])
  }

  /** A call on another deploy, or a step of another deploy's supervisor. */
  predicate IsElsewhere(base: string, h: HostState, call: Call, identity: string) {
    match call
    case Prepare(other, _, _) => other != identity
    case Switch(other, _, _) => other != identity
    case Teardown(other, _) => other != identity
    case Tick(event) =>
      (event.LoopStep? && event.pid in h.groups ==> h.groups[event.pid].dir != StateDir(base, VmName(identity)))
      && (event.SupervisorDies? && event.pid in h.groups ==>
          h.groups[event.pid].dir != StateDir(base, VmName(identity)))
  }

  /** What one deploy has on the host and in the ssh config is the same in both worlds. */
  ghost predicate SameDeploy(base: string, w: World, w': World, identity: string) {
    var vm := VmName(identity);
    && SameDir(w.host, w'.host, StateDir(base, vm))
    && (vm in w.ssh.stanzas <==> vm in w'.ssh.stanzas)
    && (vm in w.ssh.stanzas ==> w.ssh.stanzas[vm] == w'.ssh.stanzas[vm])
  }

  lemma CallKeepsHostInv(base: string, w: World, call: Call, w': World)
    requires HostInv(w.host) && VenueNext(base, w, call, w')
    ensures HostInv(w'.host)
  {
    match call {
      case Prepare(identity, e, cr) =>
        if Preflight(base, identity, e).Ok? {
          var c := Preflight(base, identity, e).value;
          BringUpPublishes(c, e, cr, w);
          StartKeepsHostInv(w.host, c.dir, c.Forward(), e.start);
        }
      case Switch(identity, clusters, start) =>
      case Teardown(identity, e) =>
        StepKeepsHostInv(w.host, PidfileStop(StateDir(base, VmName(identity))), w'.host);
      case Tick(event) => StepKeepsHostInv(w.host, event, w'.host);
    }
  }

  lemma CallTouches(base: string, w: World, call: Call, w': World)
    requires VenueNext(base, w, call, w')
    ensures OnlyTouches(w.store, w.turns, w'.store, w'.turns, TouchedBy(base, call))
  {
    match call {
      case Prepare(identity, e, cr) =>
        if Preflight(base, identity, e).Ok? {
          var c := Preflight(base, identity, e).value;
          BringupTouches(c, e, cr, w, Plan(c.deploy));
        } else {
          TouchesNothing(w.store, w.turns, {});
        }
      case Switch(identity, clusters, start) => StateTouches(identity, clusters, start, w);
      case Teardown(identity, e) => TeardownTouches(base, identity, e, w);
      case Tick(event) => TouchesNothing(w.store, w.turns, {});
    }
  }

  lemma BringUpSpares(base: string, c: Case, e: Env, cr: Option<Object>, w: World, identity: string)
    requires HostInv(w.host) && Fresh(w.host, e.start.launch.pid)
    requires c.vm != VmName(identity) && c.dir != StateDir(base, VmName(identity))
    ensures SameDeploy(base, w, Bringup(c, e, cr, w, Plan(c.deploy)).0, identity)
  {
    BringUpPublishes(c, e, cr, w);
    StartSpares(w.host, c.dir, c.Forward(), e.start, StateDir(base, VmName(identity)));
  }

  lemma TeardownSpares(base: string, other: string, e: TeardownEnv, w: World, identity: string)
    requires HostInv(w.host) && other != identity
    ensures SameDeploy(base, w, AfterTeardown(base, other, e, w), identity)
  {
    NamesAreDistinct(base, identity, other);
    PidfileStopSpares(w.host, StateDir(base, VmName(other)), StateDir(base, VmName(identity)));
  }

  lemma TickSpares(h: HostState, event: PF.Event, h': HostState, dir: string)
    requires HostNext(h, event, h')
    requires event.LoopStep? || event.SupervisorDies?
    requires event.LoopStep? && event.pid in h.groups ==> h.groups[event.pid].dir != dir
    requires event.SupervisorDies? && event.pid in h.groups ==> h.groups[event.pid].dir != dir
    ensures SameDir(h, h', dir)
  {
  }

  lemma PrepareSpares(base: string, other: string, e: Env, cr: Option<Object>, w: World, identity: string)
    requires HostInv(w.host) && Fresh(w.host, e.start.launch.pid) && other != identity
    ensures SameDeploy(base, w, AfterPrepare(base, other, e, cr, w).0, identity)
  {
    NamesAreDistinct(base, identity, other);
    if Preflight(base, other, e).Ok? {
      var c := Preflight(base, other, e).value;
      BringUpSpares(base, c, e, cr, w, identity);
    }
  }

  lemma CallSpares(base: string, w: World, call: Call, w': World, identity: string)
    requires HostInv(w.host) && VenueNext(base, w, call, w') && IsElsewhere(base, w.host, call, identity)
    ensures SameDeploy(base, w, w', identity)
  {
    match call {
      case Prepare(other, e, cr) =>
        NamesAreDistinct(base, identity, other);
        PrepareSpares(base, other, e, cr, w, identity);
      case Switch(other, clusters, start) =>
      case Teardown(other, e) => TeardownSpares(base, other, e, w, identity);
      case Tick(event) => TickSpares(w.host, event, w'.host, StateDir(base, VmName(identity)));
    }
  }

  /** At most one live supervisor a directory, named by its pidfile, throughout every run of calls. */
  lemma {:induction false} EveryVenueRunKeepsHostInv(base: string, ws: seq<World>, calls: seq<Call>, i: nat)
    requires IsVenueRun(base, ws, calls) && HostInv(ws[0].host) && i < |ws|
    ensures HostInv(ws[i].host)
  {
    if i > 0 {
      EveryVenueRunKeepsHostInv(base, ws, calls, i - 1);
      CallKeepsHostInv(base, ws[i - 1], calls[i - 1], ws[i]);
    }
  }

  /** Over every run of calls, all objects but those under the touched keys are as the other writers alone left them. */
  lemma {:induction false} RunsTouchOnlyTheirVms(base: string, ws: seq<World>, calls: seq<Call>, i: nat)
    requires IsVenueRun(base, ws, calls) && i < |ws|
    ensures OnlyTouches(ws[0].store, ws[0].turns, ws[i].store, ws[i].turns, TouchedByAll(base, calls[..i]))
  {
    if i == 0 {
      TouchesNothing(ws[0].store, ws[0].turns, {});
    } else {
      RunsTouchOnlyTheirVms(base, ws, calls, i - 1);
      CallTouches(base, ws[i - 1], calls[i - 1], ws[i]);
      assert calls[..i][..i - 1] == calls[..i - 1];
      TouchesJoin(ws[0].store, ws[0].turns, ws[i - 1].store, ws[i - 1].turns, ws[i].store, ws[i].turns,
                  TouchedByAll(base, calls[..i - 1]), TouchedBy(base, calls[i - 1]));
    }
  }

  /** Every call of the run is elsewhere. */
  ghost predicate AllElsewhere(base: string, ws: seq<World>, calls: seq<Call>, identity: string)
    requires |ws| == |calls| + 1
  {
    forall j | 0 <= j < |calls| :: IsElsewhere(base, ws[j].host, calls[j], identity)
  }

  lemma SameDeployTwice(base: string, w0: World, w1: World, w2: World, identity: string)
    requires SameDeploy(base, w0, w1, identity) && SameDeploy(base, w1, w2, identity)
    ensures SameDeploy(base, w0, w2, identity)
  {
    SpareTwice(w0.host, w1.host, w2.host, StateDir(base, VmName(identity)));
  }

  lemma {:induction false} RunsSpareOthers(base: string, ws: seq<World>, calls: seq<Call>, identity: string, i: nat)
    requires IsVenueRun(base, ws, calls) && HostInv(ws[0].host) && i < |ws| && AllElsewhere(base, ws, calls, identity)
    ensures SameDeploy(base, ws[0], ws[i], identity)
  {
    if i > 0 {
      RunsSpareOthers(base, ws, calls, identity, i - 1);
      EveryVenueRunKeepsHostInv(base, ws, calls, i - 1);
      CallSpares(base, ws[i - 1], calls[i - 1], ws[i], identity);
      SameDeployTwice(base, ws[0], ws[i - 1], ws[i], identity);
    }
  }

  /** No call on another deploy writes under this VM name. */
  ghost predicate AreOthersVms(keys: set<Key>, identity: string) {
    forall k | k in keys :: k.resource == VirtualMachines && k.name != VmName(identity)
  }

  lemma KeyIsElsewhere(base: string, h: HostState, call: Call, identity: string)
    requires IsElsewhere(base, h, call, identity)
    ensures AreOthersVms(TouchedBy(base, call), identity)
  {
    match call {
      case Prepare(other, _, _) => NamesAreDistinct(base, identity, other);
      case Switch(other, _, _) => NamesAreDistinct(base, identity, other);
      case Teardown(other, _) => NamesAreDistinct(base, identity, other);
      case Tick(_) =>
    }
  }

  lemma {:induction false} KeysAreElsewhere(base: string, ws: seq<World>, calls: seq<Call>, identity: string, i: nat)
    requires |ws| == |calls| + 1 && i < |ws| && AllElsewhere(base, ws, calls, identity)
    ensures AreOthersVms(TouchedByAll(base, calls[..i]), identity)
  {
    if i > 0 {
      KeysAreElsewhere(base, ws, calls, identity, i - 1);
      KeyIsElsewhere(base, ws[i - 1].host, calls[i - 1], identity);
      assert calls[..i][..i - 1] == calls[..i - 1];
    }
  }

  /**
   A deploy is left alone by any run of calls on other deploys and steps of other supervisors: the same
   supervisors, pidfile and stanza, and under its VM name what the other writers alone put there.
   */
  lemma CallsAreIsolated(base: string, ws: seq<World>, calls: seq<Call>, identity: string, i: nat)
    requires IsVenueRun(base, ws, calls) && HostInv(ws[0].host) && i < |ws| && AllElsewhere(base, ws, calls, identity)
    ensures SameDeploy(base, ws[0], ws[i], identity)
    ensures AreOthersVms(TouchedByAll(base, calls[..i]), identity)
    ensures OnlyTouches(ws[0].store, ws[0].turns, ws[i].store, ws[i].turns, TouchedByAll(base, calls[..i]))
  {
    RunsSpareOthers(base, ws, calls, identity, i);
    KeysAreElsewhere(base, ws, calls, identity, i);
    RunsTouchOnlyTheirVms(base, ws, calls, i);
  }

  /** The include helpers of the call do their work. */
  predicate HelpsInclude(call: Call) {
    match call
    case Prepare(_, e, _) => e.includeEnsured
    case Teardown(_, e) => e.includeRemoved
    case _ => true
  }

  /** The include line is there exactly while some stanza is, over every run whose include helpers work. */
  lemma {:induction false} IncludeFitsThroughout(base: string, ws: seq<World>, calls: seq<Call>, i: nat)
    requires IsVenueRun(base, ws, calls) && IncludeFits(ws[0].ssh) && i < |ws|
    requires forall j | 0 <= j < |calls| :: HelpsInclude(calls[j])
    ensures IncludeFits(ws[i].ssh)
  {
    if i > 0 {
      IncludeFitsThroughout(base, ws, calls, i - 1);
      CallKeepsInclude(base, ws[i - 1], calls[i - 1], ws[i]);
    }
  }

  lemma CallKeepsInclude(base: string, w: World, call: Call, w': World)
    requires VenueNext(base, w, call, w') && IncludeFits(w.ssh) && HelpsInclude(call)
    ensures IncludeFits(w'.ssh)
  {
    match call {
      case Prepare(identity, e, cr) =>
        if Preflight(base, identity, e).Ok? {
          var c := Preflight(base, identity, e).value;
          PrepareKeepsIncludeIff(c, e, cr, w);
        }
      case Teardown(identity, e) => TeardownKeepsIncludeIff(w.ssh, VmName(identity), e);
      case _ =>
    }
  }
}
