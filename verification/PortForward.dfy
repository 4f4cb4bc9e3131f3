/**
 The start / reuse / reap / stop protocol around the detached supervisors. A host holds process groups,
 each led by a supervisor with its virtctl child, and one pidfile per state directory. Pids are never
 recycled; a signal takes effect at once; pidfile writes succeed and are atomic.
 */
module PortForward {
  import opened Decimal
  import opened PortForwardArgv
  import opened Wrappers
  import S = Supervisor

  const LISTEN_TIMEOUT: nat := 20

  type Pid = p: int | 0 < p <= MAX_INT witness 1
  type Byte = b: int | 0 <= b < 256

  /** A supervisor, the port it was launched for, and its loop; a dead leader may leave its child behind. */
  datatype Group = Group(dir: string, request: Request, alive: bool, loop: S.State)

  /** Each pidfile by what it is read as: the pid it names, or nothing for a text that names none. */
  datatype HostState = HostState(groups: map<Pid, Group>, pidFiles: map<string, Option<Pid>>)

  datatype Handle = Handle(pid: Pid, dir: string)

  /* ----- does the port speak ssh? ----- */

  /** "SSH-", section 4.2 of RFC 4253. */
  const SSH_PREFIX: seq<Byte> := [0x53, 0x53, 0x48, 0x2D]

  /** The dial fails, or the peer's bytes arrive in these pieces before the read deadline. */
  datatype Peer = Unreachable | Accepted(pieces: seq<seq<Byte>>)

  function Flatten(pieces: seq<seq<Byte>>): seq<Byte> {
    if pieces == [] then [] else pieces[0] + Flatten(pieces[1..])
  }

  predicate SpeaksSSH(peer: Peer) {
    peer.Accepted? && SSH_PREFIX <= Flatten(peer.pieces)
  }

  method ForwardCarriesSSH(peer: Peer) returns (ok: bool)
    ensures ok <==> SpeaksSSH(peer)
  {
    if peer.Unreachable? { return false; }
    var buf: seq<Byte> := [];
    var pending := peer.pieces;
    while |buf| < 4
      invariant |buf| <= 4
      invariant buf + Flatten(pending) == Flatten(peer.pieces)
      decreases 4 - |buf|, |pending|
    {
      if pending == [] { return false; }
      var piece, room := pending[0], 4 - |buf|;
      var n := if |piece| < room then |piece| else room;
      assert buf + Flatten(pending) == (buf + piece[..n]) + (piece[n..] + Flatten(pending[1..]));
      buf := buf + piece[..n];
      var rest := if n < |piece| then [piece[n..]] else [];
      assert (rest + pending[1..])[|rest|..] == pending[1..];
      assert Flatten(rest + pending[1..]) == piece[n..] + Flatten(pending[1..]);
      pending := rest + pending[1..];
    }
    ok := buf == SSH_PREFIX;
  }

  /* ----- what the calls do to the host ----- */

  function LivePid(h: HostState, dir: string): Option<Pid> {
    if dir !in h.pidFiles then None
    else match h.pidFiles[dir]
      case Some(p) => if p in h.groups && h.groups[p].alive then Some(p) else None
      case None => None
  }

  /** SIGTERM to the process group: the supervisor and its child. */
  function Reaped(h: HostState, pid: Pid): HostState {
    if pid !in h.groups then h
    else
      var g := h.groups[pid];
      h.(groups := h.groups[pid := g.(alive := false, loop := g.loop.(running := {}))])
  }

  /** SIGTERM to the supervisor alone. */
  function Beheaded(h: HostState, pid: Pid): HostState {
    if pid !in h.groups then h else h.(groups := h.groups[pid := h.groups[pid].(alive := false)])
  }

  function Unlinked(h: HostState, dir: string): HostState {
    h.(pidFiles := h.pidFiles - {dir})
  }

  function Launched(h: HostState, pid: Pid, dir: string, request: Request, alive: bool): HostState {
    HostState(h.groups[pid := Group(dir, request, alive, S.START)], h.pidFiles[dir := Some(pid)])
  }

  /** How a launch goes: the pid the kernel gives, whether anything starts and survives, whether sh reports an error. */
  datatype Launch = Launch(pid: Pid, started: bool, alive: bool, runError: bool)

  datatype StartError = NoStateDir | NoVirtctl | RunFailed | NoLivePid

  datatype StartEnv = StartEnv(peer: Peer, virtctl: Option<string>, launch: Launch)

  /** A pid no group has had and no pidfile names. */
  predicate Fresh(h: HostState, pid: Pid) {
    pid !in h.groups && forall d | d in h.pidFiles :: h.pidFiles[d] != Some(pid)
  }

  /** The host without a forward that is live but silent. */
  function Cleared(h: HostState, dir: string): HostState {
    match LivePid(h, dir)
    case Some(p) => Unlinked(Reaped(h, p), dir)
    case None => h
  }

  function AfterStart(h: HostState, dir: string, request: Request, env: StartEnv)
    : (HostState, Result<Handle, StartError>)
  {
    if dir == "" then (h, Err(NoStateDir))
    else if LivePid(h, dir).Some? && SpeaksSSH(env.peer) then (h, Ok(Handle(LivePid(h, dir).value, dir)))
    else
      var clear := Cleared(h, dir);
      if env.virtctl.None? then (clear, Err(NoVirtctl))
      else
        var l := env.launch;
        var after := if l.started then Launched(clear, l.pid, dir, request, l.alive) else clear;
        (after, if l.runError then Err(RunFailed)
                else if l.started && l.alive then Ok(Handle(l.pid, dir))
                else Err(NoLivePid))
  }

  function AfterStop(h: HostState, handle: Handle): HostState {
    Unlinked(Reaped(h, handle.pid), handle.dir)
  }

  function AfterPidfileStop(h: HostState, dir: string): HostState {
    match LivePid(h, dir)
    case Some(p) => Unlinked(Beheaded(h, p), dir)
    case None => Unlinked(h, dir)
  }

  /* ----- the host itself ----- */

  function PidIn(text: string): Option<Pid> {
    match Atoi(TrimSpace(text))
    case Some(p) => if p > 0 then Some(p) else None
    case None => None
  }

  /** What `echo $!` and `echo $$` write. */
  function PidText(pid: Pid): string {
    Itoa(pid) + "\n"
  }

  lemma PidTextIsRead(pid: Pid)
    ensures PidIn(PidText(pid)) == Some(pid)
  {
    EchoedNumberIsRead(pid);
  }

  function ReadAll(files: map<string, string>): map<string, Option<Pid>> {
    map d | d in files :: PidIn(files[d])
  }

  class Host {
    var groups: map<Pid, Group>
    var pidFiles: map<string, string>

    constructor (groups: map<Pid, Group>, pidFiles: map<string, string>)
      ensures this.groups == groups && this.pidFiles == pidFiles
    {
      this.groups, this.pidFiles := groups, pidFiles;
    }

    function View(): HostState
      reads this
    {
      HostState(groups, ReadAll(pidFiles))
    }

    method ReadLivePid(dir: string) returns (pid: Option<Pid>)
      ensures pid == LivePid(View(), dir)
    {
      if dir !in pidFiles { return None; }
      var named := Atoi(TrimSpace(pidFiles[dir]));
      if named.None? || named.value <= 0 { return None; }
      var p: Pid := named.value;
      if p !in groups || !groups[p].alive { return None; }
      pid := Some(p);
    }

    method ReapGroup(pid: Pid)
      modifies this
      ensures View() == Reaped(old(View()), pid)
    {
      if pid in groups {
        var g := groups[pid];
        groups := groups[pid := g.(alive := false, loop := g.loop.(running := {}))];
      }
    }

    /** os.Remove on a pidfile. */
    method RemovePidFile(dir: string)
      modifies this`pidFiles
      ensures View() == Unlinked(old(View()), dir)
    {
      pidFiles := pidFiles - {dir};
      assert ReadAll(pidFiles) == ReadAll(old(pidFiles)) - {dir};
    }

    /** The supervisor script: detach the loop and write its pid into the pidfile. */
    method RunSupervisorCmd(dir: string, request: Request, l: Launch)
      modifies this
      ensures View() == if l.started then Launched(old(View()), l.pid, dir, request, l.alive) else old(View())
    {
      if l.started {
        groups := groups[l.pid := Group(dir, request, l.alive, S.START)];
        pidFiles := pidFiles[dir := PidText(l.pid)];
        PidTextIsRead(l.pid);
        assert ReadAll(pidFiles) == ReadAll(old(pidFiles))[dir := Some(l.pid)];
      }
    }

    method Start(dir: string, request: Request, env: StartEnv) returns (r: Result<Handle, StartError>)
      requires Fresh(View(), env.launch.pid)
      modifies this
      ensures (View(), r) == AfterStart(old(View()), dir, request, env)
    {
      if dir == "" { return Err(NoStateDir); }
      var live := ReadLivePid(dir);
      if live.Some? {
        var speaks := ForwardCarriesSSH(env.peer);
        if speaks {
          return Ok(Handle(live.value, dir));
        }
        ReapGroup(live.value);
        RemovePidFile(dir);
      }
      if env.virtctl.None? { return Err(NoVirtctl); }
      RunSupervisorCmd(dir, request, env.launch);
      if env.launch.runError { return Err(RunFailed); }
      var now := ReadLivePid(dir);
      if now.None? { return Err(NoLivePid); }
      r := Ok(Handle(now.value, dir));
    }

    method Stop(handle: Handle)
      modifies this
      ensures View() == AfterStop(old(View()), handle)
    {
      ReapGroup(handle.pid);
      RemovePidFile(handle.dir);
    }

    method StopByPidfile(dir: string)
      modifies this
      ensures View() == AfterPidfileStop(old(View()), dir)
    {
      var live := ReadLivePid(dir);
      if live.Some? {
        groups := groups[live.value := groups[live.value].(alive := false)];
      }
      RemovePidFile(dir);
    }
  }

  /* ----- runs ----- */

  /** A stop through this handle reaches whatever is live in its directory. */
  predicate Current(h: HostState, handle: Handle) {
    forall p | p in h.groups && h.groups[p].alive && h.groups[p].dir == handle.dir :: p == handle.pid
  }

  datatype Event =
    | StartCall(dir: string, request: Request, env: StartEnv, result: Result<Handle, StartError>)
    | StopCall(handle: Handle)
    | PidfileStop(dir: string)
    | LoopStep(pid: Pid, step: S.Label)
    | SupervisorDies(pid: Pid)

  predicate HostNext(h: HostState, e: Event, h': HostState) {
    match e
    case StartCall(dir, request, env, result) =>
      Fresh(h, env.launch.pid) && (h', result) == AfterStart(h, dir, request, env)
    case StopCall(handle) => Current(h, handle) && h' == AfterStop(h, handle)
    case PidfileStop(dir) => h' == AfterPidfileStop(h, dir)
    case LoopStep(pid, step) =>
      && pid in h.groups && pid in h'.groups
      && var g, g' := h.groups[pid], h'.groups[pid];
         && (step.Script? || step.Delay? ==> g.alive)
         && S.Next(LISTEN_TIMEOUT, g.loop, step, g'.loop)
         && g' == g.(loop := g'.loop)
         && h'.groups == h.groups[pid := g']
         && h'.pidFiles == if step.Script? && g.loop.place.Boot? then h.pidFiles[g.dir := Some(pid)] else h.pidFiles
    case SupervisorDies(pid) => pid in h.groups && h' == Beheaded(h, pid)
  }

  ghost predicate IsHostRun(hs: seq<HostState>, es: seq<Event>) {
    |hs| == |es| + 1 && forall i | 0 <= i < |es| :: HostNext(hs[i], es[i], hs[i + 1])
  }

  /** A live supervisor is the one its pidfile names. */
  ghost predicate LiveAreNamed(h: HostState) {
    forall p | p in h.groups && h.groups[p].alive ::
      h.groups[p].dir in h.pidFiles && h.pidFiles[h.groups[p].dir] == Some(p)
  }

  /** A pidfile names no supervisor of another directory. */
  ghost predicate NamedAreLocal(h: HostState) {
    forall d, p | d in h.pidFiles && p in h.groups && h.pidFiles[d] == Some(p) :: h.groups[p].dir == d
  }

  ghost predicate LoopsAreLegal(h: HostState) {
    forall p | p in h.groups :: S.Inv(LISTEN_TIMEOUT, h.groups[p].loop)
  }

  ghost predicate HostInv(h: HostState) {
    LiveAreNamed(h) && NamedAreLocal(h) && LoopsAreLegal(h)
  }

  lemma StepKeepsHostInv(h: HostState, e: Event, h': HostState)
    requires HostInv(h) && HostNext(h, e, h')
    ensures HostInv(h')
  {
    match e {
      case StartCall(dir, request, env, result) =>
        StartKeepsHostInv(h, dir, request, env);
      case StopCall(handle) =>
        RunningNothing(h, handle.pid);
      case PidfileStop(dir) =>
      case LoopStep(pid, step) =>
        S.InvIsKept(LISTEN_TIMEOUT, h.groups[pid].loop, step, h'.groups[pid].loop);
      case SupervisorDies(pid) =>
    }
  }

  /** Losing its child leaves a loop in a legal state. */
  lemma RunningNothing(h: HostState, pid: Pid)
    requires LoopsAreLegal(h)
    ensures LoopsAreLegal(Reaped(h, pid))
  {
  }

  lemma ClearingKeepsHostInv(h: HostState, dir: string, pid: Pid)
    requires HostInv(h) && Fresh(h, pid)
    ensures var c := Cleared(h, dir);
            HostInv(c) && Fresh(c, pid) && forall p | p in c.groups && c.groups[p].dir == dir :: !c.groups[p].alive
  {
  }

  lemma LaunchKeepsHostInv(h: HostState, pid: Pid, dir: string, request: Request, alive: bool)
    requires HostInv(h) && Fresh(h, pid)
    requires forall p | p in h.groups && h.groups[p].dir == dir :: !h.groups[p].alive
    ensures HostInv(Launched(h, pid, dir, request, alive))
  {
  }

  lemma StartKeepsHostInv(h: HostState, dir: string, request: Request, env: StartEnv)
    requires HostInv(h) && Fresh(h, env.launch.pid)
    ensures HostInv(AfterStart(h, dir, request, env).0)
  {
    ClearingKeepsHostInv(h, dir, env.launch.pid);
    LaunchKeepsHostInv(Cleared(h, dir), env.launch.pid, dir, request, env.launch.alive);
  }

  /**
   Over any sequence of starts, current stops, pidfile stops, loop steps and deaths: each state directory
   has at most one live supervisor, a live one is the one its pidfile names, and each supervisor has at
   most one virtctl.
   */
  lemma {:induction false} EveryHostRunKeepsInv(hs: seq<HostState>, es: seq<Event>, i: nat)
    requires IsHostRun(hs, es) && hs[0].groups == map[] && i < |hs|
    ensures HostInv(hs[i])
    ensures forall p, q | p in hs[i].groups && q in hs[i].groups && hs[i].groups[p].alive && hs[i].groups[q].alive
                          && hs[i].groups[p].dir == hs[i].groups[q].dir :: p == q
    ensures forall p | p in hs[i].groups && hs[i].groups[p].alive :: LivePid(hs[i], hs[i].groups[p].dir) == Some(p)
    ensures forall p | p in hs[i].groups :: hs[i].groups[p].loop.running <= {hs[i].groups[p].loop.generation}
  {
    if i > 0 {
      EveryHostRunKeepsInv(hs, es, i - 1);
      StepKeepsHostInv(hs[i - 1], es[i - 1], hs[i]);
    }
  }

  /** Stopping through a handle keeps that order exactly when the handle is current. */
  lemma StopIsSafeIffCurrent(h: HostState, handle: Handle)
    requires HostInv(h)
    ensures HostInv(AfterStop(h, handle)) <==> Current(h, handle)
  {
  }

  /** A stale handle unlinks the pidfile of its successor, and the next start adds a second live supervisor. */
  lemma StaleStopLeaksASupervisor(h: HostState, handle: Handle, live: Pid, request: Request, env: StartEnv)
    requires HostInv(h) && handle.dir != "" && handle.pid != live
    requires live in h.groups && h.groups[live].alive && h.groups[live].dir == handle.dir
    requires Fresh(h, env.launch.pid) && env.virtctl.Some? && env.launch.started && env.launch.alive
    ensures var h' := AfterStart(AfterStop(h, handle), handle.dir, request, env).0;
            && live != env.launch.pid && live in h'.groups && env.launch.pid in h'.groups
            && h'.groups[live].alive && h'.groups[env.launch.pid].alive
            && h'.groups[live].dir == h'.groups[env.launch.pid].dir == handle.dir
  {
  }

  /**
   What a returned handle is worth: it names the live supervisor its pidfile names, and either the asked
   port answered with "SSH-" or that supervisor was launched for exactly this request.
   */
  lemma HandleIsLive(h: HostState, dir: string, request: Request, env: StartEnv)
    requires HostInv(h) && Fresh(h, env.launch.pid)
    requires AfterStart(h, dir, request, env).1.Ok?
    ensures var (h', r) := AfterStart(h, dir, request, env);
            && r.value.dir == dir && r.value.pid in h'.groups
            && h'.groups[r.value.pid].alive && h'.groups[r.value.pid].dir == dir
            && LivePid(h', dir) == Some(r.value.pid) && Current(h', r.value)
            && (SpeaksSSH(env.peer) || h'.groups[r.value.pid].request == request)
  {
  }

  /**
   The handed-out supervisor serves the asked request, unless it is a live one launched for another
   request while the asked port answers with "SSH-": whoever answers there is not asked for its name.
   */
  lemma RequestIsServedIff(h: HostState, dir: string, request: Request, env: StartEnv)
    requires Fresh(h, env.launch.pid) && AfterStart(h, dir, request, env).1.Ok?
    ensures var (h', r) := AfterStart(h, dir, request, env);
            && r.value.pid in h'.groups
            && (h'.groups[r.value.pid].request == request
                <==> !(LivePid(h, dir).Some? && SpeaksSSH(env.peer)
                       && h.groups[LivePid(h, dir).value].request != request))
  {
  }

  /** A live supervisor is handed out, on an unchanged host, exactly when the asked port speaks ssh. */
  lemma LiveForwardIsReusedIff(h: HostState, dir: string, request: Request, env: StartEnv)
    requires Fresh(h, env.launch.pid)
    ensures (exists p :: LivePid(h, dir) == Some(p) && AfterStart(h, dir, request, env) == (h, Ok(Handle(p, dir))))
       <==> dir != "" && LivePid(h, dir).Some? && SpeaksSSH(env.peer)
  {
    if LivePid(h, dir).Some? && !SpeaksSSH(env.peer) {
      assert !Cleared(h, dir).groups[LivePid(h, dir).value].alive;
    }
  }

  const EMPTY_HOST := HostState(map[], map[])

  /** A launch that comes up, on a port where peer answers. */
  function LaunchOf(pid: Pid, peer: Peer): StartEnv {
    StartEnv(peer, Some("virtctl"), Launch(pid, true, true, false))
  }

  /**
   The input on which reuse gives the wrong forward: two starts in one directory, the second for another
   request, on whose port some ssh server answers. Its handle names the forward of the first.
   */
  lemma ReuseMayServeAnotherRequest(dir: string, first: Request, second: Request)
    returns (hs: seq<HostState>, es: seq<Event>)
    requires dir != "" && first != second
    ensures IsHostRun(hs, es) && hs[0] == EMPTY_HOST && |es| == 2
    ensures es[0] == StartCall(dir, first, LaunchOf(1, Unreachable), Ok(Handle(1, dir)))
    ensures es[1] == StartCall(dir, second, LaunchOf(2, Accepted([SSH_PREFIX])), Ok(Handle(1, dir)))
    ensures 1 in hs[2].groups && hs[2].groups[1].request == first && LivePid(hs[2], dir) == Some(1)
  {
    var h1 := Launched(EMPTY_HOST, 1, dir, first, true);
    assert Flatten([SSH_PREFIX]) == SSH_PREFIX + Flatten([]) == SSH_PREFIX;
    es := [StartCall(dir, first, LaunchOf(1, Unreachable), Ok(Handle(1, dir))),
           StartCall(dir, second, LaunchOf(2, Accepted([SSH_PREFIX])), Ok(Handle(1, dir)))];
    hs := [EMPTY_HOST, h1, h1];
  }

  /**
   A start succeeds exactly when there is a state directory, and either a live forward stands there whose
   port speaks ssh, or virtctl is found and its launch starts, survives and reports no error: a silent
   forward is in nobody's way.
   */
  lemma StartSucceedsIff(h: HostState, dir: string, request: Request, env: StartEnv)
    requires Fresh(h, env.launch.pid)
    ensures AfterStart(h, dir, request, env).1.Ok?
       <==> && dir != ""
            && (|| (LivePid(h, dir).Some? && SpeaksSSH(env.peer))
                || (env.virtctl.Some? && env.launch.started && env.launch.alive && !env.launch.runError))
  {
  }

  /** Without reuse, what it hands out is the fresh supervisor: in the pidfile, alive, at the start of its script. */
  lemma FreshForwardIsHandedOut(h: HostState, dir: string, request: Request, env: StartEnv)
    requires Fresh(h, env.launch.pid) && dir != "" && !(LivePid(h, dir).Some? && SpeaksSSH(env.peer))
    requires env.virtctl.Some? && env.launch.started && env.launch.alive && !env.launch.runError
    ensures var (h', r) := AfterStart(h, dir, request, env);
            && r == Ok(Handle(env.launch.pid, dir))
            && dir in h'.pidFiles && h'.pidFiles[dir] == Some(env.launch.pid)
            && env.launch.pid in h'.groups && h'.groups[env.launch.pid] == Group(dir, request, true, S.START)
            && h'.groups.Keys == h.groups.Keys + {env.launch.pid}
  {
    if LivePid(h, dir).Some? {
      assert Cleared(h, dir).groups.Keys == h.groups.Keys;
    }
  }

  /**
   Which error a start reports, and what each leaves: nothing changed, or a live forward that was silent
   gone with its pidfile, or the supervisor that was launched and did not make it.
   */
  lemma StartFailsWith(h: HostState, dir: string, request: Request, env: StartEnv)
    requires Fresh(h, env.launch.pid) && AfterStart(h, dir, request, env).1.Err?
    ensures var (h', r) := AfterStart(h, dir, request, env);
            && (r.error == NoStateDir <==> dir == "")
            && (r.error == NoVirtctl <==> dir != "" && env.virtctl.None?)
            && (r.error == RunFailed <==> dir != "" && env.virtctl.Some? && env.launch.runError)
            && (r.error == NoStateDir || (r.error == NoVirtctl && LivePid(h, dir).None?) ==> h' == h)
            && (r.error == NoVirtctl && LivePid(h, dir).Some? ==>
                  && h'.pidFiles == h.pidFiles - {dir} && h'.groups.Keys == h.groups.Keys
                  && Extinct(h', LivePid(h, dir).value))
            && (r.error == NoLivePid ==> LivePid(h', dir).None?)
            && (env.launch.pid in h'.groups <==> dir != "" && env.virtctl.Some? && env.launch.started)
  {
    if LivePid(h, dir).Some? {
      assert Cleared(h, dir).groups.Keys == h.groups.Keys;
    }
  }

  /** The banner is "SSH-", byte for byte, and a fresh forward has twenty seconds to listen. */
  lemma BannerAndLimitAre()
    ensures |SSH_PREFIX| == 4 && forall i | 0 <= i < 4 :: SSH_PREFIX[i] == "SSH-"[i] as int
    ensures LISTEN_TIMEOUT == 20
  {
  }

  /** A silent port is never reused: the old group is reaped, child included. */
  lemma SilentForwardIsReaped(h: HostState, dir: string, request: Request, env: StartEnv)
    requires HostInv(h) && Fresh(h, env.launch.pid) && dir != ""
    requires LivePid(h, dir).Some? && !SpeaksSSH(env.peer)
    ensures var h', p := AfterStart(h, dir, request, env).0, LivePid(h, dir).value;
            && p in h'.groups && !h'.groups[p].alive && h'.groups[p].loop.running == {}
            && LivePid(h', dir) != Some(p)
  {
  }

  /** No process of the group is left. */
  predicate Extinct(h: HostState, pid: Pid) {
    pid in h.groups && !h.groups[pid].alive && h.groups[pid].loop.running == {}
  }

  /** An extinct group stays extinct, and its generation never rises again, in every continuation. */
  lemma {:induction false} ExtinctForGood(hs: seq<HostState>, es: seq<Event>, pid: Pid, i: nat)
    requires IsHostRun(hs, es) && Extinct(hs[0], pid) && i < |hs|
    ensures Extinct(hs[i], pid)
    ensures hs[i].groups[pid].loop.generation == hs[0].groups[pid].loop.generation
  {
    if i > 0 {
      ExtinctForGood(hs, es, pid, i - 1);
      assert HostNext(hs[i - 1], es[i - 1], hs[i]);
    }
  }

  /** Killing the group empties it; the pidfile stop kills the leader only, so exactly a running child survives. */
  lemma PidfileStopSparesTheChild(h: HostState, dir: string)
    requires LivePid(h, dir).Some?
    ensures var p := LivePid(h, dir).value;
            && Extinct(AfterStop(h, Handle(p, dir)), p)
            && !AfterPidfileStop(h, dir).groups[p].alive
            && (Extinct(AfterPidfileStop(h, dir), p) <==> h.groups[p].loop.running == {})
  {
  }

  /** Nothing launched for the directory is left: no supervisor, no child of any of them. */
  ghost predicate DirIsEmpty(h: HostState, dir: string) {
    forall p | p in h.groups && h.groups[p].dir == dir :: Extinct(h, p)
  }

  /**
   A pidfile stop ends everything launched for its directory exactly when no supervisor of the
   directory, dead or alive, has a child running.
   */
  lemma PidfileStopEmptiesDirIff(h: HostState, dir: string)
    requires HostInv(h)
    ensures DirIsEmpty(AfterPidfileStop(h, dir), dir)
       <==> forall p | p in h.groups && h.groups[p].dir == dir :: h.groups[p].loop.running == {}
  {
    var h' := AfterPidfileStop(h, dir);
    forall p | p in h.groups && h.groups[p].dir == dir
      ensures p in h'.groups && h'.groups[p].dir == dir && !h'.groups[p].alive
      ensures h'.groups[p].loop == h.groups[p].loop
    {
      assert h.groups[p].alive ==> LivePid(h, dir) == Some(p);
    }
    assert forall p | p in h'.groups :: p in h.groups && h'.groups[p].dir == h.groups[p].dir;
  }

  /** A group stop does so exactly when none but the group it signals has. */
  lemma StopEmptiesDirIff(h: HostState, handle: Handle)
    requires HostInv(h) && Current(h, handle)
    ensures DirIsEmpty(AfterStop(h, handle), handle.dir)
       <==> forall p | p in h.groups && h.groups[p].dir == handle.dir && p != handle.pid ::
            h.groups[p].loop.running == {}
  {
    var h' := AfterStop(h, handle);
    assert handle.pid in h.groups ==> Extinct(h', handle.pid);
    assert forall p | p in h.groups && p != handle.pid :: p in h'.groups && h'.groups[p] == h.groups[p];
    assert forall p | p in h'.groups :: p in h.groups && h'.groups[p].dir == h.groups[p].dir;
  }

  /** A start, two steps that spawn virtctl, a pidfile stop, and a start again. */
  lemma StartedTwice(dir: string, request: Request) returns (hs: seq<HostState>, es: seq<Event>)
    requires dir != ""
    ensures IsHostRun(hs, es) && hs[0] == EMPTY_HOST
    ensures es == [StartCall(dir, request, LaunchOf(1, Unreachable), Ok(Handle(1, dir))),
                   LoopStep(1, S.Script), LoopStep(1, S.Script), PidfileStop(dir),
                   StartCall(dir, request, LaunchOf(2, Unreachable), Ok(Handle(2, dir)))]
    ensures hs[5].groups.Keys == {1, 2} && hs[5].pidFiles == map[dir := Some(2)]
    ensures hs[5].groups[2] == Group(dir, request, true, S.START)
    ensures hs[5].groups[1].dir == dir && !hs[5].groups[1].alive && hs[5].groups[1].loop.running == {1}
  {
    var h1 := Launched(EMPTY_HOST, 1, dir, request, true);
    var booted := S.Step(LISTEN_TIMEOUT, S.START);
    var h2 := h1.(groups := map[1 := h1.groups[1].(loop := booted)]);
    var h3 := h2.(groups := map[1 := h2.groups[1].(loop := S.Step(LISTEN_TIMEOUT, booted))]);
    var h4 := AfterPidfileStop(h3, dir);
    var h5 := Launched(h4, 2, dir, request, true);
    es := [StartCall(dir, request, LaunchOf(1, Unreachable), Ok(Handle(1, dir))),
           LoopStep(1, S.Script), LoopStep(1, S.Script), PidfileStop(dir),
           StartCall(dir, request, LaunchOf(2, Unreachable), Ok(Handle(2, dir)))];
    hs := [EMPTY_HOST, h1, h2, h3, h4, h5];
    Spawned(dir, request, h1, h2, h3);
  }

  /**
   The input on which both stops fall short though the named supervisor has no child: the virtctl of the
   first supervisor survives either stop of the second.
   */
  lemma EarlierChildSurvives(dir: string, request: Request) returns (hs: seq<HostState>, es: seq<Event>)
    requires dir != ""
    ensures IsHostRun(hs, es) && hs[0] == EMPTY_HOST && |es| == 5
    ensures var h := hs[5];
            && LivePid(h, dir) == Some(2) && h.groups[2].loop.running == {} && Current(h, Handle(2, dir))
            && 1 in h.groups && h.groups[1].dir == dir && 1 in h.groups[1].loop.running
            && !DirIsEmpty(AfterPidfileStop(h, dir), dir) && !DirIsEmpty(AfterStop(h, Handle(2, dir)), dir)
  {
    hs, es := StartedTwice(dir, request);
    assert !Extinct(AfterPidfileStop(hs[5], dir), 1);
    assert !Extinct(AfterStop(hs[5], Handle(2, dir)), 1);
  }

  /** The first two steps of a lone supervisor. */
  lemma Spawned(dir: string, request: Request, h1: HostState, h2: HostState, h3: HostState)
    requires h1 == Launched(EMPTY_HOST, 1, dir, request, true)
    requires h2 == h1.(groups := map[1 := h1.groups[1].(loop := S.Step(LISTEN_TIMEOUT, S.START))])
    requires h3 == h2.(groups := map[1 := h2.groups[1].(loop := S.Step(LISTEN_TIMEOUT, h2.groups[1].loop))])
    ensures HostNext(h1, LoopStep(1, S.Script), h2) && HostNext(h2, LoopStep(1, S.Script), h3)
    ensures h3.groups[1].loop.running == {1} && h3.groups[1].alive
  {
  }

  /**
   The survivor is out of reach of every later start and pidfile stop: only its own exit, or a stop
   through a handle that still names its dead leader, ends it.
   */
  lemma {:induction false} OrphanOutlivesEveryCall(hs: seq<HostState>, es: seq<Event>, pid: Pid, child: nat, i: nat)
    requires IsHostRun(hs, es) && pid in hs[0].groups && i < |hs|
    requires !hs[0].groups[pid].alive && child in hs[0].groups[pid].loop.running
    requires forall e | e in es :: e != LoopStep(pid, S.Exit(child)) && (e.StopCall? ==> e.handle.pid != pid)
    ensures pid in hs[i].groups && !hs[i].groups[pid].alive && child in hs[i].groups[pid].loop.running
  {
    if i > 0 {
      OrphanOutlivesEveryCall(hs, es, pid, child, i - 1);
      assert HostNext(hs[i - 1], es[i - 1], hs[i]);
      assert es[i - 1] in es;
    }
  }
}
