/**
 The detached loop around `virtctl port-forward`: spawn, probe for a listener up to a limit, monitor,
 kill, rest, respawn. Its shell steps interleave with an environment that ends children, opens and
 closes the port, and lets time pass, in any order.
 */
module Supervisor {
  import opened Clock

  const PROBE_SLEEP: nat := SECOND
  const MONITOR_SLEEP: nat := 2 * SECOND
  const REST_SLEEP: nat := 2 * SECOND

  /** Where the script stands. The sleeping places carry the time left. */
  datatype Place =
    | Boot                      // echo $$ >pidfile
    | Spawn                     // virtctl ... & vp=$!; ok=0; n=0
    | ProbeGuard                // [ $n -lt limit ]
    | ProbeSleep(left: nat)     // sleep 1; n=$((n+1))
    | ProbeListen               // ss | grep LISTEN
    | ProbeAlive                // kill -0 $vp || break
    | MonitorAlive              // while kill -0 $vp
    | MonitorListen             // && ss | grep LISTEN
    | MonitorSleep(left: nat)   // sleep 2
    | Kill                      // kill $vp
    | Rest(left: nat)           // sleep 2

  /**
   Children are numbered by generation; vp is the script's variable. heard records that this
   generation's probing saw the port in LISTEN.
   */
  datatype State = State(place: Place, n: nat, generation: nat, vp: nat, running: set<nat>, signalled: set<nat>,
                         listening: bool, heard: bool)

  const START := State(Boot, 0, 0, 0, {}, {}, false, false)

  predicate Sleeping(p: Place) {
    (p.ProbeSleep? || p.MonitorSleep? || p.Rest?) && p.left > 0
  }

  /** The script's own next step. A signalled child is gone by the end of the rest that follows. */
  function Step(limit: nat, s: State): State
    requires !Sleeping(s.place)
  {
    match s.place
    case Boot => s.(place := Spawn)
    case Spawn =>
      var child := s.generation + 1;
      s.(place := ProbeGuard, n := 0, generation := child, vp := child, running := s.running + {child}, heard := false)
    case ProbeGuard => s.(place := if s.n < limit then ProbeSleep(PROBE_SLEEP) else Kill)
    case ProbeSleep(_) => s.(place := ProbeListen, n := s.n + 1)
    case ProbeListen => if s.listening then s.(place := MonitorAlive, heard := true) else s.(place := ProbeAlive)
    case ProbeAlive => s.(place := if s.vp in s.running then ProbeGuard else Kill)
    case MonitorAlive => s.(place := if s.vp in s.running then MonitorListen else Kill)
    case MonitorListen => s.(place := if s.listening then MonitorSleep(MONITOR_SLEEP) else Kill)
    case MonitorSleep(_) => s.(place := MonitorAlive)
    case Kill => s.(place := Rest(REST_SLEEP), signalled := s.signalled + {s.vp})
    case Rest(_) => s.(place := Spawn, running := s.running - s.signalled)
  }

  /** Script step, time, a child ending by itself, or anyone opening or closing the port. */
  datatype Label = Script | Delay(d: nat) | Exit(child: nat) | Port(listening: bool)

  predicate Next(limit: nat, s: State, l: Label, s': State) {
    match l
    case Script => !Sleeping(s.place) && s' == Step(limit, s)
    case Delay(d) => Sleeping(s.place) && 0 < d <= s.place.left && s' == s.(place := s.place.(left := s.place.left - d))
    case Exit(child) => child in s.running && s' == s.(running := s.running - {child})
    case Port(b) => s' == s.(listening := b)
  }

  ghost predicate IsRun(limit: nat, states: seq<State>, labels: seq<Label>) {
    && |states| == |labels| + 1
    && forall i | 0 <= i < |labels| :: Next(limit, states[i], labels[i], states[i + 1])
  }

  function TimeOf(l: Label): nat {
    if l.Delay? then l.d else 0
  }

  function StepsOf(l: Label): nat {
    if l.Script? then 1 else 0
  }

  function Elapsed(labels: seq<Label>): nat {
    if labels == [] then 0 else TimeOf(labels[0]) + Elapsed(labels[1..])
  }

  function ScriptSteps(labels: seq<Label>): nat {
    if labels == [] then 0 else StepsOf(labels[0]) + ScriptSteps(labels[1..])
  }

  /** The script is never stuck: it takes its next step, or its sleep goes on. */
  lemma NeverStuck(limit: nat, s: State)
    ensures exists l: Label, s': State :: (l.Script? || l.Delay?) && Next(limit, s, l, s')
  {
    if Sleeping(s.place) {
      assert Next(limit, s, Delay(s.place.left), s.(place := s.place.(left := 0)));
    } else {
      assert Next(limit, s, Script, Step(limit, s));
    }
  }

  /* ----- what every reachable state keeps ----- */

  predicate Probing(p: Place) {
    p.ProbeGuard? || p.ProbeSleep? || p.ProbeListen? || p.ProbeAlive?
  }

  predicate Monitoring(p: Place) {
    p.MonitorAlive? || p.MonitorListen? || p.MonitorSleep?
  }

  ghost predicate Inv(limit: nat, s: State) {
    && s.vp == s.generation
    && s.running <= {s.vp}
    && (forall g | g in s.signalled :: g <= s.generation)
    && (s.place.Boot? || s.place.Spawn? ==> s.running == {})
    && (s.place.Rest? ==> s.running <= s.signalled && s.place.left <= REST_SLEEP)
    && (Probing(s.place) || Monitoring(s.place) || s.place.Kill? ==> s.vp > 0 && s.vp !in s.signalled)
    && (Probing(s.place) ==> s.n <= limit)
    && (s.place.ProbeSleep? ==> s.n < limit && s.place.left <= PROBE_SLEEP)
    && (Monitoring(s.place) ==> s.heard)
    && (s.place.MonitorSleep? ==> s.place.left <= MONITOR_SLEEP)
  }

  lemma InvIsKept(limit: nat, s: State, l: Label, s': State)
    requires Inv(limit, s) && Next(limit, s, l, s')
    ensures Inv(limit, s')
    ensures s.generation <= s'.generation && s.signalled <= s'.signalled
    ensures s'.generation > s.generation ==> l.Script? && s.place.Spawn? && s.running == {} && s'.running == {s'.vp}
  {
  }

  /**
   In every run from the start: at most one virtctl is alive, vp names the latest one, probing checks
   the port at most limit times, and monitoring starts only after this generation was heard listening.
   */
  lemma {:induction false} EveryRunKeepsInv(limit: nat, states: seq<State>, labels: seq<Label>, i: nat)
    requires IsRun(limit, states, labels) && states[0] == START && i < |states|
    ensures Inv(limit, states[i])
    ensures |states[i].running| <= 1 && (states[i].running != {} ==> states[i].running == {states[i].generation})
    ensures Probing(states[i].place) ==> states[i].n <= limit
    ensures Monitoring(states[i].place) ==> states[i].heard
  {
    if i > 0 {
      EveryRunKeepsInv(limit, states, labels, i - 1);
      InvIsKept(limit, states[i - 1], labels[i - 1], states[i]);
    }
    if states[i].running != {} {
      var g :| g in states[i].running;
      assert states[i].running == {states[i].vp};
    }
  }

  /* ----- a healthy forward is left alone ----- */

  predicate Healthy(s: State, child: nat) {
    s.vp == child && child in s.running && s.listening
  }

  /** The places from which a healthy child is kept: some check of it is still to come before any kill. */
  predicate Keeps(limit: nat, s: State) {
    match s.place
    case ProbeSleep(_) | ProbeListen | MonitorAlive | MonitorListen | MonitorSleep(_) => true
    case ProbeGuard | ProbeAlive => s.n < limit
    case _ => false
  }

  /** While it stays healthy, a kept child is never signalled and never replaced. */
  lemma {:induction false} HealthyIsNeverKilled(limit: nat, states: seq<State>, labels: seq<Label>, i: nat)
    requires IsRun(limit, states, labels) && Inv(limit, states[0]) && Keeps(limit, states[0])
    requires forall j | 0 <= j < |states| :: Healthy(states[j], states[0].vp)
    requires i < |states|
    ensures Inv(limit, states[i]) && Keeps(limit, states[i])
    ensures states[i].generation == states[0].generation && states[0].vp !in states[i].signalled
  {
    if i > 0 {
      HealthyIsNeverKilled(limit, states, labels, i - 1);
      assert Healthy(states[i - 1], states[0].vp) && Healthy(states[i], states[0].vp);
      assert Next(limit, states[i - 1], labels[i - 1], states[i]);
    }
  }

  /** Script steps until the signal, from a place that keeps nothing. */
  function StepsToSignal(s: State): nat {
    match s.place
    case ProbeAlive => 3
    case ProbeGuard => 2
    case Kill => 1
    case _ => 0
  }

  /** And only those places: from any other, the healthy child is signalled within three script steps. */
  lemma {:induction false} OthersAreKilled(limit: nat, states: seq<State>, labels: seq<Label>)
    requires IsRun(limit, states, labels) && Inv(limit, states[0]) && !Keeps(limit, states[0])
    requires forall j | 0 <= j < |states| :: Healthy(states[j], states[0].vp)
    requires ScriptSteps(labels) >= StepsToSignal(states[0])
    ensures StepsToSignal(states[0]) <= 3 && states[0].vp in states[|states| - 1].signalled
    decreases |labels|
  {
    assert Healthy(states[0], states[0].vp);
    if labels != [] {
      var s, s' := states[0], states[1];
      assert Next(limit, s, labels[0], s') && Healthy(s', s.vp);
      if s.vp in s.signalled {
        SignalsStay(limit, states, labels, s.vp);
      } else {
        InvIsKept(limit, s, labels[0], s');
        RunTail(limit, states, labels);
        if s'.vp in s'.signalled {
          SignalsStay(limit, states[1..], labels[1..], s.vp);
        } else {
          OthersAreKilled(limit, states[1..], labels[1..]);
        }
      }
    }
  }

  lemma RunTail(limit: nat, states: seq<State>, labels: seq<Label>)
    requires IsRun(limit, states, labels) && labels != []
    ensures IsRun(limit, states[1..], labels[1..])
  {
  }

  lemma {:induction false} SignalsStay(limit: nat, states: seq<State>, labels: seq<Label>, child: nat)
    requires IsRun(limit, states, labels) && child in states[0].signalled
    ensures child in states[|states| - 1].signalled
    decreases |labels|
  {
    if labels != [] {
      assert Next(limit, states[0], labels[0], states[1]);
      RunTail(limit, states, labels);
      SignalsStay(limit, states[1..], labels[1..], child);
    }
  }

  /* ----- a broken forward is replaced in time ----- */

  /** The child is gone, or nothing listens on the port. */
  datatype Trouble = Gone | Deaf

  predicate InTrouble(t: Trouble, s: State) {
    match t
    case Gone => s.vp !in s.running
    case Deaf => !s.listening
  }

  /** The longest time the script may still take until it spawns. */
  function Patience(limit: nat, s: State, t: Trouble): nat
    requires Probing(s.place) ==> s.n <= limit
  {
    var probes := if t.Deaf? then (limit - s.n) * PROBE_SLEEP else 0;
    match s.place
    case Boot | Spawn => 0
    case ProbeGuard => (if t.Gone? && s.n < limit then PROBE_SLEEP else probes) + REST_SLEEP
    case ProbeSleep(left) => left + (if t.Gone? || s.n >= limit then 0 else probes - PROBE_SLEEP) + REST_SLEEP
    case ProbeListen | ProbeAlive => probes + REST_SLEEP
    case MonitorAlive | Kill => REST_SLEEP
    case MonitorListen => (if t.Gone? then MONITOR_SLEEP else 0) + REST_SLEEP
    case MonitorSleep(left) => left + REST_SLEEP
    case Rest(left) => left
  }

  /** The largest number of script steps until the spawn. */
  function StepsLeft(limit: nat, s: State, t: Trouble): nat
    requires Probing(s.place) ==> s.n <= limit
  {
    match s.place
    case Spawn => 0
    case Boot | Rest(_) => 1
    case Kill => 2
    case ProbeGuard => 4 * (limit - s.n) + 3
    case ProbeSleep(_) => 4 * (limit - s.n) + 2
    case ProbeListen => 4 * (limit - s.n) + 5
    case ProbeAlive => 4 * (limit - s.n) + 4
    case MonitorAlive => 4
    case MonitorListen => if t.Gone? then 6 else 3
    case MonitorSleep(_) => 5
  }

  function Max(a: nat, b: nat): nat {
    if a < b then b else a
  }

  function RespawnBound(limit: nat): nat {
    Max(limit * PROBE_SLEEP, MONITOR_SLEEP) + REST_SLEEP
  }

  lemma PatienceIsBounded(limit: nat, s: State, t: Trouble)
    requires Inv(limit, s)
    ensures Patience(limit, s, t) <= RespawnBound(limit)
    ensures StepsLeft(limit, s, t) <= 4 * limit + 6
  {
  }

  /** Under trouble, time passed is patience spent. */
  lemma TroubleCostsPatience(limit: nat, s: State, l: Label, s': State, t: Trouble)
    requires Inv(limit, s) && Inv(limit, s') && Next(limit, s, l, s') && s'.generation == s.generation
    requires InTrouble(t, s) && InTrouble(t, s')
    ensures Patience(limit, s', t) + TimeOf(l) <= Patience(limit, s, t)
  {
  }

  lemma TroubleCostsSteps(limit: nat, s: State, l: Label, s': State, t: Trouble)
    requires Inv(limit, s) && Inv(limit, s') && Next(limit, s, l, s') && s'.generation == s.generation
    requires InTrouble(t, s) && InTrouble(t, s')
    ensures StepsLeft(limit, s', t) + StepsOf(l) <= StepsLeft(limit, s, t)
  {
  }

  lemma {:induction false} TroubleIsBounded(limit: nat, states: seq<State>, labels: seq<Label>, t: Trouble)
    requires IsRun(limit, states, labels) && Inv(limit, states[0])
    requires forall i | 0 <= i < |states| :: states[i].generation == states[0].generation && InTrouble(t, states[i])
    ensures Elapsed(labels) <= Patience(limit, states[0], t)
    ensures ScriptSteps(labels) <= StepsLeft(limit, states[0], t)
    decreases |labels|
  {
    if labels != [] {
      assert Next(limit, states[0], labels[0], states[1]);
      assert states[1].generation == states[0].generation && InTrouble(t, states[1]) && InTrouble(t, states[0]);
      InvIsKept(limit, states[0], labels[0], states[1]);
      TroubleCostsPatience(limit, states[0], labels[0], states[1], t);
      TroubleCostsSteps(limit, states[0], labels[0], states[1], t);
      RunTail(limit, states, labels);
      TroubleIsBounded(limit, states[1..], labels[1..], t);
    }
  }

  lemma {:induction false} GenerationsRise(limit: nat, states: seq<State>, labels: seq<Label>, i: nat, j: nat)
    requires IsRun(limit, states, labels) && i <= j < |states|
    ensures states[i].generation <= states[j].generation
    decreases j - i
  {
    if i < j {
      assert Next(limit, states[j - 1], labels[j - 1], states[j]);
      GenerationsRise(limit, states, labels, i, j - 1);
    }
  }

  /**
   While its child is gone, or the port stays un-listened, the supervisor can neither let more than
   max(limit, 2) + 2 seconds pass nor take more than 4 limit + 6 steps without spawning a fresh child.
   */
  lemma BrokenForwardIsReplaced(limit: nat, states: seq<State>, labels: seq<Label>, t: Trouble)
    requires IsRun(limit, states, labels) && Inv(limit, states[0])
    requires forall i | 0 <= i < |states| && states[i].generation == states[0].generation :: InTrouble(t, states[i])
    requires Elapsed(labels) > (if limit < 2 then 2 else limit) * 1_000_000_000 + 2_000_000_000
             || ScriptSteps(labels) > 4 * limit + 6
    ensures states[|states| - 1].generation > states[0].generation
  {
    var last := |states| - 1;
    GenerationsRise(limit, states, labels, 0, last);
    if states[last].generation == states[0].generation {
      forall i | 0 <= i < |states| ensures states[i].generation == states[0].generation && InTrouble(t, states[i]) {
        GenerationsRise(limit, states, labels, 0, i);
        GenerationsRise(limit, states, labels, i, last);
      }
      TroubleIsBounded(limit, states, labels, t);
      PatienceIsBounded(limit, states[0], t);
      assert false;
    }
  }

  lemma {:induction false} GoneStaysGone(limit: nat, states: seq<State>, labels: seq<Label>, i: nat)
    requires IsRun(limit, states, labels) && Inv(limit, states[0]) && InTrouble(Gone, states[0])
    requires i < |states| && states[i].generation == states[0].generation
    ensures Inv(limit, states[i]) && InTrouble(Gone, states[i])
  {
    if i > 0 {
      GenerationsRise(limit, states, labels, 0, i - 1);
      GenerationsRise(limit, states, labels, i - 1, i);
      GoneStaysGone(limit, states, labels, i - 1);
      assert Next(limit, states[i - 1], labels[i - 1], states[i]);
      InvIsKept(limit, states[i - 1], labels[i - 1], states[i]);
    }
  }

  lemma GonePatience(limit: nat, s: State)
    requires Inv(limit, s)
    ensures Patience(limit, s, Gone) <= 4_000_000_000
  {
  }

  /** A virtctl that is gone is noticed, and replaced, within four seconds, whatever the limit. */
  lemma DeadChildIsReplaced(limit: nat, states: seq<State>, labels: seq<Label>)
    requires IsRun(limit, states, labels) && Inv(limit, states[0]) && InTrouble(Gone, states[0])
    requires Elapsed(labels) > 4_000_000_000
    ensures states[|states| - 1].generation > states[0].generation
  {
    var last := |states| - 1;
    GenerationsRise(limit, states, labels, 0, last);
    if states[last].generation == states[0].generation {
      forall i | 0 <= i < |states|
        ensures states[i].generation == states[0].generation && InTrouble(Gone, states[i])
      {
        GenerationsRise(limit, states, labels, 0, i);
        GenerationsRise(limit, states, labels, i, last);
        GoneStaysGone(limit, states, labels, i);
      }
      TroubleIsBounded(limit, states, labels, Gone);
      GonePatience(limit, states[0]);
      assert false;
    }
  }

  /** Ending only the virtctl child, at any reachable moment, gets a new one within four seconds. */
  lemma KilledChildIsReplaced(limit: nat, states: seq<State>, labels: seq<Label>)
    requires IsRun(limit, states, labels) && Inv(limit, states[0])
    requires labels != [] && labels[0] == Exit(states[0].vp)
    requires Elapsed(labels) > 4_000_000_000
    ensures states[|states| - 1].generation > states[0].generation
  {
    assert Next(limit, states[0], labels[0], states[1]);
    InvIsKept(limit, states[0], labels[0], states[1]);
    RunTail(limit, states, labels);
    DeadChildIsReplaced(limit, states[1..], labels[1..]);
  }
}
