/**
 What a fresh virtctl is granted, in seconds since its spawn: it is probed, and not signalled, until the
 limit has passed; if the port opens by then and stays open, it is kept and monitored.
 */
module ProbeWindow {
  import opened Supervisor

  /* ----- time and steps of a growing run ----- */

  lemma {:induction false} ElapsedExtends(labels: seq<Label>, l: Label)
    ensures Elapsed(labels + [l]) == Elapsed(labels) + TimeOf(l)
  {
    if labels == [] {
      assert [l][1..] == [];
      assert [] + [l] == [l];
    } else {
      assert (labels + [l])[1..] == labels[1..] + [l];
      ElapsedExtends(labels[1..], l);
    }
  }

  lemma ElapsedTo(labels: seq<Label>, i: nat)
    requires i < |labels|
    ensures Elapsed(labels[..i + 1]) == Elapsed(labels[..i]) + TimeOf(labels[i])
  {
    assert labels[..i + 1] == labels[..i] + [labels[i]];
    ElapsedExtends(labels[..i], labels[i]);
  }

  lemma {:induction false} ElapsedGrows(labels: seq<Label>, i: nat, j: nat)
    requires i <= j <= |labels|
    ensures Elapsed(labels[..i]) <= Elapsed(labels[..j])
  {
    if i < j {
      ElapsedGrows(labels, i, j - 1);
      ElapsedTo(labels, j - 1);
    }
  }

  lemma RunFrom(limit: nat, states: seq<State>, labels: seq<Label>, k: nat)
    requires IsRun(limit, states, labels) && k <= |labels|
    ensures IsRun(limit, states[k..], labels[k..])
  {
    var later, rest := states[k..], labels[k..];
    forall i | 0 <= i < |rest| ensures Next(limit, later[i], rest[i], later[i + 1]) {
      assert Next(limit, states[k + i], labels[k + i], states[k + i + 1]);
    }
  }

  /* ----- before the port opens ----- */

  /** A run that begins with a spawn, and the child it spawns. */
  predicate BeginsWithSpawn(states: seq<State>, labels: seq<Label>) {
    |states| >= 2 && labels != [] && states[0].place.Spawn? && labels[0] == Script
  }

  function Child(states: seq<State>): nat
    requires states != []
  {
    states[0].generation + 1
  }

  /** The child is alive from its spawn to the i-th state, and no state between saw the port listening. */
  ghost predicate Waits(states: seq<State>, i: nat)
    requires 0 < i < |states|
  {
    && (forall j | 1 <= j <= i :: Child(states) in states[j].running)
    && (forall j | 1 <= j < i :: !states[j].listening)
  }

  /** The clock of the probing: n whole seconds, and what has passed of the next. */
  predicate OnTheClock(limit: nat, s: State, child: nat, time: nat) {
    && s.vp == s.generation == child && child !in s.signalled && s.n <= limit
    && match s.place
       case ProbeGuard | ProbeListen | ProbeAlive => time == s.n * 1_000_000_000
       case ProbeSleep(left) => left <= 1_000_000_000 && time + left == (s.n + 1) * 1_000_000_000 && s.n < limit
       case _ => false
  }

  lemma ClockStep(limit: nat, s: State, l: Label, s': State, child: nat, time: nat)
    requires OnTheClock(limit, s, child, time) && Next(limit, s, l, s') && !s.listening
    requires child in s.running && time < limit * 1_000_000_000
    ensures OnTheClock(limit, s', child, time + TimeOf(l))
  {
    WholeSeconds(s.n, limit);
  }

  lemma WholeSeconds(n: nat, limit: nat)
    ensures n * 1_000_000_000 < limit * 1_000_000_000 <==> n < limit
  {
  }

  lemma SpawnStartsTheClock(limit: nat, s: State, s': State)
    requires Inv(limit, s) && s.place.Spawn? && Next(limit, s, Script, s')
    ensures OnTheClock(limit, s', s.generation + 1, 0)
  {
  }

  lemma {:induction false} StaysOnTheClock(limit: nat, states: seq<State>, labels: seq<Label>, i: nat)
    requires IsRun(limit, states, labels) && Inv(limit, states[0]) && BeginsWithSpawn(states, labels)
    requires 0 < i < |states| && Waits(states, i) && Elapsed(labels[..i]) < limit * 1_000_000_000
    ensures OnTheClock(limit, states[i], Child(states), Elapsed(labels[..i]))
  {
    ElapsedTo(labels, i - 1);
    ElapsedGrows(labels, i - 1, i);
    assert Next(limit, states[i - 1], labels[i - 1], states[i]);
    if i == 1 {
      SpawnStartsTheClock(limit, states[0], states[1]);
      assert labels[..0] == [];
    } else {
      StaysOnTheClock(limit, states, labels, i - 1);
      ClockStep(limit, states[i - 1], labels[i - 1], states[i], Child(states), Elapsed(labels[..i - 1]));
    }
  }

  /**
   While a fresh child lives with the port un-listened, it is not signalled, and goes on being probed,
   until limit seconds have passed since its spawn.
   */
  lemma FreshChildHasItsProbes(limit: nat, states: seq<State>, labels: seq<Label>, i: nat)
    requires IsRun(limit, states, labels) && Inv(limit, states[0]) && BeginsWithSpawn(states, labels)
    requires 0 < i < |states| && Waits(states, i) && Elapsed(labels[..i]) < limit * 1_000_000_000
    ensures states[i].vp == states[i].generation == Child(states) && Child(states) !in states[i].signalled
    ensures Probing(states[i].place) && states[i].n * 1_000_000_000 <= Elapsed(labels[..i]) + 1_000_000_000
    ensures Elapsed(labels[..i]) <= (states[i].n + 1) * 1_000_000_000
  {
    StaysOnTheClock(limit, states, labels, i);
  }

  /* ----- once the port is open ----- */

  /**
   The child lives from its spawn on; the port opens at state k, less than limit seconds after the
   spawn, and stays open.
   */
  ghost predicate OpensInTime(limit: nat, states: seq<State>, labels: seq<Label>, k: nat)
    requires |states| == |labels| + 1
  {
    && 0 < k < |states| && Elapsed(labels[..k]) < limit * 1_000_000_000
    && (forall i | 0 < i < |states| :: Child(states) in states[i].running)
    && (forall i | 0 < i < |states| :: states[i].listening <==> k <= i)
  }

  lemma OpenIsKept(limit: nat, states: seq<State>, labels: seq<Label>, k: nat)
    requires IsRun(limit, states, labels) && Inv(limit, states[0]) && BeginsWithSpawn(states, labels)
    requires OpensInTime(limit, states, labels, k)
    ensures Inv(limit, states[k]) && Keeps(limit, states[k]) && states[k].vp == states[k].generation == Child(states)
    ensures Child(states) !in states[k].signalled && Probing(states[k].place)
  {
    StaysOnTheClock(limit, states, labels, k);
    WholeSeconds(states[k].n, limit);
    InvAt(limit, states, labels, k);
  }

  lemma {:induction false} InvAt(limit: nat, states: seq<State>, labels: seq<Label>, i: nat)
    requires IsRun(limit, states, labels) && Inv(limit, states[0]) && i < |states|
    ensures Inv(limit, states[i])
  {
    if i > 0 {
      InvAt(limit, states, labels, i - 1);
      InvIsKept(limit, states[i - 1], labels[i - 1], states[i]);
    }
  }

  lemma OpenIsHealthy(limit: nat, states: seq<State>, labels: seq<Label>, k: nat, i: nat)
    requires IsRun(limit, states, labels) && Inv(limit, states[0]) && |states| == |labels| + 1 && labels != []
    requires OpensInTime(limit, states, labels, k) && k <= i < |states|
    ensures Healthy(states[i], Child(states))
  {
    InvAt(limit, states, labels, i);
    assert Child(states) in states[i].running;
  }

  /**
   A child whose port opens within limit seconds of its spawn, and stays open while the child lives, is
   never signalled and never replaced.
   */
  lemma OpenInTimeIsNeverKilled(limit: nat, states: seq<State>, labels: seq<Label>, k: nat, i: nat)
    requires IsRun(limit, states, labels) && Inv(limit, states[0]) && BeginsWithSpawn(states, labels)
    requires OpensInTime(limit, states, labels, k) && 0 < i < |states|
    ensures Child(states) !in states[i].signalled && states[i].generation == states[i].vp == Child(states)
  {
    if i < k {
      ElapsedGrows(labels, i, k);
      StaysOnTheClock(limit, states, labels, i);
    } else {
      var later, rest := states[k..], labels[k..];
      OpenIsKept(limit, states, labels, k);
      RunFrom(limit, states, labels, k);
      forall j | 0 <= j < |later| ensures Healthy(later[j], later[0].vp) {
        OpenIsHealthy(limit, states, labels, k, k + j);
      }
      HealthyIsNeverKilled(limit, later, rest, i - k);
      assert later[i - k] == states[i];
    }
  }

  /** The longest until a kept child that is healthy is monitored. */
  function ProbeTimeLeft(p: Place): nat {
    match p
    case ProbeAlive | ProbeGuard => 1_000_000_000
    case ProbeSleep(left) => left
    case _ => 0
  }

  function ProbeStepsLeft(p: Place): nat {
    match p
    case ProbeAlive => 4
    case ProbeGuard => 3
    case ProbeSleep(_) => 2
    case _ => 1
  }

  lemma HealthyProbeStep(limit: nat, s: State, l: Label, s': State)
    requires Inv(limit, s) && Keeps(limit, s) && Probing(s.place) && Next(limit, s, l, s')
    requires Healthy(s, s.vp) && Healthy(s', s.vp)
    ensures Inv(limit, s') && Keeps(limit, s') && (Probing(s'.place) || Monitoring(s'.place))
    ensures Probing(s'.place) ==> && ProbeTimeLeft(s'.place) + TimeOf(l) <= ProbeTimeLeft(s.place)
                                  && ProbeStepsLeft(s'.place) + StepsOf(l) <= ProbeStepsLeft(s.place)
    ensures Monitoring(s'.place) ==> TimeOf(l) <= ProbeTimeLeft(s.place)
  {
  }

  lemma {:induction false} HealthyIsHeard(limit: nat, states: seq<State>, labels: seq<Label>)
    requires IsRun(limit, states, labels) && Inv(limit, states[0])
    requires Keeps(limit, states[0]) && Probing(states[0].place)
    requires forall i | 0 <= i < |states| :: Healthy(states[i], states[0].vp) && !Monitoring(states[i].place)
    ensures Elapsed(labels) <= ProbeTimeLeft(states[0].place) && ScriptSteps(labels) < ProbeStepsLeft(states[0].place)
    decreases |labels|
  {
    if labels != [] {
      assert Next(limit, states[0], labels[0], states[1]);
      assert Healthy(states[0], states[0].vp) && Healthy(states[1], states[0].vp) && !Monitoring(states[1].place);
      HealthyProbeStep(limit, states[0], labels[0], states[1]);
      RunTail(limit, states, labels);
      HealthyIsHeard(limit, states[1..], labels[1..]);
    }
  }

  /** And it is monitored within one second of the port's opening, or four steps of the script. */
  lemma OpenInTimeIsMonitored(limit: nat, states: seq<State>, labels: seq<Label>, k: nat)
    requires IsRun(limit, states, labels) && Inv(limit, states[0]) && BeginsWithSpawn(states, labels)
    requires OpensInTime(limit, states, labels, k)
    requires Elapsed(labels[k..]) > 1_000_000_000 || ScriptSteps(labels[k..]) >= 4
    ensures exists i | k <= i < |states| :: Monitoring(states[i].place) && states[i].vp == Child(states)
  {
    var later, rest := states[k..], labels[k..];
    OpenIsKept(limit, states, labels, k);
    RunFrom(limit, states, labels, k);
    forall j | 0 <= j < |later| ensures Healthy(later[j], later[0].vp) {
      OpenIsHealthy(limit, states, labels, k, k + j);
    }
    if forall j | 0 <= j < |later| :: !Monitoring(later[j].place) {
      HealthyIsHeard(limit, later, rest);
      assert false;
    }
    var j :| 0 <= j < |later| && Monitoring(later[j].place);
    assert later[j] == states[k + j] && Healthy(later[j], later[0].vp);
  }

  /** From the start of the script the first two steps lead to a spawn, whatever the port does meanwhile. */
  predicate Untouched(s: State) {
    s.generation == s.vp == s.n == 0 && s.running == s.signalled == {} && !s.heard
  }

  lemma {:induction false} StartReachesASpawn(limit: nat, states: seq<State>, labels: seq<Label>) returns (at: nat)
    requires IsRun(limit, states, labels) && Untouched(states[0]) && (states[0].place.Boot? || states[0].place.Spawn?)
    requires ScriptSteps(labels) >= if states[0].place.Boot? then 2 else 1
    ensures at < |labels| && states[at].place.Spawn? && labels[at] == Script && Untouched(states[at])
    decreases |labels|
  {
    assert Next(limit, states[0], labels[0], states[1]);
    if states[0].place.Spawn? && labels[0] == Script {
      return 0;
    }
    RunTail(limit, states, labels);
    var later := StartReachesASpawn(limit, states[1..], labels[1..]);
    at := later + 1;
  }

  /** Some state of the run is monitoring. */
  predicate Monitors(states: seq<State>) {
    exists i | 0 <= i < |states| :: Monitoring(states[i].place)
  }

  /** From the start of the script the first two steps end in a spawn. */
  lemma StartSpawns(limit: nat, states: seq<State>, labels: seq<Label>) returns (at: nat)
    requires IsRun(limit, states, labels) && states[0] == START && ScriptSteps(labels) >= 2
    ensures at < |labels| && BeginsWithSpawn(states[at..], labels[at..]) && Child(states[at..]) == 1
  {
    at := StartReachesASpawn(limit, states, labels);
  }

  /**
   In every run from the start of the script, for every spawn in it, the first one or a later one: a child
   whose port opens within limit seconds of its spawn and stays open is neither signalled nor replaced,
   and is monitored within one second, or four steps, of the opening.
   */
  lemma EveryChildIsMonitored(limit: nat, states: seq<State>, labels: seq<Label>, at: nat, k: nat)
    requires IsRun(limit, states, labels) && states[0] == START && at < k < |states|
    requires BeginsWithSpawn(states[at..], labels[at..]) && OpensInTime(limit, states[at..], labels[at..], k - at)
    ensures forall i | at < i < |states| ::
              Child(states[at..]) !in states[i].signalled && states[i].generation == Child(states[at..])
    ensures Elapsed(labels[k..]) > 1_000_000_000 || ScriptSteps(labels[k..]) >= 4 ==> Monitors(states[k..])
  {
    var later, rest := states[at..], labels[at..];
    RunFrom(limit, states, labels, at);
    EveryRunKeepsInv(limit, states, labels, at);
    forall i | at < i < |states| ensures Child(later) !in states[i].signalled && states[i].generation == Child(later) {
      OpenInTimeIsNeverKilled(limit, later, rest, k - at, i - at);
      assert later[i - at] == states[i];
    }
    assert rest[k - at..] == labels[k..];
    if Elapsed(labels[k..]) > 1_000_000_000 || ScriptSteps(labels[k..]) >= 4 {
      OpenInTimeIsMonitored(limit, later, rest, k - at);
      var j :| k - at <= j < |later| && Monitoring(later[j].place);
      assert later[j] == states[k..][j - (k - at)];
    }
  }

  /* ----- the sleeps are slept ----- */

  /** A sleep of the script lasts as long as it says. */
  lemma {:induction false} SleepLasts(limit: nat, states: seq<State>, labels: seq<Label>, i: nat)
    requires IsRun(limit, states, labels) && Sleeping(states[0].place) && i < |states|
    ensures Elapsed(labels[..i]) >= states[0].place.left
            || (&& Sleeping(states[i].place) && Elapsed(labels[..i]) + states[i].place.left == states[0].place.left
                && states[i].generation == states[0].generation
                && (states[i].place.Rest? <==> states[0].place.Rest?)
                && (states[i].place.MonitorSleep? <==> states[0].place.MonitorSleep?))
  {
    if i > 0 {
      SleepLasts(limit, states, labels, i - 1);
      ElapsedTo(labels, i - 1);
      assert Next(limit, states[i - 1], labels[i - 1], states[i]);
    } else {
      assert labels[..0] == [];
    }
  }

  /** After a kill the script rests two seconds before it spawns again. */
  lemma KillIsRested(limit: nat, states: seq<State>, labels: seq<Label>, i: nat)
    requires IsRun(limit, states, labels) && labels != [] && states[0].place.Kill? && labels[0] == Script
    requires 0 < i < |states| && states[i].generation > states[0].generation
    ensures Elapsed(labels[..i]) >= 2_000_000_000
  {
    assert Next(limit, states[0], labels[0], states[1]);
    RunTail(limit, states, labels);
    SleepLasts(limit, states[1..], labels[1..], i - 1);
    assert labels[..i][1..] == labels[1..][..i - 1];
  }

  /** A listening port is looked at again two seconds later. */
  lemma MonitoringIsPaced(limit: nat, states: seq<State>, labels: seq<Label>, i: nat)
    requires IsRun(limit, states, labels) && labels != [] && labels[0] == Script
    requires states[0].place.MonitorListen? && states[0].listening
    requires 0 < i < |states| && !states[i].place.MonitorSleep?
    ensures Elapsed(labels[..i]) >= 2_000_000_000
  {
    assert Next(limit, states[0], labels[0], states[1]);
    RunTail(limit, states, labels);
    SleepLasts(limit, states[1..], labels[1..], i - 1);
    assert labels[..i][1..] == labels[1..][..i - 1];
  }
}
