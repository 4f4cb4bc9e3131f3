/**
 The bounded polling loops of cluster_ops.go, methods.go and migrate.go: get, look, give up after the
 deadline, sleep two seconds. The nine loops differ only in how they read the object; they are one
 loop here, proved against a complete account of its outcome. Times are in nanoseconds.
 */
module Polling {
  import opened Clock
  import opened JsonValues
  import opened Wrappers

  const POLL_SLEEP: nat := 2 * SECOND

  /* ----- reading a status ----- */

  function ListAt(u: Object, path: seq<string>): seq<Json> {
    match At(u, path)
    case Some(Arr(items)) => items
    case _ => []
  }

  predicate IsTrueCondition(item: Json, kind: string) {
    Field(Some(item), "type") == Some(Str(kind)) && Field(Some(item), "status") == Some(Str("True"))
  }

  predicate HasCondition(u: Object, kind: string) {
    exists i | 0 <= i < |ListAt(u, ["status", "conditions"])| ::
      IsTrueCondition(ListAt(u, ["status", "conditions"])[i], kind)
  }

  /** vmiReady and vmiAgentConnected: the scan over status.conditions. */
  method ConditionTrue(u: Object, kind: string) returns (found: bool)
    ensures found <==> HasCondition(u, kind)
  {
    var list := ListAt(u, ["status", "conditions"]);
    for i := 0 to |list|
      invariant forall j | 0 <= j < i :: !IsTrueCondition(list[j], kind)
    {
      if !list[i].Obj? { continue; }
      if IsTrueCondition(list[i], kind) { return true; }
    }
    found := false;
  }

  function AddressOf(item: Json): string {
    match Field(Some(item), "ipAddress")
    case Some(Str(ip)) => ip
    case _ => ""
  }

  function FirstAddress(list: seq<Json>): string {
    if list == [] then "" else if AddressOf(list[0]) != "" then AddressOf(list[0]) else FirstAddress(list[1..])
  }

  function InterfaceIP(u: Object): string {
    FirstAddress(ListAt(u, ["status", "interfaces"]))
  }

  lemma {:induction false} FirstAddressIsFirst(list: seq<Json>)
    ensures FirstAddress(list) != "" <==> exists i | 0 <= i < |list| :: AddressOf(list[i]) != ""
    ensures forall i | 0 <= i < |list| && AddressOf(list[i]) != ""
                       && (forall j | 0 <= j < i :: AddressOf(list[j]) == "") ::
              FirstAddress(list) == AddressOf(list[i])
  {
    if list != [] && AddressOf(list[0]) == "" {
      var rest := list[1..];
      FirstAddressIsFirst(rest);
      forall i | 0 <= i < |list| && AddressOf(list[i]) != "" && (forall j | 0 <= j < i :: AddressOf(list[j]) == "")
        ensures FirstAddress(list) == AddressOf(list[i])
      {
        assert forall j | 0 <= j < i - 1 :: AddressOf(rest[j]) == AddressOf(list[j + 1]);
        assert rest[i - 1] == list[i];
      }
      if FirstAddress(rest) != "" {
        var i :| 0 <= i < |rest| && AddressOf(rest[i]) != "";
        assert AddressOf(list[i + 1]) != "";
      }
      if i :| 0 <= i < |list| && AddressOf(list[i]) != "" {
        assert AddressOf(rest[i - 1]) != "";
      }
    }
  }

  method VmiInterfaceIP(u: Object) returns (ip: string)
    ensures ip == InterfaceIP(u)
  {
    var list := ListAt(u, ["status", "interfaces"]);
    var i := 0;
    while i < |list|
      invariant 0 <= i <= |list|
      invariant FirstAddress(list[i..]) == FirstAddress(list)
    {
      if AddressOf(list[i]) != "" { return AddressOf(list[i]); }
      i := i + 1;
    }
    ip := "";
  }

  /* ----- the nine loops ----- */

  datatype Loop =
    | VenueReady
    | VenueAgent
    | VenueAddress
    | VerbReady(what: string)
    | Platform(what: string)
    | GuestInfo
    | DataVolume(what: string, json: bool)
    | Snapshot(what: string, json: bool)
    | Migration

  datatype Reply = Nothing | Line(text: string) | Dump(body: Object)

  /** How a loop reads an object: keep polling, return an answer, or stop at a terminal failure. */
  datatype Verdict = Pending | Answer(reply: Reply) | Dead

  function Labelled(tag: string, value: string): string {
    if value == "" then "" else tag + "=" + value + "\n"
  }

  function GuestText(u: Object): string {
    "agent-connected=true\n"
    + Labelled("guest-id", TextAt(u, ["status", "guestOSInfo", "id"]))
    + Labelled("guest-name", TextAt(u, ["status", "guestOSInfo", "name"]))
    + Labelled("guest-version", TextAt(u, ["status", "guestOSInfo", "version"]))
  }

  function PhaseOf(u: Object): string {
    TextAt(u, ["status", "phase"])
  }

  function PhaseVerdict(u: Object, success: Reply, json: bool): Verdict {
    if PhaseOf(u) == "Succeeded" then Answer(success)
    else if PhaseOf(u) == "Failed" then Dead
    else if json then Answer(Dump(u))
    else Pending
  }

  type Reading = Object -> Verdict

  function Look(loop: Loop, u: Object): Verdict {
    match loop
    case VenueReady => if HasCondition(u, "Ready") then Answer(Nothing) else Pending
    case VenueAgent => if HasCondition(u, "AgentConnected") then Answer(Nothing) else Pending
    case VenueAddress => if InterfaceIP(u) != "" then Answer(Nothing) else Pending
    case VerbReady(what) => if HasCondition(u, "Ready") then Answer(Line(what + " Ready\n")) else Pending
    case Platform(what) => if PhaseOf(u) == "Deployed" then Answer(Line(what + " Deployed\n")) else Pending
    case GuestInfo => if HasCondition(u, "AgentConnected") then Answer(Line(GuestText(u))) else Pending
    case DataVolume(what, json) => PhaseVerdict(u, Line(what + " Succeeded\n"), json)
    case Snapshot(what, json) => PhaseVerdict(u, Line(what + " Succeeded\n"), json)
    case Migration => PhaseVerdict(u, Nothing, false)
  }

  function LookFor(loop: Loop): Reading {
    u => Look(loop, u)
  }

  /* ----- time ----- */

  datatype GetResult = Found(body: Object) | Absent | Failed

  /** What the cluster would answer at each instant. */
  type Status = nat -> GetResult

  /**
   How long things take: the server answers the i-th Get observeAfter(i) after it was issued, the
   answer arrives replyAfter(i) later, and the i-th sleep overruns by oversleep(i).
   */
  datatype Timing = Timing(observeAfter: nat -> nat, replyAfter: nat -> nat, oversleep: nat -> nat) {
    function IssuedAt(start: nat, i: nat): nat {
      if i == 0 then start
      else IssuedAt(start, i - 1) + observeAfter(i - 1) + replyAfter(i - 1) + POLL_SLEEP + oversleep(i - 1)
    }

    function ObservedAt(start: nat, i: nat): nat {
      IssuedAt(start, i) + observeAfter(i)
    }

    function RepliedAt(start: nat, i: nat): nat {
      ObservedAt(start, i) + replyAfter(i)
    }
  }

  datatype Outcome = Returned(reply: Reply) | TerminalPhase | GetFailed | TimedOut

  /** One polling run: how it ended, after how many Gets, and when. */
  datatype Run = Run(outcome: Outcome, gets: nat, finish: nat)

  function VerdictAt(look: Reading, status: Status, t: nat): Verdict {
    match status(t)
    case Found(u) => look(u)
    case Absent => Pending
    case Failed => Dead
  }

  /** The i-th Get settles nothing and is answered in time. */
  ghost predicate Continues(look: Reading, status: Status, w: Timing, start: nat, timeout: nat, i: nat) {
    VerdictAt(look, status, w.ObservedAt(start, i)) == Pending && w.RepliedAt(start, i) <= start + timeout
  }

  /** The whole account of a run: nothing settled before the last Get, which settles it or is past the deadline. */
  ghost predicate Settled(look: Reading, status: Status, w: Timing, start: nat, timeout: nat, run: Run) {
    && run.gets >= 1
    && (forall i: nat | i < run.gets - 1 :: Continues(look, status, w, start, timeout, i))
    && run.finish == w.RepliedAt(start, run.gets - 1)
    && var last := w.ObservedAt(start, run.gets - 1);
       match VerdictAt(look, status, last)
       case Answer(reply) => run.outcome == Returned(reply)
       case Dead => run.outcome == if status(last).Failed? then GetFailed else TerminalPhase
       case Pending => run.outcome == TimedOut && run.finish > start + timeout
  }

  lemma {:induction false} GetsAreSpaced(w: Timing, start: nat, i: nat)
    ensures w.IssuedAt(start, i) >= start + POLL_SLEEP * i
  {
    if i > 0 {
      GetsAreSpaced(w, start, i - 1);
    }
  }

  /** A bound of T seconds allows at most floor(T / 2) + 2 Gets. */
  lemma GetsAreBounded(look: Reading, status: Status, w: Timing, start: nat, timeout: nat, run: Run)
    requires Settled(look, status, w, start, timeout, run)
    ensures run.gets <= timeout / 2_000_000_000 + 2
  {
    if run.gets >= 2 {
      var i: nat := run.gets - 2;
      assert Continues(look, status, w, start, timeout, i);
      GetsAreSpaced(w, start, i);
      SleepsFit(timeout, i);
    }
  }

  lemma SleepsFit(timeout: nat, i: nat)
    requires POLL_SLEEP * i <= timeout
    ensures i <= timeout / POLL_SLEEP
  {
  }

  method PollUntil(look: Reading, status: Status, w: Timing, start: nat, timeout: nat) returns (run: Run)
    ensures Settled(look, status, w, start, timeout, run)
  {
    var deadline := start + timeout;
    var now := start;
    var i: nat := 0;
    while true
      invariant now == w.IssuedAt(start, i)
      invariant forall j: nat | j < i :: Continues(look, status, w, start, timeout, j)
      decreases deadline - now
    {
      var got := status(now + w.observeAfter(i));
      now := now + w.observeAfter(i) + w.replyAfter(i);
      assert got == status(w.ObservedAt(start, i)) && now == w.RepliedAt(start, i);
      if got.Found? {
        var verdict := look(got.body);
        if verdict.Answer? {
          run := Run(Returned(verdict.reply), i + 1, now);
          break;
        }
        if verdict.Dead? {
          run := Run(TerminalPhase, i + 1, now);
          break;
        }
      }
      if got.Failed? {
        run := Run(GetFailed, i + 1, now);
        break;
      }
      if now > deadline {
        run := Run(TimedOut, i + 1, now);
        break;
      }
      assert Continues(look, status, w, start, timeout, i);
      now := now + POLL_SLEEP + w.oversleep(i);
      assert now == w.IssuedAt(start, i + 1);
      i := i + 1;
    }
  }

  /** A run that returned was answered by its last Get, between its start and its end. */
  lemma ReturnedIsAnswered(look: Reading, status: Status, w: Timing, start: nat, timeout: nat, run: Run)
    returns (t: nat)
    requires Settled(look, status, w, start, timeout, run) && run.outcome.Returned?
    ensures start <= t <= run.finish && VerdictAt(look, status, t).Answer?
  {
    t := w.ObservedAt(start, run.gets - 1);
    GetsAreSpaced(w, start, run.gets - 1);
  }

  lemma RunsTakeTime(look: Reading, status: Status, w: Timing, start: nat, timeout: nat, run: Run)
    requires Settled(look, status, w, start, timeout, run)
    ensures start <= run.finish
  {
    GetsAreSpaced(w, start, run.gets - 1);
  }

  /** The run there is: the first Get that settles it or comes back late. */
  function Poll(look: Reading, status: Status, w: Timing, start: nat, timeout: nat): (run: Run)
    ensures Settled(look, status, w, start, timeout, run)
  {
    PollFrom(look, status, w, start, timeout, 0)
  }

  function PollFrom(look: Reading, status: Status, w: Timing, start: nat, timeout: nat, i: nat): (run: Run)
    requires forall j: nat | j < i :: Continues(look, status, w, start, timeout, j)
    ensures Settled(look, status, w, start, timeout, run)
    decreases if w.IssuedAt(start, i) > start + timeout then 0 else start + timeout + 1 - w.IssuedAt(start, i)
  {
    var observed := status(w.ObservedAt(start, i));
    var replied := w.RepliedAt(start, i);
    match VerdictAt(look, status, w.ObservedAt(start, i))
    case Answer(reply) => Run(Returned(reply), i + 1, replied)
    case Dead => Run(if observed.Failed? then GetFailed else TerminalPhase, i + 1, replied)
    case Pending =>
      if replied > start + timeout then Run(TimedOut, i + 1, replied)
      else
        assert Continues(look, status, w, start, timeout, i);
        PollFrom(look, status, w, start, timeout, i + 1)
  }

  /** The account leaves no freedom: a run is determined by the cluster and the clock. */
  lemma SettledIsUnique(look: Reading, status: Status, w: Timing, start: nat, timeout: nat, a: Run, b: Run)
    requires Settled(look, status, w, start, timeout, a)
    requires Settled(look, status, w, start, timeout, b)
    ensures a == b
  {
    assert !Continues(look, status, w, start, timeout, a.gets - 1);
    assert !Continues(look, status, w, start, timeout, b.gets - 1);
  }

  /** A Get takes at most latency, a sleep overruns by at most slack. */
  ghost predicate Prompt(w: Timing, latency: nat, slack: nat) {
    && (forall i: nat :: w.observeAfter(i) + w.replyAfter(i) <= latency)
    && (forall i: nat :: w.oversleep(i) <= slack)
  }

  /** However a loop ends, it ends at most one sleep and one Get after the deadline. */
  lemma LoopsEndInTime(look: Reading, status: Status, w: Timing, start: nat, timeout: nat, run: Run, latency: nat,
                       slack: nat)
    requires Settled(look, status, w, start, timeout, run) && Prompt(w, latency, slack)
    ensures run.finish <= start + timeout + 2_000_000_000 + slack + latency
  {
    var last := run.gets - 1;
    assert w.observeAfter(last) + w.replyAfter(last) <= latency;
    if last > 0 {
      var i: nat := last - 1;
      assert Continues(look, status, w, start, timeout, i);
      assert w.oversleep(i) <= slack;
    }
  }

  /** From c on the loop would be answered, and at no time would it be stopped. */
  ghost predicate AnsweredFrom(look: Reading, status: Status, c: nat) {
    && (forall t: nat :: !VerdictAt(look, status, t).Dead?)
    && (forall t: nat | t >= c :: VerdictAt(look, status, t).Answer?)
  }

  /**
   A condition that comes true early enough and stays true is reported, within one sleep and two Gets
   of coming true. With instantaneous Gets and exact sleeps that is two seconds, and early enough is
   any time up to the deadline.
   */
  lemma LoopsRespond(look: Reading, status: Status, w: Timing, start: nat, timeout: nat, run: Run, latency: nat,
                     slack: nat, c: nat)
    requires Settled(look, status, w, start, timeout, run) && Prompt(w, latency, slack)
    requires AnsweredFrom(look, status, c) && c + latency <= start + timeout
    ensures run.outcome.Returned?
    ensures run.finish <= start + latency || run.finish < c + 2_000_000_000 + slack + 2 * latency
  {
    var last := run.gets - 1;
    assert w.observeAfter(last) + w.replyAfter(last) <= latency;
    assert !VerdictAt(look, status, w.ObservedAt(start, last)).Dead?;
    if last > 0 {
      var i: nat := last - 1;
      assert Continues(look, status, w, start, timeout, i);
      assert w.ObservedAt(start, i) < c;
      assert w.observeAfter(i) + w.replyAfter(i) <= latency;
      assert w.oversleep(i) <= slack;
    }
  }

  /** The bound on the number of Gets is reached: an absent object and instantaneous Gets. */
  lemma GetBoundIsReached(look: Reading, timeout: nat, run: Run)
    requires Settled(look, t => Absent, Timing(i => 0, i => 0, i => 0), 0, timeout, run)
    ensures run == Run(TimedOut, timeout / 2_000_000_000 + 2, 2_000_000_000 * (timeout / 2_000_000_000 + 1))
  {
    var w := Timing(i => 0, i => 0, i => 0);
    var n := timeout / POLL_SLEEP;
    assert forall i: nat :: w.RepliedAt(0, i) == w.IssuedAt(0, i);
    forall i: nat ensures w.IssuedAt(0, i) == POLL_SLEEP * i {
      ExactSpacing(i);
    }
    SettledIsUnique(look, t => Absent, w, 0, timeout, run, Run(TimedOut, n + 2, POLL_SLEEP * (n + 1)));
  }

  lemma {:induction false} ExactSpacing(i: nat)
    ensures Timing(i => 0, i => 0, i => 0).IssuedAt(0, i) == POLL_SLEEP * i
  {
    if i > 0 {
      ExactSpacing(i - 1);
    }
  }

  /** Asked for JSON, the phase loops stop at the first object they see. */
  lemma JsonStopsAtFirstObject(loop: Loop, status: Status, w: Timing, start: nat, timeout: nat, run: Run)
    requires (loop.DataVolume? || loop.Snapshot?) && loop.json
    requires Settled(LookFor(loop), status, w, start, timeout, run)
    ensures forall i: nat | i < run.gets - 1 :: status(w.ObservedAt(start, i)).Absent?
    ensures var last := status(w.ObservedAt(start, run.gets - 1));
            match run.outcome
            case Returned(reply) => last.Found? && (PhaseOf(last.body) != "Succeeded" ==> reply == Dump(last.body))
            case TerminalPhase => last.Found? && PhaseOf(last.body) == "Failed"
            case GetFailed => last.Failed?
            case TimedOut => last.Absent?
  {
    forall i: nat | i < run.gets - 1 ensures status(w.ObservedAt(start, i)).Absent? {
      assert Continues(LookFor(loop), status, w, start, timeout, i);
    }
  }

  /* ----- what each loop waits for ----- */

  /** An entry of status.conditions: the condition of this type, with status "True". */
  predicate ConditionHolds(item: Json, kind: string) {
    item.Obj? && At(item.fields, ["type"]) == Some(Str(kind)) && At(item.fields, ["status"]) == Some(Str("True"))
  }

  /** An entry of status.interfaces with an address. */
  ghost predicate HasAddress(item: Json) {
    item.Obj? && exists ip :: ip != "" && At(item.fields, ["ipAddress"]) == Some(Str(ip))
  }

  /** The object carries the condition. */
  predicate ShowsCondition(u: Object, kind: string) {
    match At(u, ["status", "conditions"])
    case Some(Arr(items)) => exists i | 0 <= i < |items| :: ConditionHolds(items[i], kind)
    case _ => false
  }

  /** Some interface of the object has an address. */
  ghost predicate ShowsAddress(u: Object) {
    match At(u, ["status", "interfaces"])
    case Some(Arr(items)) => exists i | 0 <= i < |items| :: HasAddress(items[i])
    case _ => false
  }

  predicate ShowsPhase(u: Object, phase: string) {
    At(u, ["status", "phase"]) == Some(Str(phase))
  }

  /** What a loop may report success on. */
  ghost predicate Satisfies(loop: Loop, u: Object) {
    match loop
    case VenueReady => ShowsCondition(u, "Ready")
    case VenueAgent => ShowsCondition(u, "AgentConnected")
    case VenueAddress => ShowsAddress(u)
    case VerbReady(_) => ShowsCondition(u, "Ready")
    case Platform(_) => ShowsPhase(u, "Deployed")
    case GuestInfo => ShowsCondition(u, "AgentConnected")
    case DataVolume(_, json) => ShowsPhase(u, "Succeeded") || (json && !ShowsPhase(u, "Failed"))
    case Snapshot(_, json) => ShowsPhase(u, "Succeeded") || (json && !ShowsPhase(u, "Failed"))
    case Migration => ShowsPhase(u, "Succeeded")
  }

  /** And what it then says. */
  predicate Says(loop: Loop, u: Object, reply: Reply) {
    match loop
    case VenueReady | VenueAgent | VenueAddress | Migration => reply == Nothing
    case VerbReady(what) => reply == Line(what + " Ready\n")
    case Platform(what) => reply == Line(what + " Deployed\n")
    case GuestInfo => reply == Line(GuestText(u))
    case DataVolume(what, _) => reply == if ShowsPhase(u, "Succeeded") then Line(what + " Succeeded\n") else Dump(u)
    case Snapshot(what, _) => reply == if ShowsPhase(u, "Succeeded") then Line(what + " Succeeded\n") else Dump(u)
  }

  lemma OneStep(o: Object, key: string)
    ensures At(o, [key]) == Field(Some(Obj(o)), key)
  {
    assert [key][0] == key && [key][1..] == [];
    assert At(o, [key]) == Lookup(Field(Some(Obj(o)), key), []);
  }

  lemma ConditionItem(item: Json, kind: string)
    ensures IsTrueCondition(item, kind) <==> ConditionHolds(item, kind)
  {
    if item.Obj? {
      OneStep(item.fields, "type");
      OneStep(item.fields, "status");
    }
  }

  lemma ConditionIsShown(u: Object, kind: string)
    ensures HasCondition(u, kind) <==> ShowsCondition(u, kind)
  {
    var list := ListAt(u, ["status", "conditions"]);
    forall i | 0 <= i < |list| ensures IsTrueCondition(list[i], kind) <==> ConditionHolds(list[i], kind) {
      ConditionItem(list[i], kind);
    }
    if HasCondition(u, kind) {
      var i :| 0 <= i < |list| && IsTrueCondition(list[i], kind);
      assert ConditionHolds(list[i], kind);
    }
  }

  lemma AddressItem(item: Json)
    ensures AddressOf(item) != "" <==> HasAddress(item)
  {
    if item.Obj? {
      OneStep(item.fields, "ipAddress");
      if AddressOf(item) != "" {
        assert At(item.fields, ["ipAddress"]) == Some(Str(AddressOf(item)));
      }
    }
  }

  lemma AddressIsShown(u: Object)
    ensures InterfaceIP(u) != "" <==> ShowsAddress(u)
  {
    var list := ListAt(u, ["status", "interfaces"]);
    FirstAddressIsFirst(list);
    forall i | 0 <= i < |list| ensures AddressOf(list[i]) != "" <==> HasAddress(list[i]) {
      AddressItem(list[i]);
    }
  }

  lemma PhaseIsShown(u: Object, phase: string)
    requires phase != ""
    ensures PhaseOf(u) == phase <==> ShowsPhase(u, phase)
  {
  }

  /** The guest report: connected, and what the agent says of itself, empty fields left out. */
  lemma GuestTextIs(u: Object)
    ensures GuestText(u) == "agent-connected=true\n"
                            + Labelled("guest-id", TextAt(u, ["status", "guestOSInfo", "id"]))
                            + Labelled("guest-name", TextAt(u, ["status", "guestOSInfo", "name"]))
                            + Labelled("guest-version", TextAt(u, ["status", "guestOSInfo", "version"]))
    ensures forall tag, value :: Labelled(tag, value) == if value != "" then tag + "=" + value + "\n" else ""
  {
  }

  lemma PhaseReading(u: Object, success: Reply, json: bool)
    ensures var v := PhaseVerdict(u, success, json);
            && (v.Answer? <==> ShowsPhase(u, "Succeeded") || (json && !ShowsPhase(u, "Failed")))
            && (v.Answer? ==> v.reply == if ShowsPhase(u, "Succeeded") then success else Dump(u))
            && (v.Dead? <==> ShowsPhase(u, "Failed"))
  {
    PhaseIsShown(u, "Succeeded");
    PhaseIsShown(u, "Failed");
  }

  /** A reading answers exactly what satisfies its loop, with that loop's words; Failed ends the phase loops. */
  lemma ReadingsAnswer(loop: Loop, u: Object)
    ensures Look(loop, u).Answer? <==> Satisfies(loop, u)
    ensures Look(loop, u).Answer? ==> Says(loop, u, Look(loop, u).reply)
    ensures Look(loop, u).Dead? <==> (loop.DataVolume? || loop.Snapshot? || loop.Migration?) && ShowsPhase(u, "Failed")
  {
    match loop {
      case VenueReady | VerbReady(_) => ConditionIsShown(u, "Ready");
      case VenueAgent | GuestInfo => ConditionIsShown(u, "AgentConnected");
      case VenueAddress => AddressIsShown(u);
      case Platform(_) => PhaseIsShown(u, "Deployed");
      case DataVolume(what, json) => PhaseReading(u, Line(what + " Succeeded\n"), json);
      case Snapshot(what, json) => PhaseReading(u, Line(what + " Succeeded\n"), json);
      case Migration => PhaseReading(u, Nothing, false);
    }
  }

  /**
   How each of the nine loops ends: success only for an object it observed that satisfies it, and in its
   words; a terminal failure only for an observed phase Failed; any other error of a Get at once, by the
   Get that met it; a timeout only after the deadline, with nothing satisfying ever observed.
   */
  lemma LoopsEndAsObserved(loop: Loop, status: Status, w: Timing, start: nat, timeout: nat, run: Run)
    requires Settled(LookFor(loop), status, w, start, timeout, run)
    ensures var last := status(w.ObservedAt(start, run.gets - 1));
            match run.outcome
            case Returned(reply) => last.Found? && Satisfies(loop, last.body) && Says(loop, last.body, reply)
            case TerminalPhase =>
              (loop.DataVolume? || loop.Snapshot? || loop.Migration?) && last.Found? && ShowsPhase(last.body, "Failed")
            case GetFailed => last.Failed?
            case TimedOut =>
              run.finish > start + timeout && !last.Failed? && (last.Found? ==> !Satisfies(loop, last.body))
    ensures forall i: nat | i < run.gets - 1 ::
              var seen := status(w.ObservedAt(start, i));
              !seen.Failed? && (seen.Found? ==> !Satisfies(loop, seen.body) && Look(loop, seen.body) == Pending)
  {
    var last := status(w.ObservedAt(start, run.gets - 1));
    if last.Found? { ReadingsAnswer(loop, last.body); }
    forall i: nat | i < run.gets - 1
      ensures var seen := status(w.ObservedAt(start, i));
              !seen.Failed? && (seen.Found? ==> !Satisfies(loop, seen.body) && Look(loop, seen.body) == Pending)
    {
      assert Continues(LookFor(loop), status, w, start, timeout, i);
      var seen := status(w.ObservedAt(start, i));
      if seen.Found? { ReadingsAnswer(loop, seen.body); }
    }
  }

  /** The platform arm reads once more after a timeout, to name the phase it saw last. */
  method WaitPlatformCR(what: string, status: Status, w: Timing, start: nat, timeout: nat)
    returns (run: Run, gets: nat, phase: string)
    ensures Settled(LookFor(Platform(what)), status, w, start, timeout, run)
    ensures gets == run.gets + (if run.outcome.TimedOut? then 1 else 0) && gets <= timeout / 2_000_000_000 + 3
    ensures run.outcome.TimedOut? ==>
              var again := status(run.finish + w.observeAfter(run.gets));
              phase == if again.Found? && PhaseOf(again.body) != "" then PhaseOf(again.body) else "not found"
  {
    run := PollUntil(LookFor(Platform(what)), status, w, start, timeout);
    GetsAreBounded(LookFor(Platform(what)), status, w, start, timeout, run);
    gets, phase := run.gets, "";
    if run.outcome.TimedOut? {
      var again := status(run.finish + w.observeAfter(run.gets));
      gets := gets + 1;
      if again.Found? {
        phase := NestedMapString(again.body, ["status", "phase"]);
      }
      if phase == "" {
        phase := "not found";
      }
    }
  }
}
