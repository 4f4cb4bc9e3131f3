/**
 The writes of cluster_ops.go and the start/stop/restart verb of methods.go, each against every
 schedule of other writers. s1, s2, s3 below are the stores the first, second and third request meet.
 */
module ClusterOps {
  import opened ApiServer
  import opened JsonValues
  import opened RunStrategy
  import opened Wrappers

  const METADATA_NAME: seq<string> := ["metadata", "name"]

  function KeyOf(conn: Connection, resource: Resource, namespace: string, body: Object): Key {
    Key(conn, resource, namespace, TextAt(body, METADATA_NAME))
  }

  /** Present in neither store, or the very same entry in both. */
  ghost predicate Unmoved(s1: Store, s2: Store, key: Key) {
    (key !in s1.entries && key !in s2.entries) || Untouched(s1, s2, key)
  }

  /** How a failed update is answered. */
  function UpdateError(turn: Turn, met: Store, key: Key): ApiError {
    if turn.refused then Refused else if key !in met.entries then NotFound else Conflict
  }

  /** Create the object, or replace the one that exists at the version just read. */
  method ApplyObject(server: Server, conn: Connection, resource: Resource, namespace: string, body: Object)
    returns (r: Result<(), ApiError>)
    requires server.store.Valid()
    modifies server
    ensures server.store.Valid()
    ensures var t1, t2 := Head(old(server.turns)), Head(Tail(old(server.turns)));
            var key := KeyOf(conn, resource, namespace, body);
            var s1 := Others(old(server.store), t1.writes);
            var s2 := Others(s1, t2.writes);
            && (r.Ok? <==> !t1.refused && !t2.refused && Unmoved(s1, s2, key))
            && (r.Ok? ==> server.store == s2.Put(key, body))
            && (r.Err? ==> server.store == if t1.refused then s1 else s2)
            && (r.Err? ==> r.error == if t1.refused || t2.refused then Refused
                                      else if key !in s1.entries then AlreadyExists
                                      else UpdateError(t2, s2, key))
            && server.turns == if t1.refused then Tail(old(server.turns)) else Tail(Tail(old(server.turns)))
  {
    var name := NestedMapString(body, METADATA_NAME);
    var key := Key(conn, resource, namespace, name);
    ghost var s0 := server.store;
    OthersAreLater(s0, Head(server.turns).writes);
    var existing := server.Get(key);
    ghost var s1 := server.store;
    ghost var writes := Head(server.turns).writes;
    OthersAreLater(s1, writes);
    if existing == Err(NotFound) {
      var created := server.Create(key, body);
      return if created.Ok? then Ok(()) else Err(created.error);
    }
    if existing.Err? {
      return Err(existing.error);
    }
    SameVersionIsUntouched(s1, writes, key);
    var updated := server.Update(key, existing.value.version, body);
    r := if updated.Ok? then Ok(()) else Err(updated.error);
  }

  /** Create the DataVolume when there is none; an existing one is never written. */
  method EnsureDataVolume(server: Server, conn: Connection, namespace: string, body: Object)
    returns (r: Result<(), ApiError>)
    requires server.store.Valid()
    modifies server
    ensures server.store.Valid()
    ensures var t1, t2 := Head(old(server.turns)), Head(Tail(old(server.turns)));
            var key := KeyOf(conn, DataVolumes, namespace, body);
            var s1 := Others(old(server.store), t1.writes);
            var s2 := Others(s1, t2.writes);
            && (t1.refused || key in s1.entries ==> server.store == s1 && (r.Ok? <==> !t1.refused))
            && (!t1.refused && key !in s1.entries ==>
                  && (r.Ok? <==> !t2.refused && key !in s2.entries)
                  && server.store == if r.Ok? then s2.Put(key, body) else s2)
            && (r.Err? ==> r.error == if t1.refused || t2.refused then Refused else AlreadyExists)
  {
    OthersAreLater(server.store, Head(server.turns).writes);
    var name := NestedMapString(body, METADATA_NAME);
    var key := Key(conn, DataVolumes, namespace, name);
    var existing := server.Get(key);
    OthersAreLater(server.store, Head(server.turns).writes);
    if existing.Ok? {
      return Ok(());
    }
    if existing.error != NotFound {
      return Err(existing.error);
    }
    var created := server.Create(key, body);
    r := if created.Ok? then Ok(()) else Err(created.error);
  }

  /** What a strategy patch does to the store it meets, whatever version the object has by then. */
  ghost function AfterPatch(s: Store, turns: seq<Turn>, key: Key, strategy: string): (Store, seq<Turn>, bool) {
    var s1 := Others(s, Head(turns).writes);
    var ok := !Head(turns).refused && key in s1.entries;
    (if ok then s1.Put(key, WithRunStrategy(s1.entries[key].body, strategy)) else s1, Tail(turns), ok)
  }

  /** The conflict-free strategy change: one merge patch, no version. */
  method UpdateRunStrategy(server: Server, conn: Connection, namespace: string, vmName: string, strategy: string)
    returns (r: Result<(), ApiError>)
    requires server.store.Valid()
    modifies server
    ensures server.store.Valid()
    ensures (server.store, server.turns, r.Ok?)
         == AfterPatch(old(server.store), old(server.turns), Key(conn, VirtualMachines, namespace, vmName), strategy)
    ensures r.Err? ==> r.error == if Head(old(server.turns)).refused then Refused else NotFound
  {
    OthersAreLater(server.store, Head(server.turns).writes);
    var key := Key(conn, VirtualMachines, namespace, vmName);
    ghost var s1 := server.Met();
    if key in s1.entries {
      PatchIsAssignment(s1.entries[key].body, strategy);
    }
    var patched := server.Patch(key, RunStrategyPatch(strategy));
    r := if patched.Ok? then Ok(()) else Err(patched.error);
  }

  /** Deleting a VirtualMachine that is not there is fine. */
  method DeleteVirtualMachine(server: Server, conn: Connection, namespace: string, vmName: string)
    returns (r: Result<(), ApiError>)
    requires server.store.Valid()
    modifies server
    ensures server.store.Valid()
    ensures server.turns == Tail(old(server.turns))
    ensures var t1 := Head(old(server.turns));
            var s1 := Others(old(server.store), t1.writes);
            && (r.Ok? <==> !t1.refused) && (r.Err? ==> r.error == Refused)
            && server.store.clock == s1.clock
            && server.store.entries == if r.Ok? then s1.entries - {Key(conn, VirtualMachines, namespace, vmName)}
                                       else s1.entries
  {
    OthersAreLater(server.store, Head(server.turns).writes);
    var key := Key(conn, VirtualMachines, namespace, vmName);
    var deleted := server.Delete(key);
    if deleted == Err(NotFound) {
      return Ok(());
    }
    r := if deleted.Ok? then Ok(()) else Err(deleted.error);
  }

  /* ----- runs of strategy patches ----- */

  /** Patches one after the other, and the writes that fall after the last; did all of them go through? */
  ghost function AfterPatches(s: Store, turns: seq<Turn>, key: Key, strategies: seq<string>): (Store, bool)
    decreases |strategies|
  {
    if strategies == [] then (Others(s, Head(turns).writes), true)
    else
      var (s1, rest, ok) := AfterPatch(s, turns, key, strategies[0]);
      var (s2, others) := AfterPatches(s1, rest, key, strategies[1..]);
      (s2, ok && others)
  }

  /** The strategies patched in, in order. */
  function Strategies(es: seq<Event>): seq<string> {
    if es == [] then [] else (if es[0].StrategyPatch? then [es[0].strategy] else []) + Strategies(es[1..])
  }

  /** What the other writers of es save between the patches, on an object that starts as o. */
  function Schedule(o: Object, key: Key, es: seq<Event>): (turns: seq<Turn>)
    ensures turns != [] && !turns[0].refused
    decreases |es|
  {
    if es == [] then [Turn([], false)]
    else
      match es[0]
      case StrategyPatch(strategy) => [Turn([], false)] + Schedule(WithRunStrategy(o, strategy), key, es[1..])
      case Foreign(f) =>
        var later := Schedule(f(o), key, es[1..]);
        [Turn([Save(key, f(o))] + later[0].writes, false)] + later[1..]
  }

  /** A write before the first patch might as well have been there from the start. */
  lemma WriteComesFirst(s: Store, key: Key, body: Object, later: seq<Turn>, strategies: seq<string>)
    requires later != [] && !later[0].refused
    ensures AfterPatches(s, [Turn([Save(key, body)] + later[0].writes, false)] + later[1..], key, strategies)
         == AfterPatches(s.Put(key, body), later, key, strategies)
  {
    var turns := [Turn([Save(key, body)] + later[0].writes, false)] + later[1..];
    assert turns[0].writes[1..] == later[0].writes && turns[1..] == later[1..];
    assert Others(s, turns[0].writes) == Others(s.Put(key, body), later[0].writes);
  }

  /** The server ends up with the replay of all events, and every patch goes through. */
  lemma {:induction false} PatchesReplay(s: Store, key: Key, es: seq<Event>)
    requires key in s.entries
    ensures var o := s.entries[key].body;
            var (final, ok) := AfterPatches(s, Schedule(o, key, es), key, Strategies(es));
            ok && key in final.entries && final.entries[key].body == Replay(o, es)
    decreases |es|
  {
    if es != [] {
      var o := s.entries[key].body;
      match es[0] {
        case StrategyPatch(strategy) =>
          PatchIsAssignment(o, strategy);
          var later := Schedule(WithRunStrategy(o, strategy), key, es[1..]);
          assert ([Turn([], false)] + later)[1..] == later;
          assert Strategies(es)[0] == strategy && Strategies(es)[1..] == Strategies(es[1..]);
          PatchesReplay(s.Put(key, WithRunStrategy(o, strategy)), key, es[1..]);
        case Foreign(f) =>
          assert Strategies(es) == Strategies(es[1..]);
          WriteComesFirst(s, key, f(o), Schedule(f(o), key, es[1..]), Strategies(es));
          PatchesReplay(s.Put(key, f(o)), key, es[1..]);
      }
    }
  }

  lemma {:induction false} ForeignOnlyPatchesNothing(es: seq<Event>)
    ensures Strategies(ForeignOnly(es)) == []
  {
    if es != [] {
      ForeignOnlyPatchesNothing(es[1..]);
      if es[0].Foreign? {
        assert ForeignOnly(es)[1..] == ForeignOnly(es[1..]);
      } else {
        assert ForeignOnly(es) == ForeignOnly(es[1..]);
      }
    }
  }

  /**
   At the server, for every order of run-strategy patches and other writers' saves of an existing object
   that leave its run strategy alone: no patch is turned away, though every save that changes the object
   gives it a new version; the last patch decides the strategy; everything else is what the other writers alone leave.
   */
  lemma PatchRunsInterleave(s: Store, key: Key, es: seq<Event>)
    requires key in s.entries && forall e | e in es && e.Foreign? :: SparesRunStrategy(e.write)
    ensures var o := s.entries[key].body;
            var (final, ok) := AfterPatches(s, Schedule(o, key, es), key, Strategies(es));
            var (alone, _) := AfterPatches(s, Schedule(o, key, ForeignOnly(es)), key, []);
            && ok && key in final.entries && key in alone.entries
            && At(final.entries[key].body, RUN_STRATEGY) == LastStrategy(es, At(o, RUN_STRATEGY))
            && AgreeApart(final.entries[key].body, alone.entries[key].body)
  {
    PatchesReplay(s, key, es);
    PatchesReplay(s, key, ForeignOnly(es));
    ForeignOnlyPatchesNothing(es);
    PatchesInterleave(s.entries[key].body, es);
  }

  datatype VerbError = Api(error: ApiError) | UnknownAction

  /** The store a successful first write leaves. */
  ghost function FirstWrite(s1: Store, s2: Store, key: Key, action: string): Store
    requires key in s1.entries
  {
    s2.Put(key, WithRunStrategy(s1.entries[key].body, if action == "start" then ALWAYS else HALTED))
  }

  /** In the store, the object under key asks for this strategy and is otherwise as it was in body. */
  ghost predicate HasStrategy(s: Store, key: Key, body: Object, strategy: string) {
    && key in s.entries && At(s.entries[key].body, ["spec", "runStrategy"]) == Some(Str(strategy))
    && AgreeApart(s.entries[key].body, body)
  }

  lemma PutHasStrategy(s: Store, key: Key, body: Object, strategy: string)
    ensures HasStrategy(s.Put(key, WithRunStrategy(body, strategy)), key, body, strategy)
  {
    LastStrategyWins(body, strategy, strategy);
    AssignmentFrame(body, strategy);
  }

  /** A patch that goes through leaves its strategy and nothing else. */
  lemma PatchWrites(s: Store, turns: seq<Turn>, key: Key, strategy: string)
    ensures var (s', turns', ok) := AfterPatch(s, turns, key, strategy);
            var met := Others(s, Head(turns).writes);
            && (ok <==> !Head(turns).refused && key in met.entries)
            && (ok ==> HasStrategy(s', key, met.entries[key].body, strategy))
            && (!ok ==> s' == met)
  {
    var met := Others(s, Head(turns).writes);
    if key in met.entries {
      PutHasStrategy(met, key, met.entries[key].body, strategy);
    }
  }

  /** A stop halts, a start runs, and a restart halts first; then it runs what it halted. */
  lemma VerbsWrite(s1: Store, s2: Store, key: Key, action: string)
    requires key in s1.entries
    ensures action == "stop" ==> HasStrategy(FirstWrite(s1, s2, key, action), key, s1.entries[key].body, "Halted")
    ensures action == "start" ==> HasStrategy(FirstWrite(s1, s2, key, action), key, s1.entries[key].body, "Always")
    ensures action == "restart" ==> HasStrategy(FirstWrite(s1, s2, key, action), key, s1.entries[key].body, "Halted")
  {
    PutHasStrategy(s2, key, s1.entries[key].body, if action == "start" then "Always" else "Halted");
  }

  /** The restart arm: halt the object as read, then run the object the first write returned. */
  method HaltThenRun(server: Server, key: Key, read: Entry) returns (r: Result<(), ApiError>)
    requires server.store.Valid() && key in server.store.entries && server.store.entries[key] == read
    modifies server
    ensures server.store.Valid()
    ensures var t2, t3 := Head(old(server.turns)), Head(Tail(old(server.turns)));
            var s1 := old(server.store);
            var s2 := Others(s1, t2.writes);
            if t2.refused || !Untouched(s1, s2, key) then r == Err(UpdateError(t2, s2, key)) && server.store == s2
            else
              var written := FirstWrite(s1, s2, key, "restart");
              var s3 := Others(written, t3.writes);
              if t3.refused || !Untouched(written, s3, key) then
                r == Err(UpdateError(t3, s3, key)) && server.store == s3
              else r.Ok? && server.store == s3.Put(key, WithRunStrategy(read.body, ALWAYS))
    ensures r.Ok? ==> HasStrategy(server.store, key, read.body, "Always")
  {
    ghost var w2 := Head(server.turns).writes;
    OthersAreLater(server.store, w2);
    SameVersionIsUntouched(server.store, w2, key);
    var u := new LiveObject(read.body);
    u.SetRunStrategy(HALTED);
    var halted := server.Update(key, read.version, u.fields);
    if halted.Err? {
      return Err(halted.error);
    }
    ghost var w3 := Head(server.turns).writes;
    OthersAreLater(server.store, w3);
    SameVersionIsUntouched(server.store, w3, key);
    LastStrategyWins(read.body, HALTED, ALWAYS);
    PutHasStrategy(Others(server.store, w3), key, read.body, "Always");
    var h := new LiveObject(halted.value.body);
    h.SetRunStrategy(ALWAYS);
    var running := server.Update(key, halted.value.version, h.fields);
    r := if running.Err? then Err(running.error) else Ok(());
  }

  /**
   Read the VirtualMachine, assign the strategy, write it back. Success means that nobody touched
   the object between the read and the last write; a failed second write of a restart leaves the
   halting write and what the others wrote.
   */
  method RunVMState(server: Server, conn: Connection, namespace: string, name: string, action: string)
    returns (r: Result<string, VerbError>)
    requires server.store.Valid()
    modifies server
    ensures server.store.Valid()
    ensures var ts := old(server.turns);
            var t1, t2, t3 := Head(ts), Head(Tail(ts)), Head(Tail(Tail(ts)));
            var key := Key(conn, VirtualMachines, namespace, name);
            var s1 := Others(old(server.store), t1.writes);
            var s2 := Others(s1, t2.writes);
            if t1.refused || key !in s1.entries then
              r == Err(Api(if t1.refused then Refused else NotFound)) && server.store == s1
            else if action !in {"start", "stop", "restart"} then
              r == Err(UnknownAction) && server.store == s1
            else if t2.refused || !Untouched(s1, s2, key) then
              r == Err(Api(UpdateError(t2, s2, key))) && server.store == s2
            else
              var written := FirstWrite(s1, s2, key, action);
              if action != "restart" then
                r == Ok(namespace + "/" + name + (if action == "stop" then " stopped\n" else " started\n"))
                    && server.store == written
              else
                var s3 := Others(written, t3.writes);
                if t3.refused || !Untouched(written, s3, key) then
                  r == Err(Api(UpdateError(t3, s3, key))) && server.store == s3
                else && r == Ok(namespace + "/" + name + " restarted\n")
                     && server.store == s3.Put(key, WithRunStrategy(s1.entries[key].body, ALWAYS))
    ensures r.Ok? ==>
              var key := Key(conn, VirtualMachines, namespace, name);
              var s1 := Others(old(server.store), Head(old(server.turns)).writes);
              && key in s1.entries && action in {"start", "stop", "restart"}
              && HasStrategy(server.store, key, s1.entries[key].body, if action == "stop" then "Halted" else "Always")
  {
    var key := Key(conn, VirtualMachines, namespace, name);
    OthersAreLater(server.store, Head(server.turns).writes);
    var read := server.Get(key);
    if read.Err? {
      return Err(Api(read.error));
    }
    ghost var s1 := server.store;
    ghost var w2 := Head(server.turns).writes;
    OthersAreLater(s1, w2);
    SameVersionIsUntouched(s1, w2, key);
    VerbsWrite(s1, Others(s1, w2), key, action);
    var u := new LiveObject(read.value.body);
    if action == "stop" {
      u.SetRunStrategy(HALTED);
      var stopped := server.Update(key, read.value.version, u.fields);
      return if stopped.Err? then Err(Api(stopped.error)) else Ok(namespace + "/" + name + " stopped\n");
    }
    if action == "start" {
      u.SetRunStrategy(ALWAYS);
      var started := server.Update(key, read.value.version, u.fields);
      return if started.Err? then Err(Api(started.error)) else Ok(namespace + "/" + name + " started\n");
    }
    if action == "restart" {
      var restarted := HaltThenRun(server, key, read.value);
      return if restarted.Err? then Err(Api(restarted.error)) else Ok(namespace + "/" + name + " restarted\n");
    }
    r := Err(UnknownAction);
  }

  /**
   A restart that succeeds was undisturbed: whatever the others wrote, the object stood as read until it
   was halted, and halted until it ran, at every moment between; only then does its version move on.
   */
  lemma RestartIsUndisturbed(s1: Store, w2: seq<ForeignWrite>, w3: seq<ForeignWrite>, key: Key, i: nat, j: nat)
    requires s1.Valid() && key in s1.entries && Untouched(s1, Others(s1, w2), key) && i <= |w2| && j <= |w3|
    requires var halted := FirstWrite(s1, Others(s1, w2), key, "restart"); Untouched(halted, Others(halted, w3), key)
    ensures var halted := FirstWrite(s1, Others(s1, w2), key, "restart");
            var running := Others(halted, w3).Put(key, WithRunStrategy(s1.entries[key].body, ALWAYS));
            && Untouched(s1, Others(s1, w2[..i]), key) && Untouched(halted, Others(halted, w3[..j]), key)
            && At(halted.entries[key].body, RUN_STRATEGY) == Some(Str(HALTED))
            && At(running.entries[key].body, RUN_STRATEGY) == Some(Str(ALWAYS))
            && s1.entries[key].version <= halted.entries[key].version < running.entries[key].version
  {
    var halted := FirstWrite(s1, Others(s1, w2), key, "restart");
    NothingFellBetween(s1, w2, key, i);
    OthersAreLater(s1, w2);
    NothingFellBetween(halted, w3, key, j);
    OthersAreLater(halted, w3);
    LastStrategyWins(s1.entries[key].body, ALWAYS, HALTED);
    LastStrategyWins(s1.entries[key].body, HALTED, ALWAYS);
  }

  /* ----- apply, then ensure running ----- */

  /** What the pair leaves in a store nobody else writes to. */
  function AppliedAndRunning(s: Store, key: Key, body: Object): Store {
    s.Put(key, body).Put(key, WithRunStrategy(body, ALWAYS))
  }

  /**
   Whatever was authored or stored before, the pair leaves the applied object with strategy Always,
   and repeating it leaves the same content. The repetition is silent at the server exactly when the
   applied object already asks for Always; otherwise it writes the authored strategy in between.
   */
  lemma ApplyThenRunConverges(s: Store, key: Key, body: Object)
    ensures var once := AppliedAndRunning(s, key, body);
            var twice := AppliedAndRunning(once, key, body);
            && key in once.entries
            && once.entries[key].body == WithRunStrategy(body, ALWAYS)
            && Contents(twice) == Contents(once)
            && (twice == once <==> At(body, RUN_STRATEGY) == Some(Str(ALWAYS)))
  {
    LastStrategyWins(body, ALWAYS, ALWAYS);
    AssignmentIsSilentIff(body, ALWAYS);
  }
}
