/**
 The Kubernetes API server as the dynamic client meets it: objects under keys, each with a
 resource version, and other writers (controllers, operators) whose writes fall between our requests.
 */
module ApiServer {
  import opened JsonValues
  import opened RunStrategy
  import opened Wrappers

  datatype Resource = VirtualMachines | DataVolumes | Snapshots | Migrations

  /** The kubeconfig file and the context inside it; "" means the ambient one. */
  datatype Connection = Connection(kubeconfig: string, context: string)

  datatype Key = Key(conn: Connection, resource: Resource, namespace: string, name: string)

  datatype Entry = Entry(version: nat, body: Object)

  datatype Store = Store(entries: map<Key, Entry>, clock: nat) {
    /** Every version handed out so far is behind the clock. */
    ghost predicate Valid() {
      forall k | k in entries :: entries[k].version <= clock
    }

    /** A write that changes nothing is no write at the server: the version stays. */
    function Put(key: Key, body: Object): Store {
      if key in entries && entries[key].body == body then this
      else Store(entries[key := Entry(clock + 1, body)], clock + 1)
    }

    function Remove(key: Key): Store {
      Store(entries - {key}, clock)
    }
  }

  datatype ForeignWrite = Save(key: Key, body: Object) | Drop(key: Key)

  function Others(s: Store, writes: seq<ForeignWrite>): Store
    decreases |writes|
  {
    if writes == [] then s
    else Others(match writes[0] case Save(k, o) => s.Put(k, o) case Drop(k) => s.Remove(k), writes[1..])
  }

  /** What happens at the server just before one of our requests, and whether the request is refused. */
  datatype Turn = Turn(writes: seq<ForeignWrite>, refused: bool)

  function Head(turns: seq<Turn>): Turn {
    if turns == [] then Turn([], false) else turns[0]
  }

  function Tail(turns: seq<Turn>): seq<Turn> {
    if turns == [] then [] else turns[1..]
  }

  datatype ApiError = NotFound | AlreadyExists | Conflict | Refused

  class Server {
    var store: Store
    var turns: seq<Turn>

    constructor (store: Store, turns: seq<Turn>)
      ensures this.store == store && this.turns == turns
    {
      this.store := store;
      this.turns := turns;
    }

    /** The store as the next request finds it. */
    ghost function Met(): Store
      reads this
    {
      Others(store, Head(turns).writes)
    }

    method Admit() returns (refused: bool)
      modifies this
      ensures store == old(Met()) && turns == Tail(old(turns)) && refused == Head(old(turns)).refused
    {
      refused := Head(turns).refused;
      store := Others(store, Head(turns).writes);
      turns := Tail(turns);
    }

    method Get(key: Key) returns (r: Result<Entry, ApiError>)
      modifies this
      ensures store == old(Met()) && turns == Tail(old(turns))
      ensures r == if Head(old(turns)).refused then Err(Refused)
                   else if key in store.entries then Ok(store.entries[key]) else Err(NotFound)
    {
      var refused := Admit();
      if refused { return Err(Refused); }
      r := if key in store.entries then Ok(store.entries[key]) else Err(NotFound);
    }

    method Create(key: Key, body: Object) returns (r: Result<Entry, ApiError>)
      modifies this
      ensures turns == Tail(old(turns))
      ensures r.Ok? <==> !Head(old(turns)).refused && key !in old(Met()).entries
      ensures r.Ok? ==> store == old(Met()).Put(key, body) && r.value == store.entries[key]
      ensures r.Err? ==> store == old(Met()) && r.error == if Head(old(turns)).refused then Refused else AlreadyExists
    {
      var refused := Admit();
      if refused { return Err(Refused); }
      if key in store.entries { return Err(AlreadyExists); }
      store := store.Put(key, body);
      r := Ok(store.entries[key]);
    }

    /** A full replacement, accepted only at the version the caller last saw. */
    method Update(key: Key, version: nat, body: Object) returns (r: Result<Entry, ApiError>)
      modifies this
      ensures turns == Tail(old(turns))
      ensures r.Ok? <==> && !Head(old(turns)).refused && key in old(Met()).entries
                         && old(Met()).entries[key].version == version
      ensures r.Ok? ==> store == old(Met()).Put(key, body) && r.value == store.entries[key]
      ensures r.Err? ==> store == old(Met())
      ensures r.Err? ==> r.error == if Head(old(turns)).refused then Refused
                                    else if key !in old(Met()).entries then NotFound else Conflict
    {
      var refused := Admit();
      if refused { return Err(Refused); }
      if key !in store.entries { return Err(NotFound); }
      if store.entries[key].version != version { return Err(Conflict); }
      store := store.Put(key, body);
      r := Ok(store.entries[key]);
    }

    /** A merge patch without a resource version: applied to whatever is stored. */
    method Patch(key: Key, patch: Json) returns (r: Result<Entry, ApiError>)
      modifies this
      ensures turns == Tail(old(turns))
      ensures r.Ok? <==> !Head(old(turns)).refused && key in old(Met()).entries
      ensures r.Ok? ==> store == old(Met()).Put(key, Patched(old(Met()).entries[key].body, patch))
      ensures r.Ok? ==> r.value == store.entries[key]
      ensures r.Err? ==> store == old(Met()) && r.error == if Head(old(turns)).refused then Refused else NotFound
    {
      var refused := Admit();
      if refused { return Err(Refused); }
      if key !in store.entries { return Err(NotFound); }
      store := store.Put(key, Patched(store.entries[key].body, patch));
      r := Ok(store.entries[key]);
    }

    method Delete(key: Key) returns (r: Result<Entry, ApiError>)
      modifies this
      ensures turns == Tail(old(turns))
      ensures r.Ok? <==> !Head(old(turns)).refused && key in old(Met()).entries
      ensures r.Ok? ==> store == old(Met()).Remove(key)
      ensures r.Err? ==> store == old(Met()) && r.error == if Head(old(turns)).refused then Refused else NotFound
    {
      var refused := Admit();
      if refused { return Err(Refused); }
      if key !in store.entries { return Err(NotFound); }
      r := Ok(store.entries[key]);
      store := store.Remove(key);
    }
  }

  /* ----- versions identify what was stored ----- */

  /** s2 is a later state of s1: what it still holds at an old version it holds unchanged. */
  ghost predicate Later(s1: Store, s2: Store) {
    && s1.clock <= s2.clock
    && s2.Valid()
    && forall k | k in s2.entries ::
         s2.entries[k].version > s1.clock || (k in s1.entries && s1.entries[k] == s2.entries[k])
  }

  lemma {:induction false} OthersAreLater(s: Store, writes: seq<ForeignWrite>)
    requires s.Valid()
    ensures Later(s, Others(s, writes))
    decreases |writes|
  {
    if writes != [] {
      var s' := match writes[0] case Save(k, o) => s.Put(k, o) case Drop(k) => s.Remove(k);
      OthersAreLater(s', writes[1..]);
    }
  }

  ghost predicate Untouched(s1: Store, s2: Store, key: Key) {
    key in s1.entries && key in s2.entries && s1.entries[key] == s2.entries[key]
  }

  /** An update goes through exactly when nobody else has changed the object since it was read. */
  lemma SameVersionIsUntouched(s: Store, writes: seq<ForeignWrite>, key: Key)
    requires s.Valid() && key in s.entries
    ensures Untouched(s, Others(s, writes), key)
       <==> && key in Others(s, writes).entries
            && Others(s, writes).entries[key].version == s.entries[key].version
  {
    OthersAreLater(s, writes);
  }

  lemma {:induction false} OthersCompose(s: Store, first: seq<ForeignWrite>, second: seq<ForeignWrite>)
    ensures Others(s, first + second) == Others(Others(s, first), second)
    decreases |first|
  {
    if first == [] {
      assert first + second == second;
    } else {
      assert (first + second)[1..] == first[1..] + second;
      var s' := match first[0] case Save(k, o) => s.Put(k, o) case Drop(k) => s.Remove(k);
      OthersCompose(s', first[1..], second);
    }
  }

  /** An object found at its old version was at that version, with that content, all along. */
  lemma NothingFellBetween(s: Store, writes: seq<ForeignWrite>, key: Key, i: nat)
    requires s.Valid() && Untouched(s, Others(s, writes), key) && i <= |writes|
    ensures Untouched(s, Others(s, writes[..i]), key)
  {
    assert writes == writes[..i] + writes[i..];
    OthersCompose(s, writes[..i], writes[i..]);
    OthersAreLater(s, writes[..i]);
    OthersAreLater(Others(s, writes[..i]), writes[i..]);
  }

  /* ----- contents, without versions ----- */

  function Contents(s: Store): map<Key, Object> {
    map k | k in s.entries :: s.entries[k].body
  }

  function Rewritten(c: map<Key, Object>, writes: seq<ForeignWrite>): map<Key, Object>
    decreases |writes|
  {
    if writes == [] then c
    else Rewritten(match writes[0] case Save(k, o) => c[k := o] case Drop(k) => c - {k}, writes[1..])
  }

  lemma {:induction false} OthersContents(s: Store, writes: seq<ForeignWrite>)
    ensures Contents(Others(s, writes)) == Rewritten(Contents(s), writes)
    decreases |writes|
  {
    if writes != [] {
      var s' := match writes[0] case Save(k, o) => s.Put(k, o) case Drop(k) => s.Remove(k);
      var c' := match writes[0] case Save(k, o) => Contents(s)[k := o] case Drop(k) => Contents(s) - {k};
      assert Contents(s') == c';
      OthersContents(s', writes[1..]);
    }
  }

  lemma {:induction false} RewrittenComposes(c: map<Key, Object>, first: seq<ForeignWrite>, second: seq<ForeignWrite>)
    ensures Rewritten(c, first + second) == Rewritten(Rewritten(c, first), second)
    decreases |first|
  {
    if first == [] {
      assert first + second == second;
    } else {
      assert (first + second)[1..] == first[1..] + second;
      var c' := match first[0] case Save(k, o) => c[k := o] case Drop(k) => c - {k};
      RewrittenComposes(c', first[1..], second);
    }
  }

  /** Two clusters that hold the same objects except perhaps under these keys. */
  ghost predicate SameElsewhere(a: map<Key, Object>, b: map<Key, Object>, keys: set<Key>) {
    a - keys == b - keys
  }

  lemma WriteElsewhere(a: map<Key, Object>, b: map<Key, Object>, write: ForeignWrite, keys: set<Key>)
    requires SameElsewhere(a, b, keys)
    ensures match write
            case Save(k, o) => SameElsewhere(a[k := o], b[k := o], keys)
            case Drop(k) => SameElsewhere(a - {k}, b - {k}, keys)
  {
    match write {
      case Save(k, o) =>
        assert a[k := o] - keys == if k in keys then a - keys else (a - keys)[k := o];
        assert b[k := o] - keys == if k in keys then b - keys else (b - keys)[k := o];
      case Drop(k) =>
        assert a - {k} - keys == a - keys - {k};
        assert b - {k} - keys == b - keys - {k};
    }
  }

  lemma {:induction false} RewrittenElsewhere(a: map<Key, Object>, b: map<Key, Object>, writes: seq<ForeignWrite>,
                                              keys: set<Key>)
    requires SameElsewhere(a, b, keys)
    ensures SameElsewhere(Rewritten(a, writes), Rewritten(b, writes), keys)
    decreases |writes|
  {
    if writes != [] {
      WriteElsewhere(a, b, writes[0], keys);
      var a' := match writes[0] case Save(k, o) => a[k := o] case Drop(k) => a - {k};
      var b' := match writes[0] case Save(k, o) => b[k := o] case Drop(k) => b - {k};
      RewrittenElsewhere(a', b', writes[1..], keys);
    }
  }

  /* ----- what a stretch of requests leaves alone ----- */

  function AllWrites(turns: seq<Turn>): seq<ForeignWrite> {
    if turns == [] then [] else turns[0].writes + AllWrites(turns[1..])
  }

  /** From (s, turns) to (s', turns'), everything but the given keys is as the other writers alone left it. */
  ghost predicate OnlyTouches(s: Store, turns: seq<Turn>, s': Store, turns': seq<Turn>, keys: set<Key>) {
    && |turns'| <= |turns| && turns' == turns[|turns| - |turns'|..]
    && SameElsewhere(Contents(s'), Rewritten(Contents(s), AllWrites(turns[..|turns| - |turns'|])), keys)
  }

  lemma TouchesNothing(s: Store, turns: seq<Turn>, keys: set<Key>)
    ensures OnlyTouches(s, turns, s, turns, keys)
  {
  }

  /** One request, met by the head of the schedule. */
  lemma TouchesOnce(s: Store, turns: seq<Turn>, s': Store, keys: set<Key>)
    requires SameElsewhere(Contents(s'), Contents(Others(s, Head(turns).writes)), keys)
    ensures OnlyTouches(s, turns, s', Tail(turns), keys)
  {
    OthersContents(s, Head(turns).writes);
    if turns != [] {
      assert turns[..1][1..] == [] && turns[..1][0] == turns[0];
      assert AllWrites(turns[..1]) == turns[0].writes + [] == turns[0].writes;
    }
  }

  lemma {:induction false} AllWritesJoin(first: seq<Turn>, second: seq<Turn>)
    ensures AllWrites(first + second) == AllWrites(first) + AllWrites(second)
  {
    if first == [] {
      assert first + second == second;
    } else {
      assert (first + second)[1..] == first[1..] + second;
      AllWritesJoin(first[1..], second);
    }
  }

  lemma SameElsewhereJoins(a: map<Key, Object>, b: map<Key, Object>, c: map<Key, Object>, first: set<Key>,
                           second: set<Key>)
    requires SameElsewhere(a, b, first) && SameElsewhere(b, c, second)
    ensures SameElsewhere(a, c, first + second)
  {
    assert a - (first + second) == a - first - second;
    assert b - (first + second) == b - first - second;
    assert b - first - second == b - second - first;
    assert c - (first + second) == c - second - first;
  }

  lemma TouchesJoin(s0: Store, t0: seq<Turn>, s1: Store, t1: seq<Turn>, s2: Store, t2: seq<Turn>, first: set<Key>,
                    second: set<Key>)
    requires OnlyTouches(s0, t0, s1, t1, first) && OnlyTouches(s1, t1, s2, t2, second)
    ensures OnlyTouches(s0, t0, s2, t2, first + second)
  {
    var p, q := t0[..|t0| - |t1|], t1[..|t1| - |t2|];
    assert t0[..|t0| - |t2|] == p + q;
    AllWritesJoin(p, q);
    RewrittenComposes(Contents(s0), AllWrites(p), AllWrites(q));
    RewrittenElsewhere(Contents(s1), Rewritten(Contents(s0), AllWrites(p)), AllWrites(q), first);
    SameElsewhereJoins(Contents(s2), Rewritten(Contents(s1), AllWrites(q)), Rewritten(Contents(s0), AllWrites(p + q)),
                       second, first);
    assert second + first == first + second;
  }
}
