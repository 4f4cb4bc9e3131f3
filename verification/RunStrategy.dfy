/**
 The run strategy of a VirtualMachine, changed in two ways: the merge patch of cluster_ops.go and
 the field assignment of methods.go. The two agree on every object, and the patch commutes with
 every concurrent write that leaves spec.runStrategy alone.
 */
module RunStrategy {
  import opened JsonValues
  import opened Wrappers

  const RUN_STRATEGY: seq<string> := ["spec", "runStrategy"]
  const ALWAYS := "Always"
  const HALTED := "Halted"

  function RunStrategyPatch(strategy: string): Json {
    Obj(map["spec" := Obj(map["runStrategy" := Str(strategy)])])
  }

  function Patched(o: Object, patch: Json): Object {
    Members(Some(MergePatch(Some(Obj(o)), patch)))
  }

  function WithRunStrategy(o: Object, strategy: string): Object {
    o["spec" := Obj(Members(Field(Some(Obj(o)), "spec"))["runStrategy" := Str(strategy)])]
  }

  /** An object the verb methods hold and change in place. */
  class LiveObject {
    var fields: Object

    constructor (fields: Object)
      ensures this.fields == fields
    {
      this.fields := fields;
    }

    method SetRunStrategy(strategy: string)
      modifies this
      ensures fields == WithRunStrategy(old(fields), strategy)
    {
      var spec: Object := map[];
      if "spec" in fields && fields["spec"].Obj? {
        spec := fields["spec"].fields;
      }
      spec := spec["runStrategy" := Str(strategy)];
      fields := fields["spec" := Obj(spec)];
    }
  }

  /** The server-side patch and the client-side assignment are the same change. */
  lemma PatchIsAssignment(o: Object, strategy: string)
    ensures MergePatch(Some(Obj(o)), RunStrategyPatch(strategy)) == Obj(WithRunStrategy(o, strategy))
    ensures Patched(o, RunStrategyPatch(strategy)) == WithRunStrategy(o, strategy)
  {
    var spec := Field(Some(Obj(o)), "spec");
    var inner := Obj(map["runStrategy" := Str(strategy)]);
    assert MergePatch(spec, inner) == Obj(Members(spec)["runStrategy" := Str(strategy)]) by {
      assert MergePatch(Field(spec, "runStrategy"), Str(strategy)) == Str(strategy);
    }
    assert MergePatch(Some(Obj(o)), RunStrategyPatch(strategy)).fields["spec"] == MergePatch(spec, inner);
  }

  lemma LastStrategyWins(o: Object, first: string, second: string)
    ensures WithRunStrategy(WithRunStrategy(o, first), second) == WithRunStrategy(o, second)
    ensures At(WithRunStrategy(o, second), RUN_STRATEGY) == Some(Str(second))
  {
    assert RUN_STRATEGY[1..] == ["runStrategy"] && ["runStrategy"][1..] == [];
    var once := WithRunStrategy(o, first);
    var spec := Members(Field(Some(Obj(o)), "spec"));
    assert Field(Some(Obj(once)), "spec") == Some(Obj(spec["runStrategy" := Str(first)]));
    assert spec["runStrategy" := Str(first)]["runStrategy" := Str(second)] == spec["runStrategy" := Str(second)];
    assert WithRunStrategy(once, second) == WithRunStrategy(o, second);
  }

  /** The assignment changes nothing exactly when the strategy is already there. */
  lemma AssignmentIsSilentIff(o: Object, strategy: string)
    ensures WithRunStrategy(o, strategy) == o <==> At(o, RUN_STRATEGY) == Some(Str(strategy))
  {
    LastStrategyWins(o, strategy, strategy);
    ReadTwice(o, RUN_STRATEGY);
    assert RUN_STRATEGY[2..] == [];
    if At(o, RUN_STRATEGY) == Some(Str(strategy)) {
      var spec := o["spec"].fields;
      assert spec["runStrategy" := Str(strategy)] == spec;
      assert o["spec" := Obj(spec)] == o;
    }
  }

  /* ----- what the change leaves alone ----- */

  /** Neither path leads through the other. */
  predicate Apart(p: seq<string>, q: seq<string>) {
    !(p <= q) && !(q <= p)
  }

  ghost predicate AgreeApart(a: Object, b: Object) {
    forall q | Apart(q, RUN_STRATEGY) :: At(a, q) == At(b, q)
  }

  lemma ApartFromRunStrategy(q: seq<string>)
    requires Apart(q, RUN_STRATEGY)
    ensures q != []
    ensures q[0] == "spec" ==> |q| >= 2 && q[1] != "runStrategy" && q[1..][0] == q[1]
  {
  }

  lemma ReadTwice(o: Object, q: seq<string>)
    requires |q| >= 2
    ensures At(o, q) == Lookup(Field(Field(Some(Obj(o)), q[0]), q[1]), q[2..])
  {
    var first, rest := Field(Some(Obj(o)), q[0]), q[1..];
    assert rest[0] == q[1] && rest[1..] == q[2..];
    assert Lookup(first, rest) == Lookup(Field(first, rest[0]), rest[1..]);
  }

  lemma AssignmentFrame(o: Object, strategy: string)
    ensures AgreeApart(WithRunStrategy(o, strategy), o)
  {
    forall q | Apart(q, RUN_STRATEGY) ensures At(WithRunStrategy(o, strategy), q) == At(o, q) {
      ApartFromRunStrategy(q);
      if q[0] == "spec" {
        ReadTwice(o, q);
        ReadTwice(WithRunStrategy(o, strategy), q);
      }
    }
  }

  /**
   Reading strings back: every path that does not lead into spec.runStrategy reads as before,
   exactly when spec was not itself a non-empty string (which the assignment replaces).
   */
  lemma TextFrame(o: Object, strategy: string)
    ensures (forall q: seq<string> | !(RUN_STRATEGY <= q) :: TextAt(WithRunStrategy(o, strategy), q) == TextAt(o, q))
       <==> TextAt(o, ["spec"]) == ""
  {
    var after := WithRunStrategy(o, strategy);
    assert ["spec"][1..] == [];
    assert TextAt(after, ["spec"]) == "";
    assert !(RUN_STRATEGY <= ["spec"]);
    if TextAt(o, ["spec"]) == "" {
      forall q: seq<string> | !(RUN_STRATEGY <= q) ensures TextAt(after, q) == TextAt(o, q) {
        if Apart(q, RUN_STRATEGY) {
          AssignmentFrame(o, strategy);
        } else {
          assert q == RUN_STRATEGY[..|q|];
          assert q == [] || q == ["spec"];
        }
      }
    }
  }

  /* ----- patches interleaved with other writers ----- */

  /** A write by someone else that neither changes nor depends on the run strategy. */
  ghost predicate SparesRunStrategy(f: Object -> Object) {
    && (forall o :: At(f(o), RUN_STRATEGY) == At(o, RUN_STRATEGY))
    && (forall a, b :: AgreeApart(a, b) ==> AgreeApart(f(a), f(b)))
  }

  datatype Event = StrategyPatch(strategy: string) | Foreign(write: Object -> Object)

  function Apply(o: Object, e: Event): Object {
    match e
    case StrategyPatch(s) => Patched(o, RunStrategyPatch(s))
    case Foreign(f) => f(o)
  }

  function Replay(o: Object, es: seq<Event>): Object
    decreases |es|
  {
    if es == [] then o else Replay(Apply(o, es[0]), es[1..])
  }

  function ForeignOnly(es: seq<Event>): seq<Event> {
    if es == [] then [] else (if es[0].Foreign? then [es[0]] else []) + ForeignOnly(es[1..])
  }

  /** The strategy of the last patch; the stored one when there is no patch. */
  function LastStrategy(es: seq<Event>, stored: Option<Json>): Option<Json> {
    if es == [] then stored
    else LastStrategy(es[1..], if es[0].StrategyPatch? then Some(Str(es[0].strategy)) else stored)
  }

  /**
   For every order of run-strategy patches and other writers' changes, the last patch decides the
   strategy and everything else is what the other writers alone would have left.
   */
  lemma {:induction false} PatchesInterleave(o: Object, es: seq<Event>)
    requires forall e | e in es && e.Foreign? :: SparesRunStrategy(e.write)
    ensures At(Replay(o, es), RUN_STRATEGY) == LastStrategy(es, At(o, RUN_STRATEGY))
    ensures AgreeApart(Replay(o, es), Replay(o, ForeignOnly(es)))
  {
    ReplayAgrees(o, o, es);
  }

  lemma {:induction false} ReplayAgrees(a: Object, b: Object, es: seq<Event>)
    requires forall e | e in es && e.Foreign? :: SparesRunStrategy(e.write)
    requires AgreeApart(a, b)
    ensures At(Replay(a, es), RUN_STRATEGY) == LastStrategy(es, At(a, RUN_STRATEGY))
    ensures AgreeApart(Replay(a, es), Replay(b, ForeignOnly(es)))
    decreases |es|
  {
    if es != [] {
      var a' := Apply(a, es[0]);
      match es[0] {
        case StrategyPatch(s) =>
          PatchIsAssignment(a, s);
          AssignmentFrame(a, s);
          LastStrategyWins(a, s, s);
          assert ForeignOnly(es) == ForeignOnly(es[1..]);
          ReplayAgrees(a', b, es[1..]);
        case Foreign(f) =>
          assert ForeignOnly(es) == [es[0]] + ForeignOnly(es[1..]);
          assert ForeignOnly(es)[1..] == ForeignOnly(es[1..]);
          ReplayAgrees(a', f(b), es[1..]);
      }
    }
  }

  /** A merge patch from another writer qualifies when it names no spec.runStrategy. */
  predicate NamesNoRunStrategy(patch: Json) {
    && patch.Obj?
    && ("spec" in patch.fields ==> patch.fields["spec"].Obj? && "runStrategy" !in patch.fields["spec"].fields)
  }

  lemma ForeignMergePatchSpares(patch: Json)
    requires NamesNoRunStrategy(patch)
    ensures SparesRunStrategy(o => Patched(o, patch))
  {
    var f := (o: Object) => Patched(o, patch);
    assert RUN_STRATEGY[1..] == ["runStrategy"] && ["runStrategy"][1..] == [];
    forall o ensures At(f(o), RUN_STRATEGY) == At(o, RUN_STRATEGY) {
      if "spec" in patch.fields {
        assert f(o)["spec"] == MergePatch(Field(Some(Obj(o)), "spec"), patch.fields["spec"]);
      }
    }
    forall a, b | AgreeApart(a, b) ensures AgreeApart(f(a), f(b)) {
      forall q | Apart(q, RUN_STRATEGY) ensures At(f(a), q) == At(f(b), q) {
        ApartFromRunStrategy(q);
        MergedFieldAgrees(a, b, patch, q);
      }
    }
  }

  lemma MergedFieldAgrees(a: Object, b: Object, patch: Json, q: seq<string>)
    requires NamesNoRunStrategy(patch) && AgreeApart(a, b)
    requires Apart(q, RUN_STRATEGY) && q != []
    requires q[0] == "spec" ==> |q| >= 2 && q[1] != "runStrategy"
    ensures At(Patched(a, patch), q) == At(Patched(b, patch), q)
  {
    if q[0] != "spec" {
      var head := [q[0]];
      assert At(a, head) == At(b, head);
      assert head[1..] == [];
      assert Field(Some(Obj(a)), q[0]) == Lookup(Field(Some(Obj(a)), head[0]), head[1..]);
      assert Field(Some(Obj(b)), q[0]) == Lookup(Field(Some(Obj(b)), head[0]), head[1..]);
      assert Field(Some(Obj(Patched(a, patch))), q[0]) == Field(Some(Obj(Patched(b, patch))), q[0]);
    } else {
      var pair := [q[0], q[1]];
      assert At(a, pair) == At(b, pair);
      ReadTwice(a, pair);
      ReadTwice(b, pair);
      assert pair[2..] == [];
      var sa, sb := Field(Some(Obj(a)), "spec"), Field(Some(Obj(b)), "spec");
      assert Field(sa, q[1]) == Field(sb, q[1]);
      ReadTwice(Patched(a, patch), q);
      ReadTwice(Patched(b, patch), q);
      if "spec" in patch.fields {
        var inner := patch.fields["spec"];
        assert Field(Some(Obj(Patched(a, patch))), "spec") == Some(MergePatch(sa, inner));
        assert Field(Some(Obj(Patched(b, patch))), "spec") == Some(MergePatch(sb, inner));
        assert Field(Some(MergePatch(sa, inner)), q[1]) == Field(Some(MergePatch(sb, inner)), q[1]);
      }
    }
  }

  /** The condition is exact: any other object patch disturbs the strategy of some VirtualMachine. */
  lemma ForeignMergePatchSparesIff(patch: Json)
    requires patch.Obj?
    ensures SparesRunStrategy(o => Patched(o, patch)) <==> NamesNoRunStrategy(patch)
  {
    if NamesNoRunStrategy(patch) {
      ForeignMergePatchSpares(patch);
    } else {
      var f := (o: Object) => Patched(o, patch);
      var written := Field(Some(patch.fields["spec"]), "runStrategy");
      var kept := if written == Some(Str("")) then Str("kept") else Str("");
      var o: Object := map["spec" := Obj(map["runStrategy" := kept])];
      assert RUN_STRATEGY[1..] == ["runStrategy"] && ["runStrategy"][1..] == [];
      assert At(o, RUN_STRATEGY) == Some(kept);
      assert At(f(o), RUN_STRATEGY) != Some(kept) by {
        ReadTwice(f(o), RUN_STRATEGY);
        assert RUN_STRATEGY[2..] == [];
        var spec := patch.fields["spec"];
        if spec.Null? {
          assert "spec" !in f(o);
        } else {
          assert f(o)["spec"] == MergePatch(Some(o["spec"]), spec);
          if spec.Obj? && !spec.fields["runStrategy"].Null? {
            assert f(o)["spec"].fields["runStrategy"] == MergePatch(Some(kept), written.value);
          }
        }
      }
    }
  }
}
