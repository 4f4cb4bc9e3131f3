/**
 JSON values as the dynamic client handles them, the path reads of render.go, and JSON merge
 patches as section 2 of RFC 7396 defines them.
 */
module JsonValues {
  import opened Wrappers

  datatype Json =
    | Null
    | Bool(b: bool)
    | Num(n: int)
    | Str(s: string)
    | Arr(items: seq<Json>)
    | Obj(fields: Object)

  /** A decoded JSON object: what Go holds as map[string]any. */
  type Object = map<string, Json>

  /** The value of one field; absent for a missing field and for anything that is not an object. */
  function Field(j: Option<Json>, name: string): Option<Json> {
    if j.Some? && j.value.Obj? && name in j.value.fields then Some(j.value.fields[name]) else None
  }

  function Lookup(j: Option<Json>, path: seq<string>): Option<Json>
    decreases path
  {
    if path == [] then j else Lookup(Field(j, path[0]), path[1..])
  }

  function At(o: Object, path: seq<string>): Option<Json> {
    Lookup(Some(Obj(o)), path)
  }

  /** The string at a path, and "" for everything else. */
  function TextAt(o: Object, path: seq<string>): string {
    match At(o, path)
    case Some(Str(s)) => s
    case _ => ""
  }

  method NestedMapString(o: Object, path: seq<string>) returns (s: string)
    ensures s == TextAt(o, path)
  {
    var cur := Some(Obj(o));
    var i := 0;
    while i < |path|
      invariant 0 <= i <= |path|
      invariant Lookup(cur, path[i..]) == At(o, path)
    {
      if !(cur.Some? && cur.value.Obj?) {
        LookupBelowLeaf(cur, path[i..]);
        return "";
      }
      cur := Field(cur, path[i]);
      i := i + 1;
    }
    s := if cur.Some? && cur.value.Str? then cur.value.s else "";
  }

  lemma LookupBelowLeaf(j: Option<Json>, path: seq<string>)
    requires path != [] && !(j.Some? && j.value.Obj?)
    ensures Lookup(j, path) == None
    decreases path
  {
    if |path| > 1 {
      LookupBelowLeaf(Field(j, path[0]), path[1..]);
    }
  }

  /* ----- merge patches ----- */

  function Members(j: Option<Json>): Object {
    if j.Some? && j.value.Obj? then j.value.fields else map[]
  }

  function MergePatch(target: Option<Json>, patch: Json): Json
    decreases patch
  {
    match patch
    case Obj(changes) =>
      var base := Members(target);
      Obj(map k | k in base.Keys + changes.Keys && !(k in changes && changes[k].Null?) ::
            if k in changes then MergePatch(Field(target, k), changes[k]) else base[k])
    case _ => patch
  }

  lemma {:induction false} MergePatchIsIdempotent(target: Option<Json>, patch: Json)
    ensures MergePatch(Some(MergePatch(target, patch)), patch) == MergePatch(target, patch)
    decreases patch
  {
    if patch.Obj? {
      var once := MergePatch(target, patch);
      forall k | k in patch.fields && !patch.fields[k].Null?
        ensures MergePatch(Field(Some(once), k), patch.fields[k]) == once.fields[k]
      {
        MergePatchIsIdempotent(Field(target, k), patch.fields[k]);
      }
    }
  }
}
