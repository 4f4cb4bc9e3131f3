/** The GPU mapping of gpu.go. */
module Gpus {
  import opened Entity

  method IsDevicePluginResource(token: string) returns (r: bool)
    ensures r <==> '/' in token
  {
    for i := 0 to |token|
      invariant '/' !in token[..i]
    {
      if token[i] == '/' { return true; }
    }
    assert token[..|token|] == token;
    r := false;
  }

  /** Empty tokens vanish; a vendor/name token asks for a resource, any other for a device. */
  function MappedTokens(tokens: seq<string>): seq<Gpu> {
    if tokens == [] then []
    else
      var t := tokens[0];
      (if t == "" then [] else if '/' in t then [Gpu(t, "")] else [Gpu("", t)]) + MappedTokens(tokens[1..])
  }

  lemma {:induction false} MappedTokensAppend(a: seq<string>, b: seq<string>)
    ensures MappedTokens(a + b) == MappedTokens(a) + MappedTokens(b)
    decreases |a|
  {
    if a == [] {
      assert a + b == b;
    } else {
      assert (a + b)[1..] == a[1..] + b;
      MappedTokensAppend(a[1..], b);
    }
  }

  method GPUsFromRequiresExclusive(tokens: seq<string>) returns (out: seq<Gpu>)
    ensures out == MappedTokens(tokens)
  {
    out := [];
    for i := 0 to |tokens|
      invariant out == MappedTokens(tokens[..i])
    {
      var t := tokens[i];
      assert tokens[..i + 1] == tokens[..i] + [t];
      MappedTokensAppend(tokens[..i], [t]);
      if t == "" { continue; }
      var isResource := IsDevicePluginResource(t);
      if isResource {
        out := out + [Gpu(t, "")];
        continue;
      }
      out := out + [Gpu("", t)];
    }
    assert tokens[..|tokens|] == tokens;
  }

  predicate OneForm(g: Gpu) {
    (g.resourceName != "") != (g.deviceName != "")
  }

  /** A mapped token is recovered from its entry, and each entry has exactly one form. */
  function TokenOf(g: Gpu): string {
    if g.resourceName != "" then g.resourceName else g.deviceName
  }

  function NonEmpty(tokens: seq<string>): seq<string> {
    if tokens == [] then [] else (if tokens[0] == "" then [] else [tokens[0]]) + NonEmpty(tokens[1..])
  }

  lemma {:induction false} MappedTokensAreRecovered(tokens: seq<string>)
    ensures |MappedTokens(tokens)| == |NonEmpty(tokens)|
    ensures forall i | 0 <= i < |MappedTokens(tokens)| ::
              var t := NonEmpty(tokens)[i];
              && OneForm(MappedTokens(tokens)[i]) && TokenOf(MappedTokens(tokens)[i]) == t
              && MappedTokens(tokens)[i] == if '/' in t then Gpu(t, "") else Gpu("", t)
  {
    if tokens != [] {
      MappedTokensAreRecovered(tokens[1..]);
    }
  }

  function GpuLine(g: Gpu): string {
    if g.resourceName != "" then "resourceName=" + g.resourceName else "deviceName=" + g.deviceName
  }

  /** The lines of `charly kubevirt gpu`; an entry with neither form prints nothing. */
  function GpuLines(gpus: seq<Gpu>): seq<string> {
    if gpus == [] then []
    else (if gpus[0] == Gpu("", "") then [] else [GpuLine(gpus[0])]) + GpuLines(gpus[1..])
  }

  lemma {:induction false} GpuLinesAppend(a: seq<Gpu>, b: seq<Gpu>)
    ensures GpuLines(a + b) == GpuLines(a) + GpuLines(b)
    decreases |a|
  {
    if a == [] {
      assert a + b == b;
    } else {
      assert (a + b)[1..] == a[1..] + b;
      GpuLinesAppend(a[1..], b);
    }
  }

  /** Of an entry with both forms the resource is printed, and an entry with neither prints nothing. */
  lemma OneEntryPrints(g: Gpu)
    ensures GpuLines([g]) == if g.resourceName != "" then ["resourceName=" + g.resourceName]
                             else if g.deviceName != "" then ["deviceName=" + g.deviceName]
                             else []
  {
    assert [g][1..] == [];
  }

  method RenderVirtualMachineGPUs(gpus: seq<Gpu>) returns (out: seq<string>)
    ensures out == GpuLines(gpus)
  {
    out := [];
    for i := 0 to |gpus|
      invariant out == GpuLines(gpus[..i])
    {
      var g := gpus[i];
      assert gpus[..i + 1] == gpus[..i] + [g];
      GpuLinesAppend(gpus[..i], [g]);
      if g.resourceName != "" {
        out := out + ["resourceName=" + g.resourceName];
      } else if g.deviceName != "" {
        out := out + ["deviceName=" + g.deviceName];
      }
    }
    assert gpus[..|gpus|] == gpus;
  }

  /** With valid entries there is one line for each, in order. */
  lemma {:induction false} ValidGpusPrintOneLineEach(gpus: seq<Gpu>)
    requires forall i | 0 <= i < |gpus| :: OneForm(gpus[i])
    ensures |GpuLines(gpus)| == |gpus|
    ensures forall i | 0 <= i < |gpus| ::
              GpuLines(gpus)[i] == if gpus[i].resourceName != "" then "resourceName=" + gpus[i].resourceName
                                   else "deviceName=" + gpus[i].deviceName
  {
    if gpus != [] {
      assert OneForm(gpus[0]);
      ValidGpusPrintOneLineEach(gpus[1..]);
    }
  }
}
