/** The deep validation of kind.go, the guest identity of lifecycle.go, and what the one means for the other. */
module Validate {
  import opened Decimal
  import opened Entity
  import opened Gpus
  import opened JsonValues
  import opened NormalForm
  import opened Render
  import opened Wrappers

  datatype Rule =
    | KindMissing
    | KindUnknown
    | StorageClassOnContainerDisk
    | NoGuestIdentity
    | DistroUnknown
    | GpuForm
    | InstancetypeAndCpu

  datatype Diagnostic = Diagnostic(path: string, rule: Rule)

  /** The part of the authored body the rules read. */
  datatype Body = Body(kind: string, storageClass: string, cores: int, sockets: int, threads: int, instancetype: string,
                       distro: string, sshUser: string, gpus: seq<Gpu>)

  function BodyOf(kv: KubeVirt): Body {
    var cpu := if kv.cpu.Some? then kv.cpu.value else Cpu(0, 0, 0, "", false);
    Body(kv.source.kind, kv.source.storageClass, cpu.cores, cpu.sockets, cpu.threads, kv.instancetype, kv.distro,
         kv.sshUser, kv.gpus)
  }

  /** The source and distro rules. */
  predicate SourceIsValid(b: Body, knownDistros: set<string>) {
    && b.kind in SOURCE_KINDS
    && (b.kind == "container_disk" ==> b.storageClass == "")
    && (b.kind != "container_disk" ==> b.distro != "" && b.sshUser != "")
    && (b.distro != "" ==> b.distro in knownDistros)
  }

  /** The rules, as the entity has to satisfy them. */
  ghost predicate Valid(b: Body, knownDistros: set<string>) {
    && SourceIsValid(b, knownDistros)
    && (forall i | 0 <= i < |b.gpus| :: OneForm(b.gpus[i]))
    && (b.instancetype != "" ==> b.cores == b.sockets == b.threads == 0)
  }

  function GpuPath(i: nat): string {
    "gpus[" + Itoa(i) + "]"
  }

  /** One diagnostic for each offending entry before n, in order. */
  function GpuDiagnostics(gpus: seq<Gpu>, n: nat): seq<Diagnostic>
    requires n <= |gpus|
  {
    if n == 0 then []
    else GpuDiagnostics(gpus, n - 1) + (if OneForm(gpus[n - 1]) then [] else [Diagnostic(GpuPath(n - 1), GpuForm)])
  }

  function Offending(gpus: seq<Gpu>, n: nat): seq<nat>
    requires n <= |gpus|
  {
    if n == 0 then [] else Offending(gpus, n - 1) + (if OneForm(gpus[n - 1]) then [] else [n - 1])
  }

  /** The gpu diagnostics are the offending indices, each once, ascending. */
  lemma {:induction false} GpuDiagnosticsAreExact(gpus: seq<Gpu>, n: nat)
    requires n <= |gpus|
    ensures var bad := Offending(gpus, n);
            && |GpuDiagnostics(gpus, n)| == |bad|
            && (forall k | 0 <= k < |bad| :: GpuDiagnostics(gpus, n)[k] == Diagnostic(GpuPath(bad[k]), GpuForm))
            && (forall j, k | 0 <= j < k < |bad| :: bad[j] < bad[k])
            && (forall k | 0 <= k < |bad| :: bad[k] < n)
            && (forall i: nat | i < n :: i in bad <==> !OneForm(gpus[i]))
  {
    if n > 0 {
      GpuDiagnosticsAreExact(gpus, n - 1);
    }
  }

  /** The path of an entry is its index in decimal, between "gpus[" and "]". */
  lemma GpuPathNamesTheIndex(i: nat)
    requires i <= MAX_INT
    ensures var path := GpuPath(i);
            && |path| > 6 && path[..5] == "gpus[" && path[|path| - 1..] == "]"
            && Atoi(path[5..|path| - 1]) == Some(i)
  {
    assert GpuPath(i)[5..|GpuPath(i)| - 1] == Itoa(i);
    AtoiOfItoa(i);
  }

  /** Distinct entries are reported under distinct paths. */
  lemma GpuPathsAreDistinct(i: nat, j: nat)
    requires GpuPath(i) == GpuPath(j)
    ensures i == j
  {
    assert GpuPath(i)[5..|GpuPath(i)| - 1] == Itoa(i);
    assert GpuPath(j)[5..|GpuPath(j)| - 1] == Itoa(j);
    ValueOfDigits(i);
    ValueOfDigits(j);
  }

  function Report(broken: bool, path: string, rule: Rule): seq<Diagnostic> {
    if broken then [Diagnostic(path, rule)] else []
  }

  function SourceReports(b: Body, knownDistros: set<string>): seq<Diagnostic> {
    Report(b.kind == "", "source.kind", KindMissing)
    + Report(b.kind != "" && b.kind !in SOURCE_KINDS, "source.kind", KindUnknown)
    + Report(b.kind == "container_disk" && b.storageClass != "", "source.storage_class", StorageClassOnContainerDisk)
    + Report(b.kind in SOURCE_KINDS && b.kind != "container_disk" && (b.distro == "" || b.sshUser == ""),
             if b.distro == "" then "distro" else "ssh_user", NoGuestIdentity)
    + Report(b.distro != "" && b.distro !in knownDistros, "distro", DistroUnknown)
  }

  function CpuReport(b: Body): seq<Diagnostic> {
    Report(b.instancetype != "" && (b.cores != 0 || b.sockets != 0 || b.threads != 0), "instancetype",
           InstancetypeAndCpu)
  }

  /** The rules before the gpu loop. */
  method ReportSource(b: Body, knownDistros: set<string>) returns (items: seq<Diagnostic>)
    ensures items == SourceReports(b, knownDistros)
  {
    items := [];
    if b.kind == "" {
      items := items + [Diagnostic("source.kind", KindMissing)];
    } else if b.kind !in SOURCE_KINDS {
      items := items + [Diagnostic("source.kind", KindUnknown)];
    }
    if b.kind == "container_disk" && b.storageClass != "" {
      items := items + [Diagnostic("source.storage_class", StorageClassOnContainerDisk)];
    }
    if b.kind != "" && b.kind in SOURCE_KINDS && b.kind != "container_disk" {
      var missing: seq<string> := [];
      if b.distro == "" { missing := missing + ["distro"]; }
      if b.sshUser == "" { missing := missing + ["ssh_user"]; }
      if |missing| > 0 {
        items := items + [Diagnostic(missing[0], NoGuestIdentity)];
      }
    }
    if b.distro != "" {
      if b.distro !in knownDistros {
        items := items + [Diagnostic("distro", DistroUnknown)];
      }
    }
  }

  method ValidateKubeVirtDeep(b: Body, knownDistros: set<string>) returns (items: seq<Diagnostic>)
    ensures items == SourceReports(b, knownDistros) + GpuDiagnostics(b.gpus, |b.gpus|) + CpuReport(b)
    ensures items == [] <==> Valid(b, knownDistros)
  {
    items := ReportSource(b, knownDistros);
    for i := 0 to |b.gpus|
      invariant items == SourceReports(b, knownDistros) + GpuDiagnostics(b.gpus, i)
    {
      var hasRes, hasDev := b.gpus[i].resourceName != "", b.gpus[i].deviceName != "";
      if hasRes == hasDev {
        items := items + [Diagnostic(GpuPath(i), GpuForm)];
      }
    }
    if b.instancetype != "" && (b.cores != 0 || b.sockets != 0 || b.threads != 0) {
      items := items + [Diagnostic("instancetype", InstancetypeAndCpu)];
    }
    SilenceMeansValid(b, knownDistros);
  }

  lemma SourceIsSilentIff(b: Body, knownDistros: set<string>)
    ensures SourceReports(b, knownDistros) == [] <==> SourceIsValid(b, knownDistros)
  {
    assert "" !in SOURCE_KINDS && "container_disk" in SOURCE_KINDS;
  }

  lemma GpusAreSilentIff(gpus: seq<Gpu>)
    ensures GpuDiagnostics(gpus, |gpus|) == [] <==> forall i | 0 <= i < |gpus| :: OneForm(gpus[i])
  {
    var bad := Offending(gpus, |gpus|);
    GpuDiagnosticsAreExact(gpus, |gpus|);
    if bad == [] {
      forall i | 0 <= i < |gpus| ensures OneForm(gpus[i]) {
        assert i !in bad;
      }
    } else {
      assert bad[0] in bad;
    }
  }

  lemma AllSilent(a: seq<Diagnostic>, b: seq<Diagnostic>, c: seq<Diagnostic>)
    ensures a + b + c == [] <==> a == [] && b == [] && c == []
  {
    assert |a + b + c| == |a| + |b| + |c|;
  }

  lemma SilenceMeansValid(b: Body, knownDistros: set<string>)
    ensures SourceReports(b, knownDistros) + GpuDiagnostics(b.gpus, |b.gpus|) + CpuReport(b) == []
            <==> Valid(b, knownDistros)
  {
    AllSilent(SourceReports(b, knownDistros), GpuDiagnostics(b.gpus, |b.gpus|), CpuReport(b));
    SourceIsSilentIff(b, knownDistros);
    GpusAreSilentIff(b.gpus);
  }

  /** A GPU with both forms, or neither. */
  predicate NotOneForm(g: Gpu) {
    (g.resourceName == "" && g.deviceName == "") || (g.resourceName != "" && g.deviceName != "")
  }

  /** Which diagnostics there are, rule by rule. */
  predicate Reported(b: Body, knownDistros: set<string>, d: Diagnostic) {
    var known := b.kind == "container_disk" || b.kind == "data_volume" || b.kind == "pvc" || b.kind == "clone";
    match d.rule
    case KindMissing => b.kind == "" && d.path == "source.kind"
    case KindUnknown => b.kind != "" && !known && d.path == "source.kind"
    case StorageClassOnContainerDisk =>
      b.kind == "container_disk" && b.storageClass != "" && d.path == "source.storage_class"
    case NoGuestIdentity =>
      known && b.kind != "container_disk"
      && ((b.distro == "" && d.path == "distro") || (b.distro != "" && b.sshUser == "" && d.path == "ssh_user"))
    case DistroUnknown => b.distro != "" && b.distro !in knownDistros && d.path == "distro"
    case GpuForm => exists i: nat | i < |b.gpus| :: NotOneForm(b.gpus[i]) && d.path == GpuPath(i)
    case InstancetypeAndCpu =>
      b.instancetype != "" && !(b.cores == 0 && b.sockets == 0 && b.threads == 0) && d.path == "instancetype"
  }

  lemma SourceReportsAre(b: Body, knownDistros: set<string>, d: Diagnostic)
    ensures d in SourceReports(b, knownDistros)
       <==> !d.rule.GpuForm? && !d.rule.InstancetypeAndCpu? && Reported(b, knownDistros, d)
  {
    InFive(d, Report(b.kind == "", "source.kind", KindMissing),
           Report(b.kind != "" && b.kind !in SOURCE_KINDS, "source.kind", KindUnknown),
           Report(b.kind == "container_disk" && b.storageClass != "", "source.storage_class",
                  StorageClassOnContainerDisk),
           Report(b.kind in SOURCE_KINDS && b.kind != "container_disk" && (b.distro == "" || b.sshUser == ""),
                  if b.distro == "" then "distro" else "ssh_user", NoGuestIdentity),
           Report(b.distro != "" && b.distro !in knownDistros, "distro", DistroUnknown));
    KnownKindsAre(b.kind);
  }

  lemma KnownKindsAre(kind: string)
    ensures kind in SOURCE_KINDS
       <==> kind == "container_disk" || kind == "data_volume" || kind == "pvc" || kind == "clone"
  {
  }

  lemma InFive(d: Diagnostic, r1: seq<Diagnostic>, r2: seq<Diagnostic>, r3: seq<Diagnostic>, r4: seq<Diagnostic>,
               r5: seq<Diagnostic>)
    ensures d in r1 + r2 + r3 + r4 + r5 <==> d in r1 || d in r2 || d in r3 || d in r4 || d in r5
  {
  }

  lemma GpuReportIsFor(gpus: seq<Gpu>, d: Diagnostic) returns (i: nat)
    requires d in GpuDiagnostics(gpus, |gpus|)
    ensures i < |gpus| && NotOneForm(gpus[i]) && d == Diagnostic(GpuPath(i), GpuForm)
  {
    var bad, reports := Offending(gpus, |gpus|), GpuDiagnostics(gpus, |gpus|);
    GpuDiagnosticsAreExact(gpus, |gpus|);
    var k :| 0 <= k < |reports| && reports[k] == d;
    assert bad[k] in bad;
    i := bad[k];
  }

  lemma OffendingIsReported(gpus: seq<Gpu>, i: nat)
    requires i < |gpus| && NotOneForm(gpus[i])
    ensures Diagnostic(GpuPath(i), GpuForm) in GpuDiagnostics(gpus, |gpus|)
  {
    var bad, reports := Offending(gpus, |gpus|), GpuDiagnostics(gpus, |gpus|);
    GpuDiagnosticsAreExact(gpus, |gpus|);
    assert i in bad;
    var k :| 0 <= k < |bad| && bad[k] == i;
    assert reports[k] == Diagnostic(GpuPath(i), GpuForm);
  }

  lemma GpuReportsAre(b: Body, knownDistros: set<string>, d: Diagnostic)
    ensures d in GpuDiagnostics(b.gpus, |b.gpus|) <==> d.rule.GpuForm? && Reported(b, knownDistros, d)
  {
    if d in GpuDiagnostics(b.gpus, |b.gpus|) {
      var i := GpuReportIsFor(b.gpus, d);
    }
    if d.rule.GpuForm? && Reported(b, knownDistros, d) {
      var i: nat :| i < |b.gpus| && NotOneForm(b.gpus[i]) && d.path == GpuPath(i);
      OffendingIsReported(b.gpus, i);
    }
  }

  /** The validator reports a diagnostic exactly when the rule it names is broken there. */
  lemma DiagnosticsAreExactly(b: Body, knownDistros: set<string>, d: Diagnostic)
    ensures d in SourceReports(b, knownDistros) + GpuDiagnostics(b.gpus, |b.gpus|) + CpuReport(b)
       <==> Reported(b, knownDistros, d)
  {
    SourceReportsAre(b, knownDistros, d);
    GpuReportsAre(b, knownDistros, d);
    assert d in CpuReport(b) <==> d.rule.InstancetypeAndCpu? && Reported(b, knownDistros, d);
  }

  /* ----- the guest identity ----- */

  /** What a VM box's labels say. */
  datatype BoxMetadata = BoxMetadata(distro: string, sshUser: string)

  /** A declared value wins; a containerDisk fills the rest from its box, when that can be read. */
  function Identity(declared: string, fromBox: string, kind: string, meta: Option<BoxMetadata>): string {
    if declared == "" && kind == "container_disk" && meta.Some? then fromBox else declared
  }

  datatype IdentityError = MissingIdentity(missing: seq<string>)

  method ResolveGuestIdentity(kv: KubeVirt, meta: Option<BoxMetadata>)
    returns (r: Result<(string, string), IdentityError>)
    ensures var distro := Identity(kv.distro, if meta.Some? then meta.value.distro else "", kv.source.kind, meta);
            var user := Identity(kv.sshUser, if meta.Some? then meta.value.sshUser else "", kv.source.kind, meta);
            && (r.Ok? <==> distro != "" && user != "")
            && (r.Ok? ==> r.value == (distro, user))
            && (r.Err? ==> r.error == MissingIdentity((if distro == "" then ["distro"] else [])
                                                      + (if user == "" then ["ssh_user"] else [])))
    ensures kv.distro != "" && kv.sshUser != "" ==> r == Ok((kv.distro, kv.sshUser))
    ensures kv.source.kind != "container_disk" || meta.None? ==> (r.Ok? <==> kv.distro != "" && kv.sshUser != "")
    ensures kv.source.kind == "container_disk" && meta.Some? ==>
              && (r.Ok? <==> && (kv.distro != "" || meta.value.distro != "")
                             && (kv.sshUser != "" || meta.value.sshUser != ""))
              && (r.Ok? ==> r.value.0 == if kv.distro != "" then kv.distro else meta.value.distro)
              && (r.Ok? ==> r.value.1 == if kv.sshUser != "" then kv.sshUser else meta.value.sshUser)
  {
    var distro, user := kv.distro, kv.sshUser;
    if kv.source.kind == "container_disk" {
      if meta.Some? {
        if distro == "" { distro := meta.value.distro; }
        if user == "" { user := meta.value.sshUser; }
      }
    }
    if distro == "" || user == "" {
      var missing: seq<string> := [];
      if distro == "" { missing := missing + ["distro"]; }
      if user == "" { missing := missing + ["ssh_user"]; }
      return Err(MissingIdentity(missing));
    }
    r := Ok((distro, user));
  }

  /* ----- what validity buys downstream ----- */

  /**
   A valid entity that is not a containerDisk has its identity declared, so its cloud-init guards pass
   whatever the box labels say; only the shared renderer itself can still fail.
   */
  lemma ValidIdentityResolves(kv: KubeVirt, knownDistros: set<string>, opts: RenderOptions,
                              files: Result<CloudFiles, string>)
    requires Valid(BodyOf(kv), knownDistros) && kv.source.kind != "container_disk"
    requires opts.distro == kv.distro && opts.sshUser == kv.sshUser
    ensures forall meta, fromBox :: Identity(kv.distro, fromBox, kv.source.kind, meta) == kv.distro != ""
    ensures forall meta, fromBox :: Identity(kv.sshUser, fromBox, kv.source.kind, meta) == kv.sshUser != ""
    ensures RenderFailure(kv, opts, files).Some? <==> kv.hasCloudInit && files.Err?
  {
  }

  /** The one key a GPU with one form renders. */
  function OneKey(g: Gpu): Json {
    if g.resourceName != "" then Obj(map["resourceName" := Str(g.resourceName)])
    else Obj(map["deviceName" := Str(g.deviceName)])
  }

  /** Each GPU of a valid entity renders exactly one key, and prints exactly one line, in order. */
  lemma ValidGpusHaveOneForm(kv: KubeVirt, knownDistros: set<string>)
    requires Valid(BodyOf(kv), knownDistros)
    ensures forall i | 0 <= i < |kv.gpus| :: GpuJson(kv.gpus[i]) == OneKey(kv.gpus[i])
    ensures |GpuLines(kv.gpus)| == |kv.gpus|
            && forall i | 0 <= i < |kv.gpus| ::
                 GpuLines(kv.gpus)[i] == if kv.gpus[i].resourceName != "" then "resourceName=" + kv.gpus[i].resourceName
                                         else "deviceName=" + kv.gpus[i].deviceName
  {
    forall i | 0 <= i < |kv.gpus| ensures GpuJson(kv.gpus[i]) == OneKey(kv.gpus[i]) {
      assert OneForm(BodyOf(kv).gpus[i]);
    }
    ValidGpusPrintOneLineEach(kv.gpus);
  }

  /**
   The CR of a valid entity never carries both an instancetype and CPU counts. For authored counts that
   are not negative the rule rejects exactly the entities whose CR would.
   */
  lemma InstancetypeExcludesCpu(kv: KubeVirt, knownDistros: set<string>, opts: RenderOptions, files: CloudFiles)
    ensures var cr := Encode(Normalize(kv, opts, files));
            && (Valid(BodyOf(kv), knownDistros) ==> !(NamesInstancetype(cr) && SizesCpu(cr)))
            && (BodyOf(kv).cores >= 0 && BodyOf(kv).sockets >= 0 && BodyOf(kv).threads >= 0 ==>
                  (CpuReport(BodyOf(kv)) != [] <==> NamesInstancetype(cr) && SizesCpu(cr)))
  {
    var cr := Encode(Normalize(kv, opts, files));
    MatcherAndCpuAre(kv, opts, files);
    ExclusionFollows(kv, knownDistros, NamesInstancetype(cr), SizesCpu(cr));
  }

  lemma ExclusionFollows(kv: KubeVirt, knownDistros: set<string>, named: bool, sized: bool)
    requires named <==> kv.instancetype != ""
    requires sized <==> kv.cpu.Some? && (kv.cpu.value.cores > 0 || kv.cpu.value.sockets > 0 || kv.cpu.value.threads > 0)
    ensures Valid(BodyOf(kv), knownDistros) ==> !(named && sized)
    ensures BodyOf(kv).cores >= 0 && BodyOf(kv).sockets >= 0 && BodyOf(kv).threads >= 0 ==>
              (CpuReport(BodyOf(kv)) != [] <==> named && sized)
  {
  }
}
