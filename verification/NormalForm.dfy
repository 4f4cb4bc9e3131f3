/**
 The normal form of a rendered VirtualMachine: what an entity and its options say once the renderer's
 defaults are folded in. Encode writes a form as a CR; Decode reads any CR; they are inverse.
 */
module NormalForm {
  import opened Entity
  import opened Gpus
  import opened JsonValues
  import opened Wrappers

  datatype FirmwareForm = Bios | Efi(secureBoot: bool)

  /** Counts are 0 when absent. */
  datatype CpuForm = CpuForm(cores: nat, sockets: nat, threads: nat, model: string, dedicated: bool)

  datatype HardwareForm = HardwareForm(machine: string, firmware: Option<FirmwareForm>, cpu: Option<CpuForm>,
                                       memory: string)

  datatype InterfaceForm = Masquerade | Bridge | Pod

  /** The devices an entity declares, without the storage and network the renderer adds. */
  datatype DeviceForm = DeviceForm(podInterface: bool, graphicsDevice: bool, serialConsole: bool, rng: bool,
                                   inputs: seq<Input>, watchdog: Option<Watchdog>, disks: seq<Json>,
                                   hostDevices: seq<HostDevice>, gpus: seq<Gpu>)

  datatype TemplateForm = TemplateForm(source: Option<Json>, size: string, storageClass: string, contentType: string)

  datatype BootForm =
    | NoBoot
    | ContainerDisk(image: string, pullPolicy: string, pullSecret: string, path: string)
    | DataVolume(template: TemplateForm)
    | Claim(name: string)

  datatype GuestForm = GuestForm(hardware: HardwareForm, devices: DeviceForm, iface: InterfaceForm, model: string,
                                 boot: BootForm, cloud: Option<CloudFiles>, migration: Migration,
                                 nodeSelector: map<string, string>, affinity: Object,
                                 instancetype: string, preference: string)

  datatype VmForm = VmForm(name: string, namespace: string, runStrategy: string, evictionStrategy: string,
                           gracePeriod: nat, guest: GuestForm)

  /* ----- folding the defaults ----- */

  function Count(n: int): nat {
    if n > 0 then n else 0
  }

  function OrElse(s: string, default: string): string {
    if s == "" then default else s
  }

  function FirmwareOf(f: Firmware): FirmwareForm {
    if f.bootloader == "efi" then Efi(f.efiSecureBoot) else Bios
  }

  function CpuOf(c: Cpu): CpuForm {
    CpuForm(Count(c.cores), Count(c.sockets), Count(c.threads), c.model, c.dedicated)
  }

  function HardwareOf(kv: KubeVirt): HardwareForm {
    HardwareForm(kv.machine,
                 if kv.firmware.Some? then Some(FirmwareOf(kv.firmware.value)) else None,
                 if kv.cpu.Some? then Some(CpuOf(kv.cpu.value)) else None,
                 kv.memory)
  }

  /** The authored list wins; an empty one is replaced by the mapped requires_exclusive tokens. */
  function GpusOf(kv: KubeVirt, requiresExclusive: seq<string>): seq<Gpu> {
    if kv.gpus == [] then MappedTokens(requiresExclusive) else kv.gpus
  }

  const NO_DEVICES := Devices(false, false, false, false, [], None, [], [])

  function DevicesOf(kv: KubeVirt, requiresExclusive: seq<string>): DeviceForm {
    var d := if kv.devices.Some? then kv.devices.value else NO_DEVICES;
    DeviceForm(d.podInterface, d.graphicsDevice, d.serialConsole, d.rng, d.inputs, d.watchdog, d.disks, d.hostDevices,
               GpusOf(kv, requiresExclusive))
  }

  function InterfaceOf(network: Option<Network>): InterfaceForm {
    if network == None then Masquerade
    else if network.value.iface == "bridge" then Bridge
    else if network.value.iface == "pod" then Pod
    else Masquerade
  }

  function ModelOf(network: Option<Network>): string {
    if network == None then "virtio" else OrElse(network.value.model, "virtio")
  }

  /** A clone is the data volume whose source is that PVC. */
  function TemplateOf(s: Source): TemplateForm {
    var source :=
      if s.kind == "data_volume" && s.dataVolume != map[] then Some(Obj(s.dataVolume))
      else if s.kind == "clone" && s.cloneFrom.Some? then
        Some(Obj(map["PVC" := Obj(map["name" := Str(s.cloneFrom.value)])]))
      else None;
    TemplateForm(source, s.size, s.storageClass, s.contentType)
  }

  function BootOf(s: Source): BootForm {
    if s.kind == "container_disk" then ContainerDisk(s.image, s.pullPolicy, s.pullSecret, s.diskPathInImage)
    else if IsDataVolumeKind(s.kind) then DataVolume(TemplateOf(s))
    else if s.kind == "pvc" then Claim(s.pvc)
    else NoBoot
  }

  const NO_MIGRATION := Migration(false, false, "")

  function GuestOf(kv: KubeVirt, requiresExclusive: seq<string>, cloud: CloudFiles): GuestForm {
    GuestForm(HardwareOf(kv), DevicesOf(kv, requiresExclusive), InterfaceOf(kv.network), ModelOf(kv.network),
              BootOf(kv.source), if kv.hasCloudInit then Some(cloud) else None,
              if kv.migration.Some? then kv.migration.value else NO_MIGRATION,
              kv.nodeSelector, kv.affinity, kv.instancetype, kv.preference)
  }

  function Normalize(kv: KubeVirt, opts: RenderOptions, cloud: CloudFiles): VmForm {
    VmForm(opts.name, OrElse(opts.namespace, "default"), OrElse(kv.runStrategy, "Always"), kv.evictionStrategy,
           Count(kv.gracePeriod), GuestOf(kv, opts.requiresExclusive, cloud))
  }

  /* ----- objects with optional fields ----- */

  datatype Slot = Slot(key: string, value: Option<Json>)

  function Set(o: Object, slot: Slot): Object {
    if slot.value.Some? then o[slot.key := slot.value.value] else o
  }

  /** The object that assigning the slots in order builds. */
  function Build(slots: seq<Slot>): Object {
    if slots == [] then map[] else Set(Build(slots[..|slots| - 1]), slots[|slots| - 1])
  }

  predicate Distinct(slots: seq<Slot>) {
    forall i, j | 0 <= i < j < |slots| :: slots[i].key != slots[j].key
  }

  lemma {:induction false} Reads(slots: seq<Slot>, i: nat)
    requires Distinct(slots) && i < |slots|
    ensures Get(Build(slots), slots[i].key) == slots[i].value
  {
    var n := |slots| - 1;
    if i < n {
      assert slots[..n][i] == slots[i];
      Reads(slots[..n], i);
      assert slots[n].key != slots[i].key;
    } else {
      HasOnly(slots[..n], slots[i].key);
    }
  }

  lemma {:induction false} HasOnly(slots: seq<Slot>, key: string)
    requires forall i | 0 <= i < |slots| :: slots[i].key != key
    ensures key !in Build(slots)
  {
    if slots != [] {
      HasOnly(slots[..|slots| - 1], key);
    }
  }

  lemma Appended(slots: seq<Slot>, slot: Slot)
    ensures Build(slots + [slot]) == Set(Build(slots), slot)
  {
  }

  lemma Build2(a: Slot, b: Slot)
    ensures Build([a, b]) == Set(Set(map[], a), b)
  {
    assert [] + [a] == [a] && [a] + [b] == [a, b];
    Appended([], a); Appended([a], b);
  }

  lemma Build3(a: Slot, b: Slot, c: Slot)
    ensures Build([a, b, c]) == Set(Set(Set(map[], a), b), c)
  {
    assert [] + [a] == [a] && [a] + [b] == [a, b] && [a, b] + [c] == [a, b, c];
    Appended([], a); Appended([a], b); Appended([a, b], c);
  }

  lemma Build4(a: Slot, b: Slot, c: Slot, d: Slot)
    ensures Build([a, b, c, d]) == Set(Set(Set(Set(map[], a), b), c), d)
  {
    Build3(a, b, c);
    assert [a, b, c] + [d] == [a, b, c, d];
    Appended([a, b, c], d);
  }

  lemma Build5(a: Slot, b: Slot, c: Slot, d: Slot, e: Slot)
    ensures Build([a, b, c, d, e]) == Set(Set(Set(Set(Set(map[], a), b), c), d), e)
  {
    Build4(a, b, c, d);
    assert [a, b, c, d] + [e] == [a, b, c, d, e];
    Appended([a, b, c, d], e);
  }

  lemma Build6(a: Slot, b: Slot, c: Slot, d: Slot, e: Slot, f: Slot)
    ensures Build([a, b, c, d, e, f]) == Set(Set(Set(Set(Set(Set(map[], a), b), c), d), e), f)
  {
    Build5(a, b, c, d, e);
    assert [a, b, c, d, e] + [f] == [a, b, c, d, e, f];
    Appended([a, b, c, d, e], f);
  }

  lemma Build7(a: Slot, b: Slot, c: Slot, d: Slot, e: Slot, f: Slot, g: Slot)
    ensures Build([a, b, c, d, e, f, g]) == Set(Set(Set(Set(Set(Set(Set(map[], a), b), c), d), e), f), g)
  {
    Build6(a, b, c, d, e, f);
    assert [a, b, c, d, e, f] + [g] == [a, b, c, d, e, f, g];
    Appended([a, b, c, d, e, f], g);
  }

  /** A slot that is overwritten at the end might as well not have been set. */
  lemma {:induction false} Overridden(before: seq<Slot>, slot: Slot, after: seq<Slot>, v: Json)
    requires forall i | 0 <= i < |after| :: after[i].key != slot.key
    ensures Build(before + [slot] + after)[slot.key := v] == Build(before + after)[slot.key := v]
    decreases |after|
  {
    if after == [] {
      assert before + [slot] + after == before + [slot] && before + after == before;
      Appended(before, slot);
    } else {
      var n := |after| - 1;
      assert after[..n] + [after[n]] == after;
      assert before + [slot] + after == (before + [slot] + after[..n]) + [after[n]];
      assert before + after == (before + after[..n]) + [after[n]];
      Appended(before + [slot] + after[..n], after[n]);
      Appended(before + after[..n], after[n]);
      Overridden(before, slot, after[..n], v);
      var o1, o2 := Build(before + [slot] + after[..n]), Build(before + after[..n]);
      assert Set(o1, after[n])[slot.key := v] == Set(o1[slot.key := v], after[n]);
      assert Set(o2, after[n])[slot.key := v] == Set(o2[slot.key := v], after[n]);
    }
  }

  function When(present: bool, value: Json): Option<Json> {
    if present then Some(value) else None
  }

  function TextSlot(key: string, s: string): Slot {
    Slot(key, When(s != "", Str(s)))
  }

  function CountSlot(key: string, n: nat): Slot {
    Slot(key, When(n > 0, Num(n)))
  }

  function FlagSlot(key: string, b: bool): Slot {
    Slot(key, When(b, Bool(true)))
  }

  function ListSlot(key: string, items: seq<Json>): Slot {
    Slot(key, When(items != [], Arr(items)))
  }

  function ObjectSlot(key: string, fields: Object): Slot {
    Slot(key, When(fields != map[], Obj(fields)))
  }

  function Listed<T>(f: T -> Json, xs: seq<T>): seq<Json> {
    seq(|xs|, i requires 0 <= i < |xs| => f(xs[i]))
  }

  /* ----- writing a form ----- */

  function FirmwareJson(f: FirmwareForm): Json {
    match f
    case Efi(secureBoot) => Obj(map["bootloader" := Obj(map["efi" := Obj(map["secureBoot" := Bool(secureBoot)])])])
    case Bios => Obj(map["bootloader" := Obj(map["bios" := Obj(map[])])])
  }

  function CpuSlots(c: CpuForm): seq<Slot> {
    [CountSlot("cores", c.cores), CountSlot("sockets", c.sockets), CountSlot("threads", c.threads),
     TextSlot("model", c.model), FlagSlot("dedicatedCpuPlacement", c.dedicated)]
  }

  function MachineValue(h: HardwareForm): Option<Json> {
    When(h.machine != "", Obj(map["type" := Str(h.machine)]))
  }

  function FirmwareValue(h: HardwareForm): Option<Json> {
    if h.firmware.Some? then Some(FirmwareJson(h.firmware.value)) else None
  }

  /** System management mode is on exactly for EFI secure boot. */
  function FeaturesValue(h: HardwareForm): Option<Json> {
    When(h.firmware == Some(Efi(true)), Obj(map["smm" := Obj(map["enabled" := Bool(true)])]))
  }

  function CpuValue(h: HardwareForm): Option<Json> {
    if h.cpu.Some? then Some(Obj(Build(CpuSlots(h.cpu.value)))) else None
  }

  function ResourcesValue(h: HardwareForm): Option<Json> {
    When(h.memory != "", Obj(map["requests" := Obj(map["memory" := Str(h.memory)])]))
  }

  function DomainSlots(machine: Option<Json>, firmware: Option<Json>, features: Option<Json>, cpu: Option<Json>,
                       resources: Option<Json>, devices: Option<Json>): seq<Slot> {
    [Slot("machine", machine), Slot("firmware", firmware), Slot("features", features), Slot("cpu", cpu),
     Slot("resources", resources), Slot("devices", devices)]
  }

  function InputJson(i: Input): Json {
    Obj(Set(map["type" := Str(i.kind)], TextSlot("bus", i.bus)))
  }

  function WatchdogJson(w: Watchdog): Json {
    Obj(Set(map["name" := Str("watchdog"), "model" := Str(w.model)], TextSlot("action", w.action)))
  }

  function HostDeviceJson(h: HostDevice): Json {
    Obj(Set(map["deviceName" := Str(h.deviceName)], TextSlot("name", h.name)))
  }

  function GpuJson(g: Gpu): Json {
    Obj(Set(Set(map[], TextSlot("resourceName", g.resourceName)), TextSlot("deviceName", g.deviceName)))
  }

  function WatchdogValue(w: Option<Watchdog>): Option<Json> {
    if w.Some? then Some(WatchdogJson(w.value)) else None
  }

  function SwitchSlots(podInterface: bool, graphicsDevice: bool, serialConsole: bool, rng: bool): seq<Slot> {
    [FlagSlot("autoattachPodInterface", podInterface), FlagSlot("autoattachGraphicsDevice", graphicsDevice),
     FlagSlot("autoattachSerialConsole", serialConsole), Slot("rng", When(rng, Obj(map[])))]
  }

  function DeclaredSlots(podInterface: bool, graphicsDevice: bool, serialConsole: bool, rng: bool, inputs: seq<Json>,
                         watchdog: Option<Json>, hostDevices: seq<Json>, gpus: seq<Json>): seq<Slot> {
    SwitchSlots(podInterface, graphicsDevice, serialConsole, rng) +
    [ListSlot("inputs", inputs), Slot("watchdog", watchdog), ListSlot("hostDevices", hostDevices),
     ListSlot("gpus", gpus)]
  }

  function AddedSlots(disks: seq<Json>, interfaces: seq<Json>): seq<Slot> {
    [ListSlot("disks", disks), ListSlot("interfaces", interfaces)]
  }

  const BOOT_DISK: Json := Obj(map["name" := Str("boot"), "disk" := Obj(map["bus" := Str("virtio")])])

  function InterfaceJson(iface: InterfaceForm, model: string): Json {
    var entry := map["name" := Str("default"), "model" := Str(model)];
    match iface
    case Bridge => Obj(entry["bridge" := Obj(map[])])
    case Masquerade => Obj(entry["masquerade" := Obj(map[])])
    case Pod => Obj(entry)
  }

  /** The declared devices, the boot disk after the declared disks, and the one interface. */
  function DevicesObject(g: GuestForm): Object {
    var d := g.devices;
    Build(DeclaredSlots(d.podInterface, d.graphicsDevice, d.serialConsole, d.rng, Listed(InputJson, d.inputs),
                        WatchdogValue(d.watchdog), Listed(HostDeviceJson, d.hostDevices), Listed(GpuJson, d.gpus))
          + AddedSlots(d.disks + [BOOT_DISK], [InterfaceJson(g.iface, g.model)]))
  }

  function DomainObject(g: GuestForm): Object {
    var h := g.hardware;
    Build(DomainSlots(MachineValue(h), FirmwareValue(h), FeaturesValue(h), CpuValue(h), ResourcesValue(h),
                      Some(Obj(DevicesObject(g)))))
  }

  function ContainerDiskSlots(b: BootForm): seq<Slot>
    requires b.ContainerDisk?
  {
    [Slot("image", Some(Str(b.image))), TextSlot("imagePullPolicy", b.pullPolicy),
     TextSlot("imagePullSecret", b.pullSecret), TextSlot("path", b.path)]
  }

  function BootVolumes(b: BootForm): seq<Json> {
    match b
    case NoBoot => []
    case ContainerDisk(_, _, _, _) =>
      [Obj(map["name" := Str("boot"), "containerDisk" := Obj(Build(ContainerDiskSlots(b)))])]
    case DataVolume(_) => [Obj(map["name" := Str("boot"), "dataVolume" := Obj(map["name" := Str("boot")])])]
    case Claim(name) => [Obj(map["name" := Str("boot"), "persistentVolumeClaim" := Obj(map["claimName" := Str(name)])])]
  }

  function CloudSlots(c: CloudFiles): seq<Slot> {
    [TextSlot("userData", c.userData), Slot("metaData", Some(Str(c.metaData))), TextSlot("networkData", c.networkData)]
  }

  function CloudVolume(c: CloudFiles): Json {
    Obj(map["name" := Str("cloudinitdisk"), "cloudInitNoCloud" := Obj(Build(CloudSlots(c)))])
  }

  function Volumes(g: GuestForm): seq<Json> {
    BootVolumes(g.boot) + if g.cloud.Some? then [CloudVolume(g.cloud.value)] else []
  }

  const POD_NETWORK: Json := Obj(map["name" := Str("default"), "pod" := Obj(map[])])

  function MigrationSlots(m: Migration): seq<Slot> {
    [FlagSlot("allowAutoConverge", m.autoConverge), FlagSlot("allowPostCopy", m.postCopy),
     TextSlot("bandwidthPerMigration", m.bandwidth)]
  }

  function StringMap(m: map<string, string>): Object {
    map k | k in m :: Str(m[k])
  }

  function MatcherSlots(instancetype: string, preference: string): seq<Slot> {
    [Slot("kind", When(instancetype != "", Str("VirtualMachineInstancetype"))), TextSlot("name", instancetype),
     Slot("preference", When(preference != "",
                             Obj(map["kind" := Str("VirtualMachinePreference"), "name" := Str(preference)])))]
  }

  function GuestSlots(domain: Object, volumes: seq<Json>, migration: Object, selector: Object, affinity: Object,
                      matchers: Object): seq<Slot> {
    [Slot("domain", Some(Obj(domain))), ListSlot("volumes", volumes), ListSlot("networks", [POD_NETWORK]),
     ObjectSlot("migration", migration), ObjectSlot("nodeSelector", selector), ObjectSlot("affinity", affinity),
     ObjectSlot("instancetype", matchers)]
  }

  function GuestObject(g: GuestForm): Object {
    Build(GuestSlots(DomainObject(g), Volumes(g), Build(MigrationSlots(g.migration)), StringMap(g.nodeSelector),
                     g.affinity,
                     Build(MatcherSlots(g.instancetype, g.preference))))
  }

  function StorageSlots(t: TemplateForm): seq<Slot> {
    [Slot("resources", When(t.size != "", Obj(map["requests" := Obj(map["storage" := Str(t.size)])]))),
     TextSlot("storageClassName", t.storageClass), TextSlot("contentType", t.contentType)]
  }

  /** The spec of a DataVolume, in a template and standalone. */
  function TemplateSlots(t: TemplateForm): seq<Slot> {
    [Slot("source", t.source), ObjectSlot("storage", Build(StorageSlots(t)))]
  }

  function Templates(b: BootForm): seq<Json> {
    if b.DataVolume? then
      [Obj(map["metadata" := Obj(map["name" := Str("boot")]), "spec" := Obj(Build(TemplateSlots(b.template)))])]
    else []
  }

  function PodTemplate(name: string, guest: Object): Json {
    Obj(map["metadata" := Obj(map["labels" := Obj(map["kubevirt.io/domain" := Str(name)])]), "spec" := Obj(guest)])
  }

  function SpecSlots(template: Json, runStrategy: string, evictionStrategy: string, gracePeriod: nat,
                     templates: seq<Json>)
    : seq<Slot>
  {
    [Slot("template", Some(template)), Slot("runStrategy", Some(Str(runStrategy))),
     TextSlot("evictionStrategy", evictionStrategy), CountSlot("terminationGracePeriodSeconds", gracePeriod),
     ListSlot("dataVolumeTemplates", templates)]
  }

  function SpecObject(v: VmForm): Object {
    Build(SpecSlots(PodTemplate(v.name, GuestObject(v.guest)), v.runStrategy, v.evictionStrategy, v.gracePeriod,
                    Templates(v.guest.boot)))
  }

  function Manifest(name: string, namespace: string, spec: Object): Object {
    map["apiVersion" := Str("kubevirt.io/v1"),
        "kind" := Str("VirtualMachine"),
        "metadata" := Obj(map["name" := Str(name), "namespace" := Str(namespace)]),
        "spec" := Obj(spec)]
  }

  function Encode(v: VmForm): Object {
    Manifest(v.name, v.namespace, SpecObject(v))
  }

  /* ----- reading a CR ----- */

  function Get(o: Object, key: string): Option<Json> {
    Field(Some(Obj(o)), key)
  }

  function Sub(o: Object, key: string): Object {
    Members(Get(o, key))
  }

  function Text(o: Object, key: string): string {
    match Get(o, key)
    case Some(Str(s)) => s
    case _ => ""
  }

  function Number(o: Object, key: string): nat {
    match Get(o, key)
    case Some(Num(n)) => Count(n)
    case _ => 0
  }

  function Items(o: Object, key: string): seq<Json> {
    match Get(o, key)
    case Some(Arr(items)) => items
    case _ => []
  }

  function ReadAll<T>(g: Object -> T, items: seq<Json>): seq<T> {
    seq(|items|, i requires 0 <= i < |items| => g(Members(Some(items[i]))))
  }

  function ReadFirmware(o: Object): FirmwareForm {
    var bootloader := Sub(o, "bootloader");
    if "efi" in bootloader then Efi(Get(Sub(bootloader, "efi"), "secureBoot") == Some(Bool(true))) else Bios
  }

  function ReadCpu(o: Object): CpuForm {
    CpuForm(Number(o, "cores"), Number(o, "sockets"), Number(o, "threads"), Text(o, "model"),
            Get(o, "dedicatedCpuPlacement").Some?)
  }

  function ReadHardware(o: Object): HardwareForm {
    HardwareForm(Text(Sub(o, "machine"), "type"),
                 if Get(o, "firmware").Some? then Some(ReadFirmware(Sub(o, "firmware"))) else None,
                 if Get(o, "cpu").Some? then Some(ReadCpu(Sub(o, "cpu"))) else None,
                 Text(Sub(Sub(o, "resources"), "requests"), "memory"))
  }

  function ReadInput(o: Object): Input {
    Input(Text(o, "type"), Text(o, "bus"))
  }

  function ReadWatchdog(o: Object): Watchdog {
    Watchdog(Text(o, "model"), Text(o, "action"))
  }

  function ReadHostDevice(o: Object): HostDevice {
    HostDevice(Text(o, "deviceName"), Text(o, "name"))
  }

  function ReadGpu(o: Object): Gpu {
    Gpu(Text(o, "resourceName"), Text(o, "deviceName"))
  }

  function DropLast(items: seq<Json>): seq<Json> {
    if items == [] then [] else items[..|items| - 1]
  }

  function ReadDevices(o: Object): DeviceForm {
    DeviceForm(Get(o, "autoattachPodInterface").Some?, Get(o, "autoattachGraphicsDevice").Some?,
               Get(o, "autoattachSerialConsole").Some?, Get(o, "rng").Some?,
               ReadAll(ReadInput, Items(o, "inputs")),
               if Get(o, "watchdog").Some? then Some(ReadWatchdog(Sub(o, "watchdog"))) else None,
               DropLast(Items(o, "disks")),
               ReadAll(ReadHostDevice, Items(o, "hostDevices")),
               ReadAll(ReadGpu, Items(o, "gpus")))
  }

  function FirstOf(items: seq<Json>): Object {
    if items == [] then map[] else Members(Some(items[0]))
  }

  function ReadInterface(o: Object): InterfaceForm {
    if "bridge" in o then Bridge else if "masquerade" in o then Masquerade else Pod
  }

  function ReadTemplate(spec: Object): TemplateForm {
    var storage := Sub(spec, "storage");
    TemplateForm(Get(spec, "source"), Text(Sub(Sub(storage, "resources"), "requests"), "storage"),
                 Text(storage, "storageClassName"), Text(storage, "contentType"))
  }

  function ReadBoot(volume: Object, templates: seq<Json>): BootForm {
    if "containerDisk" in volume then
      var disk := Sub(volume, "containerDisk");
      ContainerDisk(Text(disk, "image"), Text(disk, "imagePullPolicy"), Text(disk, "imagePullSecret"),
                    Text(disk, "path"))
    else if "dataVolume" in volume then DataVolume(ReadTemplate(Sub(FirstOf(templates), "spec")))
    else if "persistentVolumeClaim" in volume then Claim(Text(Sub(volume, "persistentVolumeClaim"), "claimName"))
    else NoBoot
  }

  function ReadCloud(volume: Object): Option<CloudFiles> {
    if "cloudInitNoCloud" !in volume then None
    else
      var files := Sub(volume, "cloudInitNoCloud");
      Some(CloudFiles(Text(files, "userData"), Text(files, "metaData"), Text(files, "networkData")))
  }

  function LastOf(items: seq<Json>): Object {
    if items == [] then map[] else Members(Some(items[|items| - 1]))
  }

  function ReadMigration(o: Object): Migration {
    Migration(Get(o, "allowAutoConverge").Some?, Get(o, "allowPostCopy").Some?, Text(o, "bandwidthPerMigration"))
  }

  function ReadStringMap(o: Object): map<string, string> {
    map k | k in o :: Text(o, k)
  }

  function ReadGuest(o: Object, templates: seq<Json>): GuestForm {
    var domain := Sub(o, "domain");
    var devices := Sub(domain, "devices");
    var iface := FirstOf(Items(devices, "interfaces"));
    var matchers := Sub(o, "instancetype");
    GuestForm(ReadHardware(domain), ReadDevices(devices), ReadInterface(iface), Text(iface, "model"),
              ReadBoot(FirstOf(Items(o, "volumes")), templates), ReadCloud(LastOf(Items(o, "volumes"))),
              ReadMigration(Sub(o, "migration")), ReadStringMap(Sub(o, "nodeSelector")), Sub(o, "affinity"),
              Text(matchers, "name"), Text(Sub(matchers, "preference"), "name"))
  }

  function Decode(vm: Object): VmForm {
    var metadata, spec := Sub(vm, "metadata"), Sub(vm, "spec");
    VmForm(Text(metadata, "name"), Text(metadata, "namespace"), Text(spec, "runStrategy"),
           Text(spec, "evictionStrategy"),
           Number(spec, "terminationGracePeriodSeconds"),
           ReadGuest(Sub(Sub(spec, "template"), "spec"), Items(spec, "dataVolumeTemplates")))
  }

  /* ----- Decode undoes Encode ----- */

  lemma ReadsList<T>(f: T -> Json, g: Object -> T, xs: seq<T>)
    requires forall x :: g(Members(Some(f(x)))) == x
    ensures ReadAll(g, Listed(f, xs)) == xs
  {
  }

  lemma ReadsInputs(xs: seq<Input>)
    ensures ReadAll(ReadInput, Listed(InputJson, xs)) == xs
  {
    ReadsList(InputJson, ReadInput, xs);
  }

  lemma ReadsHostDevices(xs: seq<HostDevice>)
    ensures ReadAll(ReadHostDevice, Listed(HostDeviceJson, xs)) == xs
  {
    ReadsList(HostDeviceJson, ReadHostDevice, xs);
  }

  lemma ReadsGpus(xs: seq<Gpu>)
    ensures ReadAll(ReadGpu, Listed(GpuJson, xs)) == xs
  {
    ReadsList(GpuJson, ReadGpu, xs);
  }

  lemma ReadsFirmware(f: FirmwareForm)
    ensures ReadFirmware(Members(Some(FirmwareJson(f)))) == f
  {
  }

  lemma ReadsCpu(c: CpuForm)
    ensures ReadCpu(Build(CpuSlots(c))) == c
  {
    var slots := CpuSlots(c);
    Reads(slots, 0); Reads(slots, 1); Reads(slots, 2); Reads(slots, 3); Reads(slots, 4);
  }

  /** Reading the domain through abstract field values, so that nothing below them matters. */
  lemma DomainIsRead(machine: Option<Json>, firmware: Option<Json>, features: Option<Json>, cpu: Option<Json>,
                     resources: Option<Json>, devices: Option<Json>)
    ensures var o := Build(DomainSlots(machine, firmware, features, cpu, resources, devices));
            && Get(o, "machine") == machine && Get(o, "firmware") == firmware && Get(o, "features") == features
            && Get(o, "cpu") == cpu && Get(o, "resources") == resources && Get(o, "devices") == devices
  {
    var slots := DomainSlots(machine, firmware, features, cpu, resources, devices);
    Reads(slots, 0); Reads(slots, 1); Reads(slots, 2); Reads(slots, 3); Reads(slots, 4); Reads(slots, 5);
  }

  lemma ReadsHardware(h: HardwareForm, o: Object)
    requires Get(o, "machine") == MachineValue(h) && Get(o, "firmware") == FirmwareValue(h)
    requires Get(o, "cpu") == CpuValue(h) && Get(o, "resources") == ResourcesValue(h)
    ensures ReadHardware(o) == h
  {
    if h.firmware.Some? { ReadsFirmware(h.firmware.value); }
    if h.cpu.Some? { ReadsCpu(h.cpu.value); }
  }

  lemma DeclaredAreDistinct(podInterface: bool, graphicsDevice: bool, serialConsole: bool, rng: bool, inputs: seq<Json>,
                            watchdog: Option<Json>, hostDevices: seq<Json>, gpus: seq<Json>, disks: seq<Json>,
                            interfaces: seq<Json>)
    ensures Distinct(DeclaredSlots(podInterface, graphicsDevice, serialConsole, rng, inputs, watchdog, hostDevices,
                                   gpus)
                     + AddedSlots(disks, interfaces))
  {
  }

  lemma DevicesAreRead(podInterface: bool, graphicsDevice: bool, serialConsole: bool, rng: bool, inputs: seq<Json>,
                       watchdog: Option<Json>, hostDevices: seq<Json>, gpus: seq<Json>, disks: seq<Json>,
                       interfaces: seq<Json>)
    ensures var o := Build(DeclaredSlots(podInterface, graphicsDevice, serialConsole, rng, inputs, watchdog,
                                         hostDevices, gpus)
                           + AddedSlots(disks, interfaces));
            && Get(o, "autoattachPodInterface").Some? == podInterface
            && Get(o, "autoattachGraphicsDevice").Some? == graphicsDevice
            && Get(o, "autoattachSerialConsole").Some? == serialConsole && Get(o, "rng").Some? == rng
            && Items(o, "inputs") == inputs && Get(o, "watchdog") == watchdog
            && Items(o, "hostDevices") == hostDevices && Items(o, "gpus") == gpus
            && Items(o, "disks") == disks && Items(o, "interfaces") == interfaces
  {
    var slots := DeclaredSlots(podInterface, graphicsDevice, serialConsole, rng, inputs, watchdog, hostDevices, gpus)
                 + AddedSlots(disks, interfaces);
    DeclaredAreDistinct(podInterface, graphicsDevice, serialConsole, rng, inputs, watchdog, hostDevices, gpus, disks,
                        interfaces);
    Reads(slots, 0); Reads(slots, 1); Reads(slots, 2); Reads(slots, 3); Reads(slots, 4);
    Reads(slots, 5); Reads(slots, 6); Reads(slots, 7); Reads(slots, 8); Reads(slots, 9);
  }

  lemma ComposesDevices(o: Object, d: DeviceForm)
    requires Get(o, "autoattachPodInterface").Some? == d.podInterface
    requires Get(o, "autoattachGraphicsDevice").Some? == d.graphicsDevice
    requires Get(o, "autoattachSerialConsole").Some? == d.serialConsole && Get(o, "rng").Some? == d.rng
    requires Items(o, "inputs") == Listed(InputJson, d.inputs) && Get(o, "watchdog") == WatchdogValue(d.watchdog)
    requires Items(o, "hostDevices") == Listed(HostDeviceJson, d.hostDevices)
             && Items(o, "gpus") == Listed(GpuJson, d.gpus)
    requires Items(o, "disks") == d.disks + [BOOT_DISK]
    ensures ReadDevices(o) == d
  {
    ReadsInputs(d.inputs);
    ReadsHostDevices(d.hostDevices);
    ReadsGpus(d.gpus);
    assert DropLast(d.disks + [BOOT_DISK]) == d.disks;
  }

  lemma ReadsDevices(g: GuestForm)
    ensures ReadDevices(DevicesObject(g)) == g.devices
    ensures Items(DevicesObject(g), "interfaces") == [InterfaceJson(g.iface, g.model)]
  {
    var d := g.devices;
    DevicesAreRead(d.podInterface, d.graphicsDevice, d.serialConsole, d.rng, Listed(InputJson, d.inputs),
                   WatchdogValue(d.watchdog),
                   Listed(HostDeviceJson, d.hostDevices), Listed(GpuJson, d.gpus), d.disks + [BOOT_DISK],
                   [InterfaceJson(g.iface, g.model)]);
    ComposesDevices(DevicesObject(g), d);
  }

  lemma ReadsInterface(iface: InterfaceForm, model: string)
    ensures var entry := FirstOf([InterfaceJson(iface, model)]);
            ReadInterface(entry) == iface && Text(entry, "model") == model
  {
  }

  lemma ReadsTemplate(t: TemplateForm)
    ensures ReadTemplate(Build(TemplateSlots(t))) == t
  {
    Reads(TemplateSlots(t), 0); Reads(TemplateSlots(t), 1);
    Reads(StorageSlots(t), 0); Reads(StorageSlots(t), 1); Reads(StorageSlots(t), 2);
  }

  lemma ReadsContainerDisk(b: BootForm)
    requires b.ContainerDisk?
    ensures var disk := Build(ContainerDiskSlots(b));
            ContainerDisk(Text(disk, "image"), Text(disk, "imagePullPolicy"), Text(disk, "imagePullSecret"),
                          Text(disk, "path")) == b
  {
    var slots := ContainerDiskSlots(b);
    Reads(slots, 0); Reads(slots, 1); Reads(slots, 2); Reads(slots, 3);
  }

  lemma ReadsBoot(b: BootForm)
    requires !b.NoBoot?
    ensures ReadBoot(Members(Some(BootVolumes(b)[0])), Templates(b)) == b
  {
    match b {
      case DataVolume(t) => ReadsTemplate(t);
      case ContainerDisk(_, _, _, _) => ReadsContainerDisk(b);
      case _ =>
    }
  }

  lemma ReadsCloud(c: CloudFiles)
    ensures ReadCloud(Members(Some(CloudVolume(c)))) == Some(c)
  {
    var slots := CloudSlots(c);
    Reads(slots, 0); Reads(slots, 1); Reads(slots, 2);
  }

  /** The two volumes are told apart by their kinds. */
  lemma ReadsVolumes(g: GuestForm)
    ensures ReadBoot(FirstOf(Volumes(g)), Templates(g.boot)) == g.boot
    ensures ReadCloud(LastOf(Volumes(g))) == g.cloud
  {
    ReadsFirstVolume(g);
    ReadsLastVolume(g);
  }

  lemma ReadsFirstVolume(g: GuestForm)
    ensures ReadBoot(FirstOf(Volumes(g)), Templates(g.boot)) == g.boot
  {
    if !g.boot.NoBoot? {
      assert Volumes(g)[0] == BootVolumes(g.boot)[0];
      ReadsBoot(g.boot);
    }
  }

  lemma ReadsLastVolume(g: GuestForm)
    ensures ReadCloud(LastOf(Volumes(g))) == g.cloud
  {
    if g.cloud.Some? {
      assert LastOf(Volumes(g)) == Members(Some(CloudVolume(g.cloud.value)));
      ReadsCloud(g.cloud.value);
    }
  }

  lemma ReadsMigration(m: Migration)
    ensures ReadMigration(Build(MigrationSlots(m))) == m
  {
    var slots := MigrationSlots(m);
    Reads(slots, 0); Reads(slots, 1); Reads(slots, 2);
  }

  lemma ReadsStringMap(m: map<string, string>)
    ensures ReadStringMap(StringMap(m)) == m
  {
  }

  lemma ReadsMatchers(instancetype: string, preference: string)
    ensures var o := Build(MatcherSlots(instancetype, preference));
            Text(o, "name") == instancetype && Text(Sub(o, "preference"), "name") == preference
  {
    var slots := MatcherSlots(instancetype, preference);
    Reads(slots, 1); Reads(slots, 2);
  }

  lemma GuestIsRead(domain: Object, volumes: seq<Json>, migration: Object, selector: Object, affinity: Object,
                    matchers: Object)
    ensures var o := Build(GuestSlots(domain, volumes, migration, selector, affinity, matchers));
            && Sub(o, "domain") == domain && Items(o, "volumes") == volumes && Items(o, "networks") == [POD_NETWORK]
            && Sub(o, "migration") == migration && Sub(o, "nodeSelector") == selector
            && Sub(o, "affinity") == affinity && Sub(o, "instancetype") == matchers
  {
    var slots := GuestSlots(domain, volumes, migration, selector, affinity, matchers);
    Reads(slots, 0); Reads(slots, 1); Reads(slots, 2); Reads(slots, 3); Reads(slots, 4); Reads(slots, 5);
    Reads(slots, 6);
  }

  lemma ReadsGuest(g: GuestForm)
    ensures ReadGuest(GuestObject(g), Templates(g.boot)) == g
  {
    GuestIsRead(DomainObject(g), Volumes(g), Build(MigrationSlots(g.migration)), StringMap(g.nodeSelector), g.affinity,
                Build(MatcherSlots(g.instancetype, g.preference)));
    ReadsDomain(g);
    ReadsDevices(g);
    ReadsInterface(g.iface, g.model);
    ReadsVolumes(g);
    ReadsMigration(g.migration);
    ReadsStringMap(g.nodeSelector);
    ReadsMatchers(g.instancetype, g.preference);
    ComposesGuest(GuestObject(g), Templates(g.boot), g);
  }

  lemma ReadsDomain(g: GuestForm)
    ensures ReadHardware(DomainObject(g)) == g.hardware
    ensures Sub(DomainObject(g), "devices") == DevicesObject(g)
  {
    var h := g.hardware;
    DomainIsRead(MachineValue(h), FirmwareValue(h), FeaturesValue(h), CpuValue(h), ResourcesValue(h),
                 Some(Obj(DevicesObject(g))));
    ReadsHardware(h, DomainObject(g));
  }

  lemma ComposesGuest(o: Object, templates: seq<Json>, g: GuestForm)
    requires ReadHardware(Sub(o, "domain")) == g.hardware && ReadDevices(Sub(Sub(o, "domain"), "devices")) == g.devices
    requires var entry := FirstOf(Items(Sub(Sub(o, "domain"), "devices"), "interfaces"));
             ReadInterface(entry) == g.iface && Text(entry, "model") == g.model
    requires ReadBoot(FirstOf(Items(o, "volumes")), templates) == g.boot
             && ReadCloud(LastOf(Items(o, "volumes"))) == g.cloud
    requires ReadMigration(Sub(o, "migration")) == g.migration
             && ReadStringMap(Sub(o, "nodeSelector")) == g.nodeSelector
    requires Sub(o, "affinity") == g.affinity && Text(Sub(o, "instancetype"), "name") == g.instancetype
    requires Text(Sub(Sub(o, "instancetype"), "preference"), "name") == g.preference
    ensures ReadGuest(o, templates) == g
  {
  }

  lemma SpecIsRead(template: Json, runStrategy: string, evictionStrategy: string, gracePeriod: nat,
                   templates: seq<Json>)
    ensures var o := Build(SpecSlots(template, runStrategy, evictionStrategy, gracePeriod, templates));
            && Get(o, "template") == Some(template) && Text(o, "runStrategy") == runStrategy
            && Text(o, "evictionStrategy") == evictionStrategy
            && Number(o, "terminationGracePeriodSeconds") == gracePeriod && Items(o, "dataVolumeTemplates") == templates
  {
    var slots := SpecSlots(template, runStrategy, evictionStrategy, gracePeriod, templates);
    Reads(slots, 0); Reads(slots, 1); Reads(slots, 2); Reads(slots, 3); Reads(slots, 4);
  }

  lemma ManifestIsRead(name: string, namespace: string, spec: Object)
    ensures var vm := Manifest(name, namespace, spec);
            Text(Sub(vm, "metadata"), "name") == name && Text(Sub(vm, "metadata"), "namespace") == namespace
                && Sub(vm, "spec") == spec
  {
  }

  lemma TemplateIsRead(name: string, guest: Object, spec: Object)
    requires Get(spec, "template") == Some(PodTemplate(name, guest))
    ensures Sub(Sub(spec, "template"), "spec") == guest
  {
  }

  /** Every form is read back from its CR. */
  lemma DecodeUndoesEncode(v: VmForm)
    ensures Decode(Encode(v)) == v
  {
    var guest, templates := GuestObject(v.guest), Templates(v.guest.boot);
    SpecIsRead(PodTemplate(v.name, guest), v.runStrategy, v.evictionStrategy, v.gracePeriod, templates);
    ManifestIsRead(v.name, v.namespace, SpecObject(v));
    TemplateIsRead(v.name, guest, SpecObject(v));
    ReadsGuest(v.guest);
  }

  lemma DecodesTo(v: VmForm, cr: Object)
    requires cr == Encode(v)
    ensures Decode(cr) == v
  {
    DecodeUndoesEncode(v);
  }

  /** Two forms have the same CR only when they are the same form. */
  lemma EncodeIsInjective(v: VmForm, w: VmForm)
    ensures Encode(v) == Encode(w) <==> v == w
  {
    var cr := Encode(v);
    DecodesTo(v, cr);
    if Encode(w) == cr {
      DecodesTo(w, cr);
    }
  }
}
