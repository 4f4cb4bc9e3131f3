/**
 The rendered CR field by field: at each path, the value and the authored field it comes from. Stated
 without the normal form, so that what is folded into it is said here in full.
 */
module RenderedFields {
  import opened Entity
  import opened Gpus
  import opened JsonValues
  import opened NormalForm
  import opened Render
  import opened Wrappers

  /** The CR of an entity. */
  function CrFor(kv: KubeVirt, opts: RenderOptions, files: CloudFiles): Object {
    Encode(Normalize(kv, opts, files))
  }

  function TextOrNone(s: string): Option<Json> {
    if s == "" then None else Some(Str(s))
  }

  function TrueOrNone(b: bool): Option<Json> {
    if b then Some(Bool(true)) else None
  }

  function PositiveOrNone(n: int): Option<Json> {
    if n > 0 then Some(Num(n)) else None
  }

  /** The elements of the list at a path; none when there is no list. */
  function ItemsAt(o: Object, path: seq<string>): seq<Json> {
    match At(o, path)
    case Some(Arr(items)) => items
    case _ => []
  }

  function Of(item: Json, key: string): Option<Json> {
    Field(Some(item), key)
  }

  /* ----- walking paths ----- */

  lemma Here(o: Object, key: string)
    ensures At(o, [key]) == Get(o, key)
  {
    assert [key][0] == key && [key][1..] == [];
    assert At(o, [key]) == Lookup(Field(Some(Obj(o)), key), []);
  }

  lemma Down(o: Object, key: string, rest: seq<string>)
    requires rest != []
    ensures At(o, [key] + rest) == At(Sub(o, key), rest)
  {
    var path := [key] + rest;
    assert path[0] == key && path[1..] == rest;
    assert At(o, path) == Lookup(Get(o, key), rest);
    assert Lookup(Get(o, key), rest) == Lookup(Field(Get(o, key), rest[0]), rest[1..]);
    assert Field(Get(o, key), rest[0]) == Field(Some(Obj(Sub(o, key))), rest[0]);
  }

  lemma InSpec(cr: Object, key: string)
    ensures At(cr, ["spec", key]) == Get(Sub(cr, "spec"), key)
  {
    Down(cr, "spec", [key]);
    Here(Sub(cr, "spec"), key);
    assert ["spec"] + [key] == ["spec", key];
  }

  lemma InGuestAt(cr: Object, rest: seq<string>)
    requires rest != []
    ensures At(cr, ["spec", "template", "spec"] + rest) == At(GuestIn(cr), rest)
  {
    var spec := Sub(cr, "spec");
    Down(cr, "spec", ["template", "spec"] + rest);
    Down(spec, "template", ["spec"] + rest);
    Down(Sub(spec, "template"), "spec", rest);
    assert ["spec"] + (["template", "spec"] + rest) == ["spec", "template", "spec"] + rest;
    assert ["template"] + (["spec"] + rest) == ["template", "spec"] + rest;
  }

  lemma InGuest(cr: Object, a: string)
    ensures At(cr, ["spec", "template", "spec", a]) == Get(GuestIn(cr), a)
  {
    InGuestAt(cr, [a]);
    Here(GuestIn(cr), a);
    assert ["spec", "template", "spec"] + [a] == ["spec", "template", "spec", a];
  }

  lemma InGuest2(cr: Object, a: string, b: string)
    ensures At(cr, ["spec", "template", "spec", a, b]) == Get(Sub(GuestIn(cr), a), b)
  {
    InGuestAt(cr, [a, b]);
    Down(GuestIn(cr), a, [b]);
    Here(Sub(GuestIn(cr), a), b);
    assert ["spec", "template", "spec"] + [a, b] == ["spec", "template", "spec", a, b] && [a] + [b] == [a, b];
  }

  lemma InGuest3(cr: Object, a: string, b: string, c: string)
    ensures At(cr, ["spec", "template", "spec", a, b, c]) == Get(Sub(Sub(GuestIn(cr), a), b), c)
  {
    InGuestAt(cr, [a, b, c]);
    Down(GuestIn(cr), a, [b, c]);
    Down(Sub(GuestIn(cr), a), b, [c]);
    Here(Sub(Sub(GuestIn(cr), a), b), c);
    assert ["spec", "template", "spec"] + [a, b, c] == ["spec", "template", "spec", a, b, c];
    assert [a] + [b, c] == [a, b, c] && [b] + [c] == [b, c];
  }

  lemma InGuest4(cr: Object, a: string, b: string, c: string, d: string)
    ensures At(cr, ["spec", "template", "spec", a, b, c, d]) == Get(Sub(Sub(Sub(GuestIn(cr), a), b), c), d)
  {
    InGuestAt(cr, [a, b, c, d]);
    Down(GuestIn(cr), a, [b, c, d]);
    Down(Sub(GuestIn(cr), a), b, [c, d]);
    Down(Sub(Sub(GuestIn(cr), a), b), c, [d]);
    Here(Sub(Sub(Sub(GuestIn(cr), a), b), c), d);
    assert ["spec", "template", "spec"] + [a, b, c, d] == ["spec", "template", "spec", a, b, c, d];
    assert [a] + [b, c, d] == [a, b, c, d] && [b] + [c, d] == [b, c, d] && [c] + [d] == [c, d];
  }

  lemma InGuest5(cr: Object, a: string, b: string, c: string, d: string, e: string)
    ensures At(cr, ["spec", "template", "spec", a, b, c, d, e]) == Get(Sub(Sub(Sub(Sub(GuestIn(cr), a), b), c), d), e)
  {
    InGuestAt(cr, [a, b, c, d, e]);
    Down(GuestIn(cr), a, [b, c, d, e]);
    Down(Sub(GuestIn(cr), a), b, [c, d, e]);
    Down(Sub(Sub(GuestIn(cr), a), b), c, [d, e]);
    Down(Sub(Sub(Sub(GuestIn(cr), a), b), c), d, [e]);
    Here(Sub(Sub(Sub(Sub(GuestIn(cr), a), b), c), d), e);
    assert ["spec", "template", "spec"] + [a, b, c, d, e] == ["spec", "template", "spec", a, b, c, d, e];
    assert [a] + [b, c, d, e] == [a, b, c, d, e] && [b] + [c, d, e] == [b, c, d, e];
    assert [c] + [d, e] == [c, d, e] && [d] + [e] == [d, e];
  }

  /* ----- the hardware ----- */

  lemma HardwareIs(kv: KubeVirt, opts: RenderOptions, files: CloudFiles)
    ensures var domain, h := Sub(GuestIn(CrFor(kv, opts, files)), "domain"), HardwareOf(kv);
            && Get(domain, "machine") == MachineValue(h) && Get(domain, "firmware") == FirmwareValue(h)
            && Get(domain, "features") == FeaturesValue(h) && Get(domain, "cpu") == CpuValue(h)
            && Get(domain, "resources") == ResourcesValue(h)
  {
    var g := GuestOf(kv, opts.requiresExclusive, files);
    var h := g.hardware;
    GuestOfCr(kv, opts, files);
    GuestParts(g);
    DomainIsRead(MachineValue(h), FirmwareValue(h), FeaturesValue(h), CpuValue(h), ResourcesValue(h),
                 Some(Obj(DevicesObject(g))));
  }

  lemma CpuIs(kv: KubeVirt, domain: Object)
    requires Get(domain, "cpu") == CpuValue(HardwareOf(kv))
    ensures Get(domain, "cpu").Some? <==> kv.cpu.Some?
    ensures var cpu := Sub(domain, "cpu");
            if kv.cpu.None? then cpu == map[]
            else
              && Get(cpu, "cores") == PositiveOrNone(kv.cpu.value.cores)
              && Get(cpu, "sockets") == PositiveOrNone(kv.cpu.value.sockets)
              && Get(cpu, "threads") == PositiveOrNone(kv.cpu.value.threads)
              && Get(cpu, "model") == TextOrNone(kv.cpu.value.model)
              && Get(cpu, "dedicatedCpuPlacement") == TrueOrNone(kv.cpu.value.dedicated)
  {
    if kv.cpu.Some? {
      var slots := CpuSlots(CpuOf(kv.cpu.value));
      Reads(slots, 0); Reads(slots, 1); Reads(slots, 2); Reads(slots, 3); Reads(slots, 4);
    }
  }

  /** Counts, model and pinning of the CPU. */
  lemma CpuFields(kv: KubeVirt, opts: RenderOptions, files: CloudFiles)
    ensures var cr, cpu := CrFor(kv, opts, files), if kv.cpu.Some? then kv.cpu.value else Cpu(0, 0, 0, "", false);
            && At(cr, ["spec", "template", "spec", "domain", "cpu", "cores"]) == PositiveOrNone(cpu.cores)
            && At(cr, ["spec", "template", "spec", "domain", "cpu", "sockets"]) == PositiveOrNone(cpu.sockets)
            && At(cr, ["spec", "template", "spec", "domain", "cpu", "threads"]) == PositiveOrNone(cpu.threads)
            && At(cr, ["spec", "template", "spec", "domain", "cpu", "model"]) == TextOrNone(cpu.model)
            && At(cr, ["spec", "template", "spec", "domain", "cpu", "dedicatedCpuPlacement"])
               == TrueOrNone(cpu.dedicated)
            && (At(cr, ["spec", "template", "spec", "domain", "cpu"]).Some? <==> kv.cpu.Some?)
  {
    var cr := CrFor(kv, opts, files);
    HardwareIs(kv, opts, files);
    CpuIs(kv, Sub(GuestIn(cr), "domain"));
    InGuest2(cr, "domain", "cpu");
    InGuest3(cr, "domain", "cpu", "cores");
    InGuest3(cr, "domain", "cpu", "sockets");
    InGuest3(cr, "domain", "cpu", "threads");
    InGuest3(cr, "domain", "cpu", "model");
    InGuest3(cr, "domain", "cpu", "dedicatedCpuPlacement");
  }

  lemma FirmwareIs(kv: KubeVirt, domain: Object)
    requires Get(domain, "firmware") == FirmwareValue(HardwareOf(kv))
             && Get(domain, "features") == FeaturesValue(HardwareOf(kv))
    ensures var bootloader := Sub(Sub(domain, "firmware"), "bootloader");
            && Get(Sub(bootloader, "efi"), "secureBoot")
               == (if kv.firmware.Some?
                   && kv.firmware.value.bootloader == "efi" then Some(Bool(kv.firmware.value.efiSecureBoot)) else None)
            && Get(bootloader, "bios")
               == (if kv.firmware.Some? && kv.firmware.value.bootloader != "efi" then Some(Obj(map[])) else None)
            && Get(Sub(Sub(domain, "features"), "smm"), "enabled")
               == TrueOrNone(kv.firmware.Some? && kv.firmware.value.bootloader == "efi"
                             && kv.firmware.value.efiSecureBoot)
  {
  }

  lemma MachineFieldsOf(cr: Object, kv: KubeVirt)
    requires Get(Sub(GuestIn(cr), "domain"), "machine") == MachineValue(HardwareOf(kv))
    requires Get(Sub(GuestIn(cr), "domain"), "resources") == ResourcesValue(HardwareOf(kv))
    ensures At(cr, ["spec", "template", "spec", "domain", "machine", "type"]) == TextOrNone(kv.machine)
    ensures At(cr, ["spec", "template", "spec", "domain", "resources", "requests", "memory"]) == TextOrNone(kv.memory)
  {
    InGuest3(cr, "domain", "machine", "type");
    InGuest4(cr, "domain", "resources", "requests", "memory");
  }

  lemma FirmwareFieldsOf(cr: Object, kv: KubeVirt)
    requires Get(Sub(GuestIn(cr), "domain"), "firmware") == FirmwareValue(HardwareOf(kv))
    requires Get(Sub(GuestIn(cr), "domain"), "features") == FeaturesValue(HardwareOf(kv))
    ensures var efi := kv.firmware.Some? && kv.firmware.value.bootloader == "efi";
            && At(cr, ["spec", "template", "spec", "domain", "firmware", "bootloader", "efi", "secureBoot"])
               == (if efi then Some(Bool(kv.firmware.value.efiSecureBoot)) else None)
            && At(cr, ["spec", "template", "spec", "domain", "firmware", "bootloader", "bios"])
               == (if kv.firmware.Some? && !efi then Some(Obj(map[])) else None)
            && At(cr, ["spec", "template", "spec", "domain", "features", "smm", "enabled"])
               == TrueOrNone(efi && kv.firmware.value.efiSecureBoot)
  {
    FirmwareIs(kv, Sub(GuestIn(cr), "domain"));
    InGuest5(cr, "domain", "firmware", "bootloader", "efi", "secureBoot");
    InGuest4(cr, "domain", "firmware", "bootloader", "bios");
    InGuest4(cr, "domain", "features", "smm", "enabled");
  }

  /** Machine, memory, and the firmware with its secure-boot choice. */
  lemma HardwareFields(kv: KubeVirt, opts: RenderOptions, files: CloudFiles)
    ensures var cr := CrFor(kv, opts, files);
            var efi := kv.firmware.Some? && kv.firmware.value.bootloader == "efi";
            && At(cr, ["spec", "template", "spec", "domain", "machine", "type"]) == TextOrNone(kv.machine)
            && At(cr, ["spec", "template", "spec", "domain", "resources", "requests", "memory"])
               == TextOrNone(kv.memory)
            && At(cr, ["spec", "template", "spec", "domain", "firmware", "bootloader", "efi", "secureBoot"])
               == (if efi then Some(Bool(kv.firmware.value.efiSecureBoot)) else None)
            && At(cr, ["spec", "template", "spec", "domain", "firmware", "bootloader", "bios"])
               == (if kv.firmware.Some? && !efi then Some(Obj(map[])) else None)
            && At(cr, ["spec", "template", "spec", "domain", "features", "smm", "enabled"])
               == TrueOrNone(efi && kv.firmware.value.efiSecureBoot)
  {
    HardwareIs(kv, opts, files);
    MachineFieldsOf(CrFor(kv, opts, files), kv);
    FirmwareFieldsOf(CrFor(kv, opts, files), kv);
  }

  /* ----- the devices ----- */

  lemma DeviceValues(podInterface: bool, graphicsDevice: bool, serialConsole: bool, rng: bool, inputs: seq<Json>,
                     watchdog: Option<Json>, hostDevices: seq<Json>, gpus: seq<Json>, disks: seq<Json>,
                     interfaces: seq<Json>)
    ensures var o := Build(DeclaredSlots(podInterface, graphicsDevice, serialConsole, rng, inputs, watchdog,
                                         hostDevices,
                                         gpus) + AddedSlots(disks, interfaces));
            && Get(o, "autoattachPodInterface") == TrueOrNone(podInterface)
            && Get(o, "autoattachGraphicsDevice") == TrueOrNone(graphicsDevice)
            && Get(o, "autoattachSerialConsole") == TrueOrNone(serialConsole)
            && Get(o, "rng") == When(rng, Obj(map[])) && Get(o, "watchdog") == watchdog
            && Get(o, "inputs") == When(inputs != [], Arr(inputs))
            && Get(o, "hostDevices") == When(hostDevices != [], Arr(hostDevices))
            && Get(o, "gpus") == When(gpus != [], Arr(gpus))
            && Get(o, "disks") == When(disks != [], Arr(disks))
            && Get(o, "interfaces") == When(interfaces != [], Arr(interfaces))
  {
    var slots := DeclaredSlots(podInterface, graphicsDevice, serialConsole, rng, inputs, watchdog, hostDevices, gpus)
                 + AddedSlots(disks, interfaces);
    DeclaredAreDistinct(podInterface, graphicsDevice, serialConsole, rng, inputs, watchdog, hostDevices, gpus, disks,
                        interfaces);
    Reads(slots, 0); Reads(slots, 1); Reads(slots, 2); Reads(slots, 3); Reads(slots, 4);
    Reads(slots, 5); Reads(slots, 6); Reads(slots, 7); Reads(slots, 8); Reads(slots, 9);
  }

  function AuthoredDevices(kv: KubeVirt): Devices {
    if kv.devices.Some? then kv.devices.value else Devices(false, false, false, false, [], None, [], [])
  }

  lemma DevicesObjectIs(kv: KubeVirt, opts: RenderOptions, files: CloudFiles)
    ensures Sub(Sub(GuestIn(CrFor(kv, opts, files)), "domain"), "devices")
         == DevicesObject(GuestOf(kv, opts.requiresExclusive, files))
  {
    var g := GuestOf(kv, opts.requiresExclusive, files);
    GuestOfCr(kv, opts, files);
    GuestParts(g);
    DomainParts(g);
  }

  ghost predicate HasDevices(o: Object, d: Devices, gpus: seq<Json>, interfaces: seq<Json>) {
    && Get(o, "autoattachPodInterface") == TrueOrNone(d.podInterface)
    && Get(o, "autoattachGraphicsDevice") == TrueOrNone(d.graphicsDevice)
    && Get(o, "autoattachSerialConsole") == TrueOrNone(d.serialConsole)
    && Get(o, "rng") == When(d.rng, Obj(map[])) && Get(o, "watchdog") == WatchdogValue(d.watchdog)
    && Get(o, "inputs") == When(d.inputs != [], Arr(Listed(InputJson, d.inputs)))
    && Get(o, "hostDevices") == When(d.hostDevices != [], Arr(Listed(HostDeviceJson, d.hostDevices)))
    && Get(o, "gpus") == When(gpus != [], Arr(gpus))
    && Get(o, "disks") == Some(Arr(d.disks + [BOOT_DISK]))
    && Get(o, "interfaces") == Some(Arr(interfaces))
  }

  lemma FormHasDevices(g: GuestForm, d: Devices)
    requires g.devices == DeviceForm(d.podInterface, d.graphicsDevice, d.serialConsole, d.rng, d.inputs, d.watchdog,
                                     d.disks,
                                     d.hostDevices, g.devices.gpus)
    ensures HasDevices(DevicesObject(g), d, Listed(GpuJson, g.devices.gpus), [InterfaceJson(g.iface, g.model)])
  {
    DeviceValues(d.podInterface, d.graphicsDevice, d.serialConsole, d.rng, Listed(InputJson, d.inputs),
                 WatchdogValue(d.watchdog), Listed(HostDeviceJson, d.hostDevices), Listed(GpuJson, g.devices.gpus),
                 d.disks + [BOOT_DISK], [InterfaceJson(g.iface, g.model)]);
  }

  /** The devices in the CR, by what is authored. */
  lemma DevicesAre(kv: KubeVirt, opts: RenderOptions, files: CloudFiles)
    ensures HasDevices(Sub(Sub(GuestIn(CrFor(kv, opts, files)), "domain"), "devices"), AuthoredDevices(kv),
                       Listed(GpuJson, GpusOf(kv, opts.requiresExclusive)),
                       [InterfaceJson(InterfaceOf(kv.network), ModelOf(kv.network))])
  {
    DevicesObjectIs(kv, opts, files);
    FormHasDevices(GuestOf(kv, opts.requiresExclusive, files), AuthoredDevices(kv));
  }

  /** The device switches. */
  lemma SwitchFields(kv: KubeVirt, opts: RenderOptions, files: CloudFiles)
    ensures var cr, d := CrFor(kv, opts, files), AuthoredDevices(kv);
            && At(cr, ["spec", "template", "spec", "domain", "devices", "autoattachPodInterface"])
               == TrueOrNone(d.podInterface)
            && At(cr, ["spec", "template", "spec", "domain", "devices", "autoattachGraphicsDevice"])
               == TrueOrNone(d.graphicsDevice)
            && At(cr, ["spec", "template", "spec", "domain", "devices", "autoattachSerialConsole"])
               == TrueOrNone(d.serialConsole)
            && At(cr, ["spec", "template", "spec", "domain", "devices", "rng"])
               == (if d.rng then Some(Obj(map[])) else None)
  {
    var cr := CrFor(kv, opts, files);
    DevicesAre(kv, opts, files);
    InGuest3(cr, "domain", "devices", "autoattachPodInterface");
    InGuest3(cr, "domain", "devices", "autoattachGraphicsDevice");
    InGuest3(cr, "domain", "devices", "autoattachSerialConsole");
    InGuest3(cr, "domain", "devices", "rng");
  }

  /** The watchdog. */
  lemma WatchdogFields(kv: KubeVirt, opts: RenderOptions, files: CloudFiles)
    ensures var cr, w := CrFor(kv, opts, files), AuthoredDevices(kv).watchdog;
            && At(cr, ["spec", "template", "spec", "domain", "devices", "watchdog", "name"])
               == (if w.Some? then Some(Str("watchdog")) else None)
            && At(cr, ["spec", "template", "spec", "domain", "devices", "watchdog", "model"])
               == (if w.Some? then Some(Str(w.value.model)) else None)
            && At(cr, ["spec", "template", "spec", "domain", "devices", "watchdog", "action"])
               == (if w.Some? then TextOrNone(w.value.action) else None)
  {
    var cr := CrFor(kv, opts, files);
    DevicesAre(kv, opts, files);
    InGuest4(cr, "domain", "devices", "watchdog", "name");
    InGuest4(cr, "domain", "devices", "watchdog", "model");
    InGuest4(cr, "domain", "devices", "watchdog", "action");
    WatchdogIs(AuthoredDevices(kv).watchdog, Sub(Sub(GuestIn(cr), "domain"), "devices"));
  }

  lemma WatchdogIs(w: Option<Watchdog>, devices: Object)
    requires Get(devices, "watchdog") == WatchdogValue(w)
    ensures var o := Sub(devices, "watchdog");
            && Get(o, "name") == (if w.Some? then Some(Str("watchdog")) else None)
            && Get(o, "model") == (if w.Some? then Some(Str(w.value.model)) else None)
            && Get(o, "action") == (if w.Some? then TextOrNone(w.value.action) else None)
  {
  }

  /** One entry of a list. */
  predicate IsInput(item: Json, i: Input) {
    Of(item, "type") == Some(Str(i.kind)) && Of(item, "bus") == TextOrNone(i.bus)
  }

  predicate IsHostDevice(item: Json, h: HostDevice) {
    Of(item, "deviceName") == Some(Str(h.deviceName)) && Of(item, "name") == TextOrNone(h.name)
  }

  predicate IsGpu(item: Json, g: Gpu) {
    Of(item, "resourceName") == TextOrNone(g.resourceName) && Of(item, "deviceName") == TextOrNone(g.deviceName)
  }

  lemma EntriesAre(i: Input, h: HostDevice, g: Gpu)
    ensures IsInput(InputJson(i), i) && IsHostDevice(HostDeviceJson(h), h) && IsGpu(GpuJson(g), g)
  {
  }

  lemma ListFieldsOf(cr: Object, d: Devices)
    requires var o := Sub(Sub(GuestIn(cr), "domain"), "devices");
             var inputs, hostDevices := Listed(InputJson, d.inputs), Listed(HostDeviceJson, d.hostDevices);
             && Get(o, "inputs") == When(d.inputs != [], Arr(inputs))
             && Get(o, "hostDevices") == When(d.hostDevices != [], Arr(hostDevices))
    ensures var inputs := ItemsAt(cr, ["spec", "template", "spec", "domain", "devices", "inputs"]);
            var hostDevices := ItemsAt(cr, ["spec", "template", "spec", "domain", "devices", "hostDevices"]);
            && |inputs| == |d.inputs| && (forall i | 0 <= i < |d.inputs| :: IsInput(inputs[i], d.inputs[i]))
            && |hostDevices| == |d.hostDevices|
            && (forall i | 0 <= i < |d.hostDevices| :: IsHostDevice(hostDevices[i], d.hostDevices[i]))
  {
    InGuest3(cr, "domain", "devices", "inputs");
    InGuest3(cr, "domain", "devices", "hostDevices");
    forall i | 0 <= i < |d.inputs| ensures IsInput(InputJson(d.inputs[i]), d.inputs[i]) {
      EntriesAre(d.inputs[i], HostDevice("", ""), Gpu("", ""));
    }
    forall i | 0 <= i < |d.hostDevices| ensures IsHostDevice(HostDeviceJson(d.hostDevices[i]), d.hostDevices[i]) {
      EntriesAre(Input("", ""), d.hostDevices[i], Gpu("", ""));
    }
  }

  /** Each authored input and host device, in order, under its own keys. */
  lemma ListFields(kv: KubeVirt, opts: RenderOptions, files: CloudFiles)
    ensures var cr, d := CrFor(kv, opts, files), AuthoredDevices(kv);
            var inputs := ItemsAt(cr, ["spec", "template", "spec", "domain", "devices", "inputs"]);
            var hostDevices := ItemsAt(cr, ["spec", "template", "spec", "domain", "devices", "hostDevices"]);
            && |inputs| == |d.inputs| && (forall i | 0 <= i < |d.inputs| :: IsInput(inputs[i], d.inputs[i]))
            && |hostDevices| == |d.hostDevices|
            && (forall i | 0 <= i < |d.hostDevices| :: IsHostDevice(hostDevices[i], d.hostDevices[i]))
  {
    DevicesAre(kv, opts, files);
    ListFieldsOf(CrFor(kv, opts, files), AuthoredDevices(kv));
  }

  /** The entry a mapped token stands for. */
  predicate IsToken(item: Json, token: string) {
    && Of(item, if '/' in token then "resourceName" else "deviceName") == Some(Str(token))
    && Of(item, if '/' in token then "deviceName" else "resourceName") == None
  }

  lemma TokenEntry(g: Gpu, token: string)
    requires token != "" && g == if '/' in token then Gpu(token, "") else Gpu("", token)
    ensures IsToken(GpuJson(g), token)
  {
    EntriesAre(Input("", ""), HostDevice("", ""), g);
  }

  lemma {:induction false} NonEmptyAre(tokens: seq<string>)
    ensures forall i | 0 <= i < |NonEmpty(tokens)| :: NonEmpty(tokens)[i] != ""
  {
    if tokens != [] {
      NonEmptyAre(tokens[1..]);
    }
  }

  lemma GpuFieldsOf(cr: Object, authored: seq<Gpu>, requiresExclusive: seq<string>, gpus: seq<Gpu>)
    requires gpus == if authored == [] then MappedTokens(requiresExclusive) else authored
    requires var items := Listed(GpuJson, gpus);
             Get(Sub(Sub(GuestIn(cr), "domain"), "devices"), "gpus") == When(items != [], Arr(items))
    ensures var items := ItemsAt(cr, ["spec", "template", "spec", "domain", "devices", "gpus"]);
            var tokens := NonEmpty(requiresExclusive);
            if authored != [] then
              |items| == |authored| && forall i | 0 <= i < |authored| :: IsGpu(items[i], authored[i])
            else
              |items| == |tokens| && forall i | 0 <= i < |tokens| :: IsToken(items[i], tokens[i])
  {
    var tokens := NonEmpty(requiresExclusive);
    InGuest3(cr, "domain", "devices", "gpus");
    MappedTokensAreRecovered(requiresExclusive);
    NonEmptyAre(requiresExclusive);
    if authored != [] {
      forall i | 0 <= i < |authored| ensures IsGpu(GpuJson(authored[i]), authored[i]) {
        EntriesAre(Input("", ""), HostDevice("", ""), authored[i]);
      }
    } else {
      forall i | 0 <= i < |tokens| ensures IsToken(GpuJson(gpus[i]), tokens[i]) {
        TokenEntry(gpus[i], tokens[i]);
      }
    }
  }

  /** The authored GPUs; without any, one entry for each non-empty exclusive token, in order. */
  lemma GpuFields(kv: KubeVirt, opts: RenderOptions, files: CloudFiles)
    ensures var items := ItemsAt(CrFor(kv, opts, files), ["spec", "template", "spec", "domain", "devices", "gpus"]);
            var tokens := NonEmpty(opts.requiresExclusive);
            if kv.gpus != [] then
              |items| == |kv.gpus| && forall i | 0 <= i < |kv.gpus| :: IsGpu(items[i], kv.gpus[i])
            else
              |items| == |tokens| && forall i | 0 <= i < |tokens| :: IsToken(items[i], tokens[i])
  {
    DevicesAre(kv, opts, files);
    GpuFieldsOf(CrFor(kv, opts, files), kv.gpus, opts.requiresExclusive, GpusOf(kv, opts.requiresExclusive));
  }

  /** The disks: the authored ones as they are, then the boot disk. The networks: the pod network. */
  lemma DiskFields(kv: KubeVirt, opts: RenderOptions, files: CloudFiles)
    ensures var cr := CrFor(kv, opts, files);
            && At(cr, ["spec", "template", "spec", "domain", "devices", "disks"])
               == Some(Arr(AuthoredDevices(kv).disks
                           + [Obj(map["name" := Str("boot"), "disk" := Obj(map["bus" := Str("virtio")])])]))
            && At(cr, ["spec", "template", "spec", "networks"])
               == Some(Arr([Obj(map["name" := Str("default"), "pod" := Obj(map[])])]))
  {
    var cr := CrFor(kv, opts, files);
    DevicesAre(kv, opts, files);
    GuestValues(kv, opts, files);
    InGuest3(cr, "domain", "devices", "disks");
    InGuest(cr, "networks");
  }

  predicate IsInterface(item: Json, network: Option<Network>) {
    var authored := if network.Some? then network.value else Network("", "");
    && Of(item, "name") == Some(Str("default"))
    && Of(item, "model") == Some(Str(if authored.model == "" then "virtio" else authored.model))
    && (Of(item, "bridge") == if authored.iface == "bridge" then Some(Obj(map[])) else None)
    && (Of(item, "masquerade") == if authored.iface == "bridge" || authored.iface == "pod" then None
        else Some(Obj(map[])))
  }

  lemma InterfaceIs(network: Option<Network>)
    ensures IsInterface(InterfaceJson(InterfaceOf(network), ModelOf(network)), network)
  {
  }

  lemma InterfaceFieldsOf(cr: Object, item: Json)
    requires Get(Sub(Sub(GuestIn(cr), "domain"), "devices"), "interfaces") == Some(Arr([item]))
    ensures ItemsAt(cr, ["spec", "template", "spec", "domain", "devices", "interfaces"]) == [item]
  {
    InGuest3(cr, "domain", "devices", "interfaces");
  }

  /** The one interface: bridge as authored, no binding for pod, masquerade for everything else. */
  lemma InterfaceFields(kv: KubeVirt, opts: RenderOptions, files: CloudFiles)
    ensures var items := ItemsAt(CrFor(kv, opts, files),
                                 ["spec", "template", "spec", "domain", "devices", "interfaces"]);
            |items| == 1 && IsInterface(items[0], kv.network)
  {
    DevicesAre(kv, opts, files);
    InterfaceFieldsOf(CrFor(kv, opts, files), InterfaceJson(InterfaceOf(kv.network), ModelOf(kv.network)));
    InterfaceIs(kv.network);
  }

  /* ----- the rest of the guest ----- */

  lemma GuestSlotValues(domain: Object, volumes: seq<Json>, migration: Object, selector: Object, affinity: Object,
                        matchers: Object)
    ensures var o := Build(GuestSlots(domain, volumes, migration, selector, affinity, matchers));
            && Get(o, "volumes") == When(volumes != [], Arr(volumes)) && Get(o, "networks") == Some(Arr([POD_NETWORK]))
            && Get(o, "migration") == When(migration != map[], Obj(migration))
            && Get(o, "nodeSelector") == When(selector != map[], Obj(selector))
            && Get(o, "affinity") == When(affinity != map[], Obj(affinity))
            && Get(o, "instancetype") == When(matchers != map[], Obj(matchers))
  {
    var slots := GuestSlots(domain, volumes, migration, selector, affinity, matchers);
    Reads(slots, 1); Reads(slots, 2); Reads(slots, 3); Reads(slots, 4); Reads(slots, 5); Reads(slots, 6);
  }

  lemma GuestValues(kv: KubeVirt, opts: RenderOptions, files: CloudFiles)
    ensures var o := GuestIn(CrFor(kv, opts, files));
            var volumes := BootVolumes(BootOf(kv.source)) + if kv.hasCloudInit then [CloudVolume(files)] else [];
            var migration := Build(MigrationSlots(if kv.migration.Some? then kv.migration.value else NO_MIGRATION));
            var matchers := Build(MatcherSlots(kv.instancetype, kv.preference));
            && Get(o, "volumes") == When(volumes != [], Arr(volumes)) && Get(o, "networks") == Some(Arr([POD_NETWORK]))
            && Get(o, "migration") == When(migration != map[], Obj(migration))
            && Get(o, "nodeSelector") == When(StringMap(kv.nodeSelector) != map[], Obj(StringMap(kv.nodeSelector)))
            && Get(o, "affinity") == When(kv.affinity != map[], Obj(kv.affinity))
            && Get(o, "instancetype") == When(matchers != map[], Obj(matchers))
  {
    var g := GuestOf(kv, opts.requiresExclusive, files);
    GuestOfCr(kv, opts, files);
    GuestSlotValues(DomainObject(g), Volumes(g), Build(MigrationSlots(g.migration)), StringMap(g.nodeSelector),
                    g.affinity,
                    Build(MatcherSlots(g.instancetype, g.preference)));
  }

  /** The live-migration settings. */
  lemma MigrationFields(kv: KubeVirt, opts: RenderOptions, files: CloudFiles)
    ensures var cr, m := CrFor(kv, opts, files), if kv.migration.Some? then kv.migration.value
            else Migration(false, false, "");
            && At(cr, ["spec", "template", "spec", "migration", "allowAutoConverge"]) == TrueOrNone(m.autoConverge)
            && At(cr, ["spec", "template", "spec", "migration", "allowPostCopy"]) == TrueOrNone(m.postCopy)
            && At(cr, ["spec", "template", "spec", "migration", "bandwidthPerMigration"]) == TextOrNone(m.bandwidth)
  {
    var cr, m := CrFor(kv, opts, files), if kv.migration.Some? then kv.migration.value else NO_MIGRATION;
    GuestValues(kv, opts, files);
    MigrationIs(m, GuestIn(cr), Build(MigrationSlots(m)));
    InGuest2(cr, "migration", "allowAutoConverge");
    InGuest2(cr, "migration", "allowPostCopy");
    InGuest2(cr, "migration", "bandwidthPerMigration");
  }

  lemma MigrationIs(m: Migration, guest: Object, settings: Object)
    requires settings == Build(MigrationSlots(m))
    requires Get(guest, "migration") == When(settings != map[], Obj(settings))
    ensures var o := Sub(guest, "migration");
            && Get(o, "allowAutoConverge") == TrueOrNone(m.autoConverge)
            && Get(o, "allowPostCopy") == TrueOrNone(m.postCopy)
            && Get(o, "bandwidthPerMigration") == TextOrNone(m.bandwidth)
  {
    var slots := MigrationSlots(m);
    Reads(slots, 0); Reads(slots, 1); Reads(slots, 2);
  }

  /** Where the VM may run. */
  lemma PlacementFields(kv: KubeVirt, opts: RenderOptions, files: CloudFiles, labelKey: string)
    ensures var cr := CrFor(kv, opts, files);
            && At(cr, ["spec", "template", "spec", "nodeSelector", labelKey])
               == (if labelKey in kv.nodeSelector then Some(Str(kv.nodeSelector[labelKey])) else None)
            && At(cr, ["spec", "template", "spec", "affinity"])
               == (if kv.affinity != map[] then Some(Obj(kv.affinity)) else None)
  {
    var cr := CrFor(kv, opts, files);
    GuestValues(kv, opts, files);
    InGuest2(cr, "nodeSelector", labelKey);
    InGuest(cr, "affinity");
  }

  /** The instancetype and preference it names. */
  lemma MatcherFields(kv: KubeVirt, opts: RenderOptions, files: CloudFiles)
    ensures var cr := CrFor(kv, opts, files);
            && At(cr, ["spec", "template", "spec", "instancetype", "name"]) == TextOrNone(kv.instancetype)
            && At(cr, ["spec", "template", "spec", "instancetype", "kind"])
               == (if kv.instancetype != "" then Some(Str("VirtualMachineInstancetype")) else None)
            && At(cr, ["spec", "template", "spec", "instancetype", "preference", "name"]) == TextOrNone(kv.preference)
            && At(cr, ["spec", "template", "spec", "instancetype", "preference", "kind"])
               == (if kv.preference != "" then Some(Str("VirtualMachinePreference")) else None)
  {
    var cr := CrFor(kv, opts, files);
    GuestValues(kv, opts, files);
    MatchersAre(kv.instancetype, kv.preference, GuestIn(cr), Build(MatcherSlots(kv.instancetype, kv.preference)));
    InGuest2(cr, "instancetype", "name");
    InGuest2(cr, "instancetype", "kind");
    InGuest3(cr, "instancetype", "preference", "name");
    InGuest3(cr, "instancetype", "preference", "kind");
  }

  lemma MatchersAre(instancetype: string, preference: string, guest: Object, matchers: Object)
    requires matchers == Build(MatcherSlots(instancetype, preference))
    requires Get(guest, "instancetype") == When(matchers != map[], Obj(matchers))
    ensures var o := Sub(guest, "instancetype");
            && Get(o, "name") == TextOrNone(instancetype)
            && Get(o, "kind") == (if instancetype != "" then Some(Str("VirtualMachineInstancetype")) else None)
            && Get(Sub(o, "preference"), "name") == TextOrNone(preference)
            && Get(Sub(o, "preference"), "kind")
               == (if preference != "" then Some(Str("VirtualMachinePreference")) else None)
  {
    var slots := MatcherSlots(instancetype, preference);
    Reads(slots, 0); Reads(slots, 1); Reads(slots, 2);
  }

  /* ----- the volumes ----- */

  predicate IsContainerDisk(volume: Json, s: Source) {
    var disk := Of(volume, "containerDisk");
    && Of(volume, "name") == Some(Str("boot"))
    && Field(disk, "image") == Some(Str(s.image)) && Field(disk, "imagePullPolicy") == TextOrNone(s.pullPolicy)
    && Field(disk, "imagePullSecret") == TextOrNone(s.pullSecret)
       && Field(disk, "path") == TextOrNone(s.diskPathInImage)
  }

  predicate IsBootVolume(volume: Json, s: Source) {
    if s.kind == "container_disk" then IsContainerDisk(volume, s)
    else if s.kind == "pvc" then
      volume == Obj(map["name" := Str("boot"), "persistentVolumeClaim" := Obj(map["claimName" := Str(s.pvc)])])
    else volume == Obj(map["name" := Str("boot"), "dataVolume" := Obj(map["name" := Str("boot")])])
  }

  predicate IsCloudVolume(volume: Json, files: CloudFiles) {
    var noCloud := Of(volume, "cloudInitNoCloud");
    && Of(volume, "name") == Some(Str("cloudinitdisk"))
    && Field(noCloud, "userData") == TextOrNone(files.userData)
       && Field(noCloud, "metaData") == Some(Str(files.metaData))
    && Field(noCloud, "networkData") == TextOrNone(files.networkData)
  }

  lemma BootVolumeIs(s: Source)
    requires s.kind in {"container_disk", "data_volume", "pvc", "clone"}
    ensures |BootVolumes(BootOf(s))| == 1 && IsBootVolume(BootVolumes(BootOf(s))[0], s)
  {
    if s.kind == "container_disk" {
      var slots := ContainerDiskSlots(BootOf(s));
      Reads(slots, 0); Reads(slots, 1); Reads(slots, 2); Reads(slots, 3);
    }
  }

  lemma UnknownKindHasNone(s: Source)
    requires s.kind !in {"container_disk", "data_volume", "pvc", "clone"}
    ensures BootVolumes(BootOf(s)) == []
  {
  }

  lemma CloudVolumeIs(files: CloudFiles)
    ensures IsCloudVolume(CloudVolume(files), files)
  {
    var slots := CloudSlots(files);
    Reads(slots, 0); Reads(slots, 1); Reads(slots, 2);
  }

  lemma VolumeFieldsOf(cr: Object, volumes: seq<Json>)
    requires Get(GuestIn(cr), "volumes") == When(volumes != [], Arr(volumes))
    ensures ItemsAt(cr, ["spec", "template", "spec", "volumes"]) == volumes
  {
    InGuest(cr, "volumes");
  }

  predicate AreVolumes(volumes: seq<Json>, s: Source, hasCloudInit: bool, files: CloudFiles) {
    var boots := if s.kind in {"container_disk", "data_volume", "pvc", "clone"} then 1 else 0;
    && |volumes| == boots + (if hasCloudInit then 1 else 0)
    && (boots == 1 ==> IsBootVolume(volumes[0], s))
    && (hasCloudInit ==> IsCloudVolume(volumes[boots], files))
  }

  lemma VolumesAre(s: Source, hasCloudInit: bool, files: CloudFiles)
    ensures AreVolumes(BootVolumes(BootOf(s)) + if hasCloudInit then [CloudVolume(files)] else [], s, hasCloudInit,
                       files)
  {
    CloudVolumeIs(files);
    if s.kind in {"container_disk", "data_volume", "pvc", "clone"} {
      BootVolumeIs(s);
    } else {
      UnknownKindHasNone(s);
    }
  }

  /** The boot volume of the source kind, and after it the cloud-init volume. */
  lemma VolumeFields(kv: KubeVirt, opts: RenderOptions, files: CloudFiles)
    ensures AreVolumes(ItemsAt(CrFor(kv, opts, files), ["spec", "template", "spec", "volumes"]), kv.source,
                       kv.hasCloudInit,
                       files)
  {
    GuestValues(kv, opts, files);
    VolumeFieldsOf(CrFor(kv, opts, files),
                   BootVolumes(BootOf(kv.source)) + if kv.hasCloudInit then [CloudVolume(files)] else []);
    VolumesAre(kv.source, kv.hasCloudInit, files);
  }

  /* ----- outside the guest ----- */

  /** The source of a DataVolume: the authored one, or the PVC to clone. */
  function SourceOrNone(s: Source): Option<Json> {
    if s.kind == "data_volume" && s.dataVolume != map[] then Some(Obj(s.dataVolume))
    else if s.kind == "clone" && s.cloneFrom.Some? then
      Some(Obj(map["PVC" := Obj(map["name" := Str(s.cloneFrom.value)])]))
    else None
  }

  /** The spec of a DataVolume, in a template and standalone. */
  predicate IsDataVolumeSpec(spec: Object, s: Source) {
    && At(spec, ["source"]) == SourceOrNone(s)
    && At(spec, ["storage", "resources", "requests", "storage"]) == TextOrNone(s.size)
    && At(spec, ["storage", "storageClassName"]) == TextOrNone(s.storageClass)
    && At(spec, ["storage", "contentType"]) == TextOrNone(s.contentType)
  }

  lemma StorageIs(t: TemplateForm)
    ensures var o := Build(StorageSlots(t));
            && Get(Sub(Sub(o, "resources"), "requests"), "storage") == TextOrNone(t.size)
            && Get(o, "storageClassName") == TextOrNone(t.storageClass)
               && Get(o, "contentType") == TextOrNone(t.contentType)
  {
    Reads(StorageSlots(t), 0); Reads(StorageSlots(t), 1); Reads(StorageSlots(t), 2);
  }

  lemma DataVolumeSpecIs(s: Source)
    requires s.kind == "data_volume" || s.kind == "clone"
    ensures IsDataVolumeSpec(Build(TemplateSlots(TemplateOf(s))), s)
  {
    var spec, t := Build(TemplateSlots(TemplateOf(s))), TemplateOf(s);
    var storage := Build(StorageSlots(t));
    Reads(TemplateSlots(t), 0); Reads(TemplateSlots(t), 1);
    assert Sub(spec, "storage") == storage;
    StorageIs(t);
    Here(spec, "source");
    Down(spec, "storage", ["resources", "requests", "storage"]);
    Down(storage, "resources", ["requests", "storage"]);
    Down(Sub(storage, "resources"), "requests", ["storage"]);
    Here(Sub(Sub(storage, "resources"), "requests"), "storage");
    Down(spec, "storage", ["storageClassName"]);
    Here(storage, "storageClassName");
    Down(spec, "storage", ["contentType"]);
    Here(storage, "contentType");
    assert ["storage"] + ["resources", "requests", "storage"] == ["storage", "resources", "requests", "storage"];
    assert ["resources"] + ["requests", "storage"] == ["resources", "requests", "storage"];
    assert ["requests"] + ["storage"] == ["requests", "storage"];
    assert ["storage"] + ["storageClassName"] == ["storage", "storageClassName"];
    assert ["storage"] + ["contentType"] == ["storage", "contentType"];
  }

  predicate AreTemplates(templates: seq<Json>, s: Source) {
    if s.kind == "data_volume" || s.kind == "clone" then
      && |templates| == 1 && templates[0].Obj?
      && Of(templates[0], "metadata") == Some(Obj(map["name" := Str("boot")]))
      && IsDataVolumeSpec(Sub(templates[0].fields, "spec"), s)
    else templates == []
  }

  lemma TemplatesAre(s: Source)
    ensures AreTemplates(Templates(BootOf(s)), s)
  {
    if s.kind == "data_volume" || s.kind == "clone" {
      DataVolumeSpecIs(s);
      TemplateSpec(Build(TemplateSlots(TemplateOf(s))));
    }
  }

  lemma TemplateSpec(spec: Object)
    ensures Sub(map["metadata" := Obj(map["name" := Str("boot")]), "spec" := Obj(spec)], "spec") == spec
  {
  }

  lemma TemplateFieldsOf(cr: Object, templates: seq<Json>)
    requires Get(Sub(cr, "spec"), "dataVolumeTemplates") == When(templates != [], Arr(templates))
    ensures ItemsAt(cr, ["spec", "dataVolumeTemplates"]) == templates
  {
    InSpec(cr, "dataVolumeTemplates");
  }

  /** The template of a data_volume or clone. */
  lemma TemplateFields(kv: KubeVirt, opts: RenderOptions, files: CloudFiles)
    ensures AreTemplates(ItemsAt(CrFor(kv, opts, files), ["spec", "dataVolumeTemplates"]), kv.source)
  {
    SpecValues(kv, opts, files);
    TemplateFieldsOf(CrFor(kv, opts, files), Templates(BootOf(kv.source)));
    TemplatesAre(kv.source);
  }

  predicate IsStandalone(cr: Object, name: string, namespace: string, s: Source) {
    && Get(cr, "apiVersion") == Some(Str("cdi.kubevirt.io/v1beta1")) && Get(cr, "kind") == Some(Str("DataVolume"))
    && Get(Sub(cr, "metadata"), "name") == Some(Str(name + "-dv"))
    && Get(Sub(cr, "metadata"), "namespace") == Some(Str(if namespace == "" then "default" else namespace))
    && IsDataVolumeSpec(Sub(cr, "spec"), s)
  }

  lemma StandaloneParts(name: string, namespace: string, spec: Object, s: Source)
    requires IsDataVolumeSpec(spec, s)
    ensures IsStandalone(map["apiVersion" := Str("cdi.kubevirt.io/v1beta1"), "kind" := Str("DataVolume"),
                             "metadata" := Obj(map["name" := Str(name + "-dv"),
                                                   "namespace" := Str(if namespace == "" then "default"
                                                                      else namespace)]),
                             "spec" := Obj(spec)], name, namespace, s)
  {
  }

  /** The standalone DataVolume. */
  lemma StandaloneFields(name: string, namespace: string, s: Source)
    ensures var alone := Standalone(name, namespace, BootOf(s));
            && (alone.Some? <==> s.kind == "data_volume" || s.kind == "clone")
            && (alone.Some? ==> IsStandalone(alone.value, name, namespace, s))
  {
    if s.kind == "data_volume" || s.kind == "clone" {
      DataVolumeSpecIs(s);
      StandaloneParts(name, namespace, Build(TemplateSlots(TemplateOf(s))), s);
    }
  }

  lemma SpecSlotValues(template: Json, runStrategy: string, evictionStrategy: string, gracePeriod: nat,
                       templates: seq<Json>)
    ensures var o := Build(SpecSlots(template, runStrategy, evictionStrategy, gracePeriod, templates));
            && Get(o, "template") == Some(template) && Get(o, "runStrategy") == Some(Str(runStrategy))
            && Get(o, "evictionStrategy") == TextOrNone(evictionStrategy)
            && Get(o, "terminationGracePeriodSeconds") == PositiveOrNone(gracePeriod)
            && Get(o, "dataVolumeTemplates") == When(templates != [], Arr(templates))
  {
    var slots := SpecSlots(template, runStrategy, evictionStrategy, gracePeriod, templates);
    Reads(slots, 0); Reads(slots, 1); Reads(slots, 2); Reads(slots, 3); Reads(slots, 4);
  }

  lemma SpecValues(kv: KubeVirt, opts: RenderOptions, files: CloudFiles)
    ensures var cr := CrFor(kv, opts, files);
            var spec, templates := Sub(cr, "spec"), Templates(BootOf(kv.source));
            && Get(spec, "runStrategy") == Some(Str(if kv.runStrategy == "" then "Always" else kv.runStrategy))
            && Get(spec, "evictionStrategy") == TextOrNone(kv.evictionStrategy)
            && Get(spec, "terminationGracePeriodSeconds") == PositiveOrNone(kv.gracePeriod)
            && Get(spec, "dataVolumeTemplates") == When(templates != [], Arr(templates))
            && Get(Sub(Sub(Sub(spec, "template"), "metadata"), "labels"), "kubevirt.io/domain") == Some(Str(opts.name))
  {
    var v := Normalize(kv, opts, files);
    SpecSlotValues(PodTemplate(v.name, GuestObject(v.guest)), v.runStrategy, v.evictionStrategy, v.gracePeriod,
                   Templates(v.guest.boot));
    SpecOfManifest(v.name, v.namespace, SpecObject(v));
    LabelOfTemplate(v.name, GuestObject(v.guest), SpecObject(v));
  }

  lemma SpecOfManifest(name: string, namespace: string, spec: Object)
    ensures var vm := Manifest(name, namespace, spec);
            && Sub(vm, "spec") == spec
            && Get(vm, "apiVersion") == Some(Str("kubevirt.io/v1")) && Get(vm, "kind") == Some(Str("VirtualMachine"))
            && Get(Sub(vm, "metadata"), "name") == Some(Str(name))
            && Get(Sub(vm, "metadata"), "namespace") == Some(Str(namespace))
  {
  }

  lemma LabelOfTemplate(name: string, guest: Object, spec: Object)
    requires Get(spec, "template") == Some(PodTemplate(name, guest))
    ensures Get(Sub(Sub(Sub(spec, "template"), "metadata"), "labels"), "kubevirt.io/domain") == Some(Str(name))
  {
  }

  /** How and how long it runs. */
  lemma SpecFields(kv: KubeVirt, opts: RenderOptions, files: CloudFiles)
    ensures var cr := CrFor(kv, opts, files);
            && At(cr, ["spec", "runStrategy"]) == Some(Str(if kv.runStrategy == "" then "Always" else kv.runStrategy))
            && At(cr, ["spec", "evictionStrategy"]) == TextOrNone(kv.evictionStrategy)
            && At(cr, ["spec", "terminationGracePeriodSeconds"]) == PositiveOrNone(kv.gracePeriod)
  {
    var cr := CrFor(kv, opts, files);
    SpecValues(kv, opts, files);
    InSpec(cr, "runStrategy");
    InSpec(cr, "evictionStrategy");
    InSpec(cr, "terminationGracePeriodSeconds");
  }

  /** What it is and what it is called. */
  lemma HeadFields(kv: KubeVirt, opts: RenderOptions, files: CloudFiles)
    ensures var cr := CrFor(kv, opts, files);
            && At(cr, ["apiVersion"]) == Some(Str("kubevirt.io/v1")) && At(cr, ["kind"]) == Some(Str("VirtualMachine"))
            && At(cr, ["metadata", "name"]) == Some(Str(opts.name))
            && At(cr, ["metadata", "namespace"])
               == Some(Str(if opts.namespace == "" then "default" else opts.namespace))
            && At(cr, ["spec", "template", "metadata", "labels", "kubevirt.io/domain"]) == Some(Str(opts.name))
  {
    var cr, v := CrFor(kv, opts, files), Normalize(kv, opts, files);
    SpecOfManifest(v.name, v.namespace, SpecObject(v));
    SpecValues(kv, opts, files);
    HeadPaths(cr);
  }

  lemma HeadPaths(cr: Object)
    ensures At(cr, ["apiVersion"]) == Get(cr, "apiVersion") && At(cr, ["kind"]) == Get(cr, "kind")
    ensures At(cr, ["metadata", "name"]) == Get(Sub(cr, "metadata"), "name")
    ensures At(cr, ["metadata", "namespace"]) == Get(Sub(cr, "metadata"), "namespace")
    ensures At(cr, ["spec", "template", "metadata", "labels", "kubevirt.io/domain"])
         == Get(Sub(Sub(Sub(Sub(cr, "spec"), "template"), "metadata"), "labels"), "kubevirt.io/domain")
  {
    Here(cr, "apiVersion");
    Here(cr, "kind");
    Down(cr, "metadata", ["name"]);
    Here(Sub(cr, "metadata"), "name");
    Down(cr, "metadata", ["namespace"]);
    Here(Sub(cr, "metadata"), "namespace");
    assert ["metadata"] + ["name"] == ["metadata", "name"] && ["metadata"] + ["namespace"] == ["metadata", "namespace"];
    LabelPath(cr, "kubevirt.io/domain");
  }

  lemma LabelPath(cr: Object, labelKey: string)
    ensures At(cr, ["spec", "template", "metadata", "labels", labelKey])
         == Get(Sub(Sub(Sub(Sub(cr, "spec"), "template"), "metadata"), "labels"), labelKey)
  {
    var template := Sub(Sub(cr, "spec"), "template");
    Down(cr, "spec", ["template", "metadata", "labels", labelKey]);
    Down(Sub(cr, "spec"), "template", ["metadata", "labels", labelKey]);
    Down(template, "metadata", ["labels", labelKey]);
    Down(Sub(template, "metadata"), "labels", [labelKey]);
    Here(Sub(Sub(template, "metadata"), "labels"), labelKey);
    assert ["spec"] + ["template", "metadata", "labels", labelKey]
           == ["spec", "template", "metadata", "labels", labelKey];
    assert ["template"] + ["metadata", "labels", labelKey] == ["template", "metadata", "labels", labelKey];
    assert ["metadata"] + ["labels", labelKey] == ["metadata", "labels", labelKey]
           && ["labels"] + [labelKey] == ["labels", labelKey];
  }

  /* ----- and nothing else ----- */

  function KeysOf(slots: seq<Slot>): set<string> {
    set i | 0 <= i < |slots| :: slots[i].key
  }

  lemma KeysAreSlots(slots: seq<Slot>)
    ensures Build(slots).Keys <= KeysOf(slots)
  {
    forall k | k in Build(slots) ensures k in KeysOf(slots) {
      if forall i | 0 <= i < |slots| :: slots[i].key != k {
        HasOnly(slots, k);
        assert false;
      }
    }
  }

  lemma HardwareKeys(h: HardwareForm, devices: Option<Json>)
    ensures Build(DomainSlots(MachineValue(h), FirmwareValue(h), FeaturesValue(h), CpuValue(h), ResourcesValue(h),
                              devices)).Keys
         <= {"machine", "firmware", "features", "cpu", "resources", "devices"}
    ensures h.cpu.Some? ==> Build(CpuSlots(h.cpu.value)).Keys
                            <= {"cores", "sockets", "threads", "model", "dedicatedCpuPlacement"}
  {
    KeysAreSlots(DomainSlots(MachineValue(h), FirmwareValue(h), FeaturesValue(h), CpuValue(h), ResourcesValue(h),
                             devices));
    if h.cpu.Some? {
      KeysAreSlots(CpuSlots(h.cpu.value));
    }
  }

  lemma DeviceKeys(g: GuestForm)
    ensures DevicesObject(g).Keys
         <= {"autoattachPodInterface", "autoattachGraphicsDevice", "autoattachSerialConsole", "rng", "inputs",
             "watchdog",
             "hostDevices", "gpus", "disks", "interfaces"}
  {
    var d := g.devices;
    KeysAreSlots(DeclaredSlots(d.podInterface, d.graphicsDevice, d.serialConsole, d.rng, Listed(InputJson, d.inputs),
                               WatchdogValue(d.watchdog), Listed(HostDeviceJson, d.hostDevices),
                                   Listed(GpuJson, d.gpus))
                 + AddedSlots(d.disks + [BOOT_DISK], [InterfaceJson(g.iface, g.model)]));
  }

  lemma GuestKeys(domain: Object, volumes: seq<Json>, migration: Object, selector: Object, affinity: Object,
                  matchers: Object)
    ensures Build(GuestSlots(domain, volumes, migration, selector, affinity, matchers)).Keys
         <= {"domain", "volumes", "networks", "migration", "nodeSelector", "affinity", "instancetype"}
  {
    KeysAreSlots(GuestSlots(domain, volumes, migration, selector, affinity, matchers));
  }

  lemma SpecKeys(template: Json, runStrategy: string, evictionStrategy: string, gracePeriod: nat, templates: seq<Json>)
    ensures Build(SpecSlots(template, runStrategy, evictionStrategy, gracePeriod, templates)).Keys
         <= {"template", "runStrategy", "evictionStrategy", "terminationGracePeriodSeconds", "dataVolumeTemplates"}
  {
    KeysAreSlots(SpecSlots(template, runStrategy, evictionStrategy, gracePeriod, templates));
  }

  /** No other fields in the spec, the guest spec, its domain, its CPU and its devices. */
  lemma OnlyTheseFields(kv: KubeVirt, opts: RenderOptions, files: CloudFiles)
    ensures var cr := CrFor(kv, opts, files);
            var guest := GuestIn(cr);
            var domain := Sub(guest, "domain");
            && cr.Keys == {"apiVersion", "kind", "metadata", "spec"}
            && Sub(cr, "spec").Keys
               <= {"template", "runStrategy", "evictionStrategy", "terminationGracePeriodSeconds",
                   "dataVolumeTemplates"}
            && guest.Keys <= {"domain", "volumes", "networks", "migration", "nodeSelector", "affinity", "instancetype"}
            && domain.Keys <= {"machine", "firmware", "features", "cpu", "resources", "devices"}
            && Sub(domain, "cpu").Keys <= {"cores", "sockets", "threads", "model", "dedicatedCpuPlacement"}
            && Sub(domain, "devices").Keys
               <= {"autoattachPodInterface", "autoattachGraphicsDevice", "autoattachSerialConsole", "rng", "inputs",
                   "watchdog", "hostDevices", "gpus", "disks", "interfaces"}
  {
    SpecHasOnly(kv, opts, files);
    GuestHasOnly(kv, opts, files);
    DomainHasOnly(kv, opts, files);
    DevicesObjectIs(kv, opts, files);
    DeviceKeys(GuestOf(kv, opts.requiresExclusive, files));
  }

  lemma ManifestKeys(name: string, namespace: string, spec: Object)
    ensures Manifest(name, namespace, spec).Keys == {"apiVersion", "kind", "metadata", "spec"}
    ensures Sub(Manifest(name, namespace, spec), "spec") == spec
  {
  }

  lemma SpecHasOnly(kv: KubeVirt, opts: RenderOptions, files: CloudFiles)
    ensures var cr := CrFor(kv, opts, files);
            && cr.Keys == {"apiVersion", "kind", "metadata", "spec"}
            && Sub(cr, "spec").Keys
               <= {"template", "runStrategy", "evictionStrategy", "terminationGracePeriodSeconds",
                   "dataVolumeTemplates"}
  {
    var v := Normalize(kv, opts, files);
    ManifestKeys(v.name, v.namespace, SpecObject(v));
    SpecKeys(PodTemplate(v.name, GuestObject(v.guest)), v.runStrategy, v.evictionStrategy, v.gracePeriod,
             Templates(v.guest.boot));
  }

  lemma GuestHasOnly(kv: KubeVirt, opts: RenderOptions, files: CloudFiles)
    ensures GuestIn(CrFor(kv, opts, files)).Keys
         <= {"domain", "volumes", "networks", "migration", "nodeSelector", "affinity", "instancetype"}
  {
    var g := GuestOf(kv, opts.requiresExclusive, files);
    GuestOfCr(kv, opts, files);
    GuestKeys(DomainObject(g), Volumes(g), Build(MigrationSlots(g.migration)), StringMap(g.nodeSelector), g.affinity,
              Build(MatcherSlots(g.instancetype, g.preference)));
  }

  lemma DomainHasOnly(kv: KubeVirt, opts: RenderOptions, files: CloudFiles)
    ensures var domain := Sub(GuestIn(CrFor(kv, opts, files)), "domain");
            && domain.Keys <= {"machine", "firmware", "features", "cpu", "resources", "devices"}
            && Sub(domain, "cpu").Keys <= {"cores", "sockets", "threads", "model", "dedicatedCpuPlacement"}
  {
    var g := GuestOf(kv, opts.requiresExclusive, files);
    GuestOfCr(kv, opts, files);
    GuestParts(g);
    DomainParts(g);
    HardwareKeys(g.hardware, Some(Obj(DevicesObject(g))));
  }

  /** When there is no CR: cloud-init without a distro or a user, or whose renderer failed, in that order. */
  lemma RenderingFailsWith(kv: KubeVirt, opts: RenderOptions, files: Result<CloudFiles, string>)
    ensures var failure := RenderFailure(kv, opts, files);
            && (failure == None <==> !kv.hasCloudInit || (opts.distro != "" && opts.sshUser != "" && files.Ok?))
            && (failure == Some(NoDistro) <==> kv.hasCloudInit && opts.distro == "")
            && (failure == Some(NoSshUser) <==> kv.hasCloudInit && opts.distro != "" && opts.sshUser == "")
  {
  }
}
