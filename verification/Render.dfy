/**
 The renderers of render.go, filling their maps key by key. Each is proved to build the CR of the
 normal form, which is what ties its key names, defaults and omissions to Decode.
 */
module Render {
  import opened Entity
  import opened Gpus
  import opened JsonValues
  import opened NormalForm
  import opened Wrappers

  method AppendSlice(existing: Option<Json>, v: Json) returns (r: seq<Json>)
    ensures r == (if existing.Some? && existing.value.Arr? then existing.value.items else []) + [v]
  {
    if existing.Some? && existing.value.Arr? {
      return existing.value.items + [v];
    }
    r := [v];
  }

  method RenderCPU(cpu: Cpu) returns (out: Object)
    ensures out == Build(CpuSlots(CpuOf(cpu)))
  {
    out := map[];
    if cpu.cores > 0 { out := out["cores" := Num(cpu.cores)]; }
    if cpu.sockets > 0 { out := out["sockets" := Num(cpu.sockets)]; }
    if cpu.threads > 0 { out := out["threads" := Num(cpu.threads)]; }
    if cpu.model != "" { out := out["model" := Str(cpu.model)]; }
    if cpu.dedicated { out := out["dedicatedCpuPlacement" := Bool(true)]; }
    ghost var slots := CpuSlots(CpuOf(cpu));
    Build5(slots[0], slots[1], slots[2], slots[3], slots[4]);
  }

  method RenderFirmware(fw: Firmware) returns (out: Object)
    ensures Obj(out) == FirmwareJson(FirmwareOf(fw))
  {
    if fw.bootloader == "efi" {
      return map["bootloader" := Obj(map["efi" := Obj(map["secureBoot" := Bool(fw.efiSecureBoot)])])];
    }
    out := map["bootloader" := Obj(map["bios" := Obj(map[])])];
  }

  method RenderMigration(m: Migration) returns (out: Object)
    ensures out == Build(MigrationSlots(m))
  {
    out := map[];
    if m.autoConverge { out := out["allowAutoConverge" := Bool(true)]; }
    if m.postCopy { out := out["allowPostCopy" := Bool(true)]; }
    if m.bandwidth != "" { out := out["bandwidthPerMigration" := Str(m.bandwidth)]; }
    ghost var slots := MigrationSlots(m);
    Build3(slots[0], slots[1], slots[2]);
  }

  /* ----- the domain ----- */

  /** One more element in a list that is absent while empty. */
  lemma ListGrows(base: Object, key: string, items: seq<Json>, v: Json)
    requires key !in base
    ensures Get(Set(base, ListSlot(key, items)), key) == When(items != [], Arr(items))
    ensures Set(base, ListSlot(key, items))[key := Arr(items + [v])] == Set(base, ListSlot(key, items + [v]))
  {
  }

  lemma ListedGrows<T>(f: T -> Json, xs: seq<T>, i: nat)
    requires i < |xs|
    ensures Listed(f, xs[..i + 1]) == Listed(f, xs[..i]) + [f(xs[i])]
  {
  }

  method AppendInputs(base: Object, inputs: seq<Input>) returns (devices: Object)
    requires "inputs" !in base
    ensures devices == Set(base, ListSlot("inputs", Listed(InputJson, inputs)))
  {
    devices := base;
    for i := 0 to |inputs|
      invariant devices == Set(base, ListSlot("inputs", Listed(InputJson, inputs[..i])))
    {
      var entry := map["type" := Str(inputs[i].kind)];
      if inputs[i].bus != "" { entry := entry["bus" := Str(inputs[i].bus)]; }
      ListGrows(base, "inputs", Listed(InputJson, inputs[..i]), Obj(entry));
      ListedGrows(InputJson, inputs, i);
      var list := AppendSlice(Get(devices, "inputs"), Obj(entry));
      devices := devices["inputs" := Arr(list)];
    }
    assert inputs[..|inputs|] == inputs;
  }

  method AppendDisks(base: Object, disks: seq<Json>) returns (devices: Object)
    requires "disks" !in base
    ensures devices == Set(base, ListSlot("disks", disks))
  {
    devices := base;
    for i := 0 to |disks|
      invariant devices == Set(base, ListSlot("disks", disks[..i]))
    {
      ListGrows(base, "disks", disks[..i], disks[i]);
      assert disks[..i + 1] == disks[..i] + [disks[i]];
      var list := AppendSlice(Get(devices, "disks"), disks[i]);
      devices := devices["disks" := Arr(list)];
    }
    assert disks[..|disks|] == disks;
  }

  method AppendHostDevices(base: Object, hostDevices: seq<HostDevice>) returns (devices: Object)
    requires "hostDevices" !in base
    ensures devices == Set(base, ListSlot("hostDevices", Listed(HostDeviceJson, hostDevices)))
  {
    devices := base;
    for i := 0 to |hostDevices|
      invariant devices == Set(base, ListSlot("hostDevices", Listed(HostDeviceJson, hostDevices[..i])))
    {
      var entry := map["deviceName" := Str(hostDevices[i].deviceName)];
      if hostDevices[i].name != "" { entry := entry["name" := Str(hostDevices[i].name)]; }
      ListGrows(base, "hostDevices", Listed(HostDeviceJson, hostDevices[..i]), Obj(entry));
      ListedGrows(HostDeviceJson, hostDevices, i);
      var list := AppendSlice(Get(devices, "hostDevices"), Obj(entry));
      devices := devices["hostDevices" := Arr(list)];
    }
    assert hostDevices[..|hostDevices|] == hostDevices;
  }

  method GpuEntries(gpus: seq<Gpu>) returns (entries: seq<Json>)
    ensures entries == Listed(GpuJson, gpus)
  {
    entries := [];
    for i := 0 to |gpus|
      invariant entries == Listed(GpuJson, gpus[..i])
    {
      var entry: Object := map[];
      if gpus[i].resourceName != "" { entry := entry["resourceName" := Str(gpus[i].resourceName)]; }
      if gpus[i].deviceName != "" { entry := entry["deviceName" := Str(gpus[i].deviceName)]; }
      ListedGrows(GpuJson, gpus, i);
      entries := entries + [Obj(entry)];
    }
    assert gpus[..|gpus|] == gpus;
  }

  method RenderSwitches(d: Devices) returns (devices: Object)
    ensures devices == Build(SwitchSlots(d.podInterface, d.graphicsDevice, d.serialConsole, d.rng))
  {
    devices := map[];
    if d.podInterface { devices := devices["autoattachPodInterface" := Bool(true)]; }
    if d.graphicsDevice { devices := devices["autoattachGraphicsDevice" := Bool(true)]; }
    if d.serialConsole { devices := devices["autoattachSerialConsole" := Bool(true)]; }
    if d.rng { devices := devices["rng" := Obj(map[])]; }
    ghost var slots := SwitchSlots(d.podInterface, d.graphicsDevice, d.serialConsole, d.rng);
    Build4(slots[0], slots[1], slots[2], slots[3]);
  }

  method RenderWatchdog(w: Watchdog) returns (wd: Json)
    ensures wd == WatchdogJson(w)
  {
    var o := map["name" := Str("watchdog"), "model" := Str(w.model)];
    if w.action != "" { o := o["action" := Str(w.action)]; }
    wd := Obj(o);
  }

  /** What renderDomain leaves in devices: the declared ones, the extra disks among them. */
  function BlockSlots(switches: seq<Slot>, inputs: seq<Json>, watchdog: Option<Json>, disks: seq<Json>,
                      hostDevices: seq<Json>)
    : seq<Slot>
  {
    switches + [ListSlot("inputs", inputs)] + [Slot("watchdog", watchdog)] + [ListSlot("disks", disks)]
    + [ListSlot("hostDevices", hostDevices)]
  }

  lemma BlockGrows(podInterface: bool, graphicsDevice: bool, serialConsole: bool, rng: bool, inputs: seq<Json>,
                   watchdog: Option<Json>, disks: seq<Json>, hostDevices: seq<Json>)
    ensures var switches := SwitchSlots(podInterface, graphicsDevice, serialConsole, rng);
            var o0 := Build(switches);
            var o1 := Set(Set(o0, ListSlot("inputs", inputs)), Slot("watchdog", watchdog));
            var o2 := Set(o1, ListSlot("disks", disks));
            && "inputs" !in o0 && "disks" !in o1 && "hostDevices" !in o2
            && Set(o2, ListSlot("hostDevices", hostDevices))
               == Build(BlockSlots(switches, inputs, watchdog, disks, hostDevices))
  {
    var s0 := SwitchSlots(podInterface, graphicsDevice, serialConsole, rng);
    var s1 := s0 + [ListSlot("inputs", inputs)];
    var s2 := s1 + [Slot("watchdog", watchdog)];
    var s3 := s2 + [ListSlot("disks", disks)];
    Appended(s0, ListSlot("inputs", inputs));
    Appended(s1, Slot("watchdog", watchdog));
    Appended(s2, ListSlot("disks", disks));
    Appended(s3, ListSlot("hostDevices", hostDevices));
    HasOnly(s0, "inputs");
    HasOnly(s2, "disks");
    HasOnly(s3, "hostDevices");
  }

  function BlockOf(d: Devices): Object {
    Build(BlockSlots(SwitchSlots(d.podInterface, d.graphicsDevice, d.serialConsole, d.rng), Listed(InputJson, d.inputs),
                     WatchdogValue(d.watchdog), d.disks, Listed(HostDeviceJson, d.hostDevices)))
  }

  method RenderDeviceBlock(d: Devices) returns (devices: Object)
    ensures devices == BlockOf(d)
  {
    BlockGrows(d.podInterface, d.graphicsDevice, d.serialConsole, d.rng, Listed(InputJson, d.inputs),
               WatchdogValue(d.watchdog), d.disks,
               Listed(HostDeviceJson, d.hostDevices));
    devices := RenderSwitches(d);
    devices := AppendInputs(devices, d.inputs);
    if d.watchdog.Some? {
      var wd := RenderWatchdog(d.watchdog.value);
      devices := devices["watchdog" := wd];
    }
    devices := AppendDisks(devices, d.disks);
    devices := AppendHostDevices(devices, d.hostDevices);
  }

  /** The devices renderDomain attaches: the block, if any, and the GPUs. */
  function DomainDevices(kv: KubeVirt, requiresExclusive: seq<string>): Object {
    Set(if kv.devices.Some? then BlockOf(kv.devices.value) else map[],
        ListSlot("gpus", Listed(GpuJson, GpusOf(kv, requiresExclusive))))
  }

  function DomainOf(h: HardwareForm, devices: Option<Json>): Object {
    Build(DomainSlots(MachineValue(h), FirmwareValue(h), FeaturesValue(h), CpuValue(h), ResourcesValue(h), devices))
  }

  method RenderHardware(kv: KubeVirt) returns (domain: Object)
    ensures domain == DomainOf(HardwareOf(kv), None)
  {
    domain := map[];
    if kv.machine != "" { domain := domain["machine" := Obj(map["type" := Str(kv.machine)])]; }
    if kv.firmware.Some? {
      var firmware := RenderFirmware(kv.firmware.value);
      domain := domain["firmware" := Obj(firmware)];
      if kv.firmware.value.bootloader == "efi" && kv.firmware.value.efiSecureBoot {
        domain := domain["features" := Obj(map["smm" := Obj(map["enabled" := Bool(true)])])];
      }
    }
    if kv.cpu.Some? {
      var cpu := RenderCPU(kv.cpu.value);
      domain := domain["cpu" := Obj(cpu)];
    }
    if kv.memory != "" {
      domain := domain["resources" := Obj(map["requests" := Obj(map["memory" := Str(kv.memory)])])];
    }
    ghost var h := HardwareOf(kv);
    ghost var slots := DomainSlots(MachineValue(h), FirmwareValue(h), FeaturesValue(h), CpuValue(h), ResourcesValue(h),
                                   None);
    Build6(slots[0], slots[1], slots[2], slots[3], slots[4], slots[5]);
  }

  /** The last slot of the domain, whatever it held, can be assigned afterwards. */
  lemma DevicesAreAssigned(h: HardwareForm, before: Option<Json>, devices: Json)
    ensures DomainOf(h, before)["devices" := devices] == DomainOf(h, Some(devices))
  {
    var m, fw, ft, cpu, r := MachineValue(h), FirmwareValue(h), FeaturesValue(h), CpuValue(h), ResourcesValue(h);
    var before6, after6 := DomainSlots(m, fw, ft, cpu, r, before), DomainSlots(m, fw, ft, cpu, r, Some(devices));
    assert before6[..5] + [before6[5]] == before6 && before6[..5] + [after6[5]] == after6;
    Appended(before6[..5], before6[5]);
    Appended(before6[..5], after6[5]);
  }

  method RenderDomain(kv: KubeVirt, opts: RenderOptions) returns (domain: Object)
    ensures var devices := DomainDevices(kv, opts.requiresExclusive);
            domain == DomainOf(HardwareOf(kv), When(devices != map[], Obj(devices)))
  {
    domain := RenderHardware(kv);
    var devices: Object := map[];
    if kv.devices.Some? {
      devices := RenderDeviceBlock(kv.devices.value);
    }
    var gpus := kv.gpus;
    if gpus == [] && opts.requiresExclusive != [] {
      gpus := GPUsFromRequiresExclusive(opts.requiresExclusive);
    }
    if gpus != [] {
      var entries := GpuEntries(gpus);
      devices := devices["gpus" := Arr(entries)];
    }
    if devices != map[] {
      domain := domain["devices" := Obj(devices)];
      DevicesAreAssigned(HardwareOf(kv), None, Obj(devices));
    }
  }

  /* ----- storage and network ----- */

  method RenderStorage(source: Source) returns (volumes: seq<Json>, networks: seq<Json>, disks: seq<Json>)
    ensures volumes == BootVolumes(BootOf(source)) && networks == [POD_NETWORK] && disks == [BOOT_DISK]
  {
    volumes := [];
    if source.kind == "container_disk" {
      var cd: Object := map["image" := Str(source.image)];
      if source.pullPolicy != "" { cd := cd["imagePullPolicy" := Str(source.pullPolicy)]; }
      if source.pullSecret != "" { cd := cd["imagePullSecret" := Str(source.pullSecret)]; }
      if source.diskPathInImage != "" { cd := cd["path" := Str(source.diskPathInImage)]; }
      ghost var slots := ContainerDiskSlots(BootOf(source));
      Build4(slots[0], slots[1], slots[2], slots[3]);
      volumes := volumes + [Obj(map["name" := Str("boot"), "containerDisk" := Obj(cd)])];
    } else if source.kind == "data_volume" || source.kind == "clone" {
      volumes := volumes + [Obj(map["name" := Str("boot"), "dataVolume" := Obj(map["name" := Str("boot")])])];
    } else if source.kind == "pvc" {
      volumes := volumes + [Obj(map["name" := Str("boot"),
                                    "persistentVolumeClaim" := Obj(map["claimName" := Str(source.pvc)])])];
    }
    disks := [Obj(map["name" := Str("boot"), "disk" := Obj(map["bus" := Str("virtio")])])];
    networks := [Obj(map["name" := Str("default"), "pod" := Obj(map[])])];
  }

  method RenderInterfaces(network: Option<Network>) returns (r: seq<Json>)
    ensures r == [InterfaceJson(InterfaceOf(network), ModelOf(network))]
  {
    var iface, model := "masquerade", "virtio";
    if network.Some? {
      if network.value.iface != "" { iface := network.value.iface; }
      if network.value.model != "" { model := network.value.model; }
    }
    var entry: Object := map["name" := Str("default"), "model" := Str(model)];
    if iface == "bridge" {
      entry := entry["bridge" := Obj(map[])];
    } else if iface != "pod" {
      entry := entry["masquerade" := Obj(map[])];
    }
    r := [Obj(entry)];
  }

  datatype RenderError = NoDistro | NoSshUser | CloudInitFailed(message: string)

  /** files is the outcome of the shared cloud-init renderer. */
  method RenderCloudInitVolume(opts: RenderOptions, files: Result<CloudFiles, string>)
    returns (r: Result<Json, RenderError>)
    ensures r == if opts.distro == "" then Err(NoDistro)
                 else if opts.sshUser == "" then Err(NoSshUser)
                 else if files.Err? then Err(CloudInitFailed(files.error))
                 else Ok(CloudVolume(files.value))
  {
    if opts.distro == "" { return Err(NoDistro); }
    if opts.sshUser == "" { return Err(NoSshUser); }
    if files.Err? { return Err(CloudInitFailed(files.error)); }
    var noCloud: Object := map[];
    if files.value.userData != "" { noCloud := noCloud["userData" := Str(files.value.userData)]; }
    noCloud := noCloud["metaData" := Str(files.value.metaData)];
    if files.value.networkData != "" { noCloud := noCloud["networkData" := Str(files.value.networkData)]; }
    ghost var slots := CloudSlots(files.value);
    Build3(slots[0], slots[1], slots[2]);
    r := Ok(Obj(map["name" := Str("cloudinitdisk"), "cloudInitNoCloud" := Obj(noCloud)]));
  }

  method RenderDataVolumeStorage(source: Source) returns (storage: Object)
    ensures storage == Build(StorageSlots(TemplateOf(source)))
  {
    storage := map[];
    if source.size != "" {
      storage := storage["resources" := Obj(map["requests" := Obj(map["storage" := Str(source.size)])])];
    }
    if source.storageClass != "" { storage := storage["storageClassName" := Str(source.storageClass)]; }
    if source.contentType != "" { storage := storage["contentType" := Str(source.contentType)]; }
    ghost var slots := StorageSlots(TemplateOf(source));
    Build3(slots[0], slots[1], slots[2]);
  }

  /** The spec both DataVolume renderers fill. */
  method RenderDataVolumeSpec(source: Source) returns (spec: Object)
    requires IsDataVolumeKind(source.kind)
    ensures spec == Build(TemplateSlots(TemplateOf(source)))
  {
    spec := map[];
    if source.kind == "data_volume" && source.dataVolume != map[] {
      spec := spec["source" := Obj(source.dataVolume)];
    } else if source.kind == "clone" && source.cloneFrom.Some? {
      spec := spec["source" := Obj(map["PVC" := Obj(map["name" := Str(source.cloneFrom.value)])])];
    }
    var storage := RenderDataVolumeStorage(source);
    if storage != map[] { spec := spec["storage" := Obj(storage)]; }
    ghost var slots := TemplateSlots(TemplateOf(source));
    Build2(slots[0], slots[1]);
  }

  method RenderDataVolumeTemplates(source: Source) returns (templates: seq<Json>)
    ensures templates == Templates(BootOf(source))
  {
    if source.kind != "data_volume" && source.kind != "clone" {
      return [];
    }
    var spec := RenderDataVolumeSpec(source);
    templates := [Obj(map["metadata" := Obj(map["name" := Str("boot")]), "spec" := Obj(spec)])];
  }

  /** The standalone CR of a form that boots from a DataVolume. */
  function Standalone(name: string, namespace: string, b: BootForm): Option<Object> {
    if !b.DataVolume? then None
    else Some(map["apiVersion" := Str("cdi.kubevirt.io/v1beta1"), "kind" := Str("DataVolume"),
                  "metadata" := Obj(map["name" := Str(name + "-dv"), "namespace" := Str(OrElse(namespace, "default"))]),
                  "spec" := Obj(Build(TemplateSlots(b.template)))])
  }

  method RenderDataVolume(name: string, namespace: string, source: Source) returns (r: Option<Object>)
    ensures r == Standalone(name, namespace, BootOf(source))
  {
    var ns := if namespace == "" then "default" else namespace;
    if source.kind != "data_volume" && source.kind != "clone" {
      return None;
    }
    var spec := RenderDataVolumeSpec(source);
    r := Some(map["apiVersion" := Str("cdi.kubevirt.io/v1beta1"), "kind" := Str("DataVolume"),
                  "metadata" := Obj(map["name" := Str(name + "-dv"), "namespace" := Str(ns)]), "spec" := Obj(spec)]);
  }

  /* ----- the whole VirtualMachine ----- */

  lemma StorageIsAdded(switches: seq<Slot>, inputs: seq<Json>, watchdog: Option<Json>, disks: seq<Json>,
                       hostDevices: seq<Json>,
                       gpus: seq<Json>, all: seq<Json>, interfaces: seq<Json>)
    requires all != [] && interfaces != []
    ensures var declared := Set(Build(BlockSlots(switches, inputs, watchdog, disks, hostDevices)),
                                ListSlot("gpus", gpus));
            declared["disks" := Arr(all)]["interfaces" := Arr(interfaces)]
            == Build(switches + [ListSlot("inputs", inputs), Slot("watchdog", watchdog),
                                 ListSlot("hostDevices", hostDevices),
                                 ListSlot("gpus", gpus)] + AddedSlots(all, interfaces))
  {
    var before := switches + [ListSlot("inputs", inputs)] + [Slot("watchdog", watchdog)];
    var after := [ListSlot("hostDevices", hostDevices), ListSlot("gpus", gpus)];
    var added := AddedSlots(all, interfaces);
    var block := BlockSlots(switches, inputs, watchdog, disks, hostDevices);
    assert block + [ListSlot("gpus", gpus)] == before + [ListSlot("disks", disks)] + after;
    Appended(block, ListSlot("gpus", gpus));
    Overridden(before, ListSlot("disks", disks), after, Arr(all));
    Appended(before + after, added[0]);
    Appended(before + after + [added[0]], added[1]);
    assert before + after + [added[0]] + [added[1]]
        == switches + [ListSlot("inputs", inputs), Slot("watchdog", watchdog), ListSlot("hostDevices", hostDevices),
                       ListSlot("gpus", gpus)] + added;
  }

  lemma BlockDisksAreRead(podInterface: bool, graphicsDevice: bool, serialConsole: bool, rng: bool, inputs: seq<Json>,
                          watchdog: Option<Json>, disks: seq<Json>, hostDevices: seq<Json>, gpus: seq<Json>)
    ensures var switches := SwitchSlots(podInterface, graphicsDevice, serialConsole, rng);
            Items(Set(Build(BlockSlots(switches, inputs, watchdog, disks, hostDevices)), ListSlot("gpus", gpus)),
                  "disks") == disks
  {
    var block := BlockSlots(SwitchSlots(podInterface, graphicsDevice, serialConsole, rng), inputs, watchdog, disks,
                            hostDevices);
    assert Distinct(block);
    assert block[6] == ListSlot("disks", disks);
    Reads(block, 6);
  }

  lemma EmptyBlock()
    ensures BlockOf(NO_DEVICES) == map[]
  {
    BlockGrows(false, false, false, false, [], None, [], []);
    var slots := SwitchSlots(false, false, false, false);
    Build4(slots[0], slots[1], slots[2], slots[3]);
    assert Listed(InputJson, []) == [] && Listed(HostDeviceJson, []) == [];
  }

  /** A nil device block is an empty one. */
  lemma DomainDevicesAre(kv: KubeVirt, requiresExclusive: seq<string>)
    ensures var d := if kv.devices.Some? then kv.devices.value else NO_DEVICES;
            DomainDevices(kv, requiresExclusive)
                == Set(BlockOf(d), ListSlot("gpus", Listed(GpuJson, GpusOf(kv, requiresExclusive))))
  {
    EmptyBlock();
  }

  lemma AttachedDevices(kv: KubeVirt, requiresExclusive: seq<string>, g: GuestForm)
    requires g.devices == DevicesOf(kv, requiresExclusive)
    ensures var devices := DomainDevices(kv, requiresExclusive);
            && Items(devices, "disks") == g.devices.disks
            && devices["disks" := Arr(g.devices.disks + [BOOT_DISK])]
                      ["interfaces" := Arr([InterfaceJson(g.iface, g.model)])]
               == DevicesObject(g)
  {
    var d := if kv.devices.Some? then kv.devices.value else NO_DEVICES;
    var f := g.devices;
    DomainDevicesAre(kv, requiresExclusive);
    BlockDisksAreRead(d.podInterface, d.graphicsDevice, d.serialConsole, d.rng, Listed(InputJson, d.inputs),
                      WatchdogValue(d.watchdog), d.disks,
                      Listed(HostDeviceJson, d.hostDevices), Listed(GpuJson, f.gpus));
    StorageIsAdded(SwitchSlots(d.podInterface, d.graphicsDevice, d.serialConsole, d.rng), Listed(InputJson, d.inputs),
                   WatchdogValue(d.watchdog),
                   d.disks, Listed(HostDeviceJson, d.hostDevices), Listed(GpuJson, f.gpus), d.disks + [BOOT_DISK],
                   [InterfaceJson(g.iface, g.model)]);
  }

  lemma DomainDevicesAreRead(h: HardwareForm, devices: Object)
    ensures Sub(DomainOf(h, When(devices != map[], Obj(devices))), "devices") == devices
  {
    DomainIsRead(MachineValue(h), FirmwareValue(h), FeaturesValue(h), CpuValue(h), ResourcesValue(h),
                 When(devices != map[], Obj(devices)));
  }

  /** renderDomain, with the boot disk after the disks already there and the interface attached. */
  method RenderGuestDomain(kv: KubeVirt, opts: RenderOptions, disks: seq<Json>, ghost g: GuestForm)
    returns (domain: Object)
    requires disks == [BOOT_DISK]
    requires g.hardware == HardwareOf(kv) && g.devices == DevicesOf(kv, opts.requiresExclusive)
    requires g.iface == InterfaceOf(kv.network) && g.model == ModelOf(kv.network)
    ensures domain == DomainObject(g)
  {
    domain := RenderDomain(kv, opts);
    DomainDevicesAreRead(g.hardware, DomainDevices(kv, opts.requiresExclusive));
    AttachedDevices(kv, opts.requiresExclusive, g);
    DevicesAreAssigned(g.hardware, Get(domain, "devices"), Obj(DevicesObject(g)));
    var devices := Sub(domain, "devices");
    var existing := Items(devices, "disks");
    devices := devices["disks" := Arr(existing + disks)];
    var interfaces := RenderInterfaces(kv.network);
    devices := devices["interfaces" := Arr(interfaces)];
    ghost var declared := DomainDevices(kv, opts.requiresExclusive);
    DevicesAreAssigned(g.hardware, When(declared != map[], Obj(declared)), Obj(devices));
    domain := domain["devices" := Obj(devices)];
  }

  /** A nil migration block, like an empty one, renders nothing. */
  method RenderMigrationBlock(m: Option<Migration>) returns (out: Object)
    ensures out == Build(MigrationSlots(if m.Some? then m.value else NO_MIGRATION))
  {
    if m.Some? {
      out := RenderMigration(m.value);
    } else {
      out := map[];
      ghost var slots := MigrationSlots(NO_MIGRATION);
      Build3(slots[0], slots[1], slots[2]);
    }
  }

  method RenderMatchers(instancetype: string, preference: string) returns (matchers: Object)
    ensures matchers == Build(MatcherSlots(instancetype, preference))
    ensures matchers != map[] <==> instancetype != "" || preference != ""
  {
    matchers := map[];
    if instancetype != "" {
      matchers := matchers["kind" := Str("VirtualMachineInstancetype")];
      matchers := matchers["name" := Str(instancetype)];
    }
    if preference != "" {
      matchers := matchers["preference" := Obj(map["kind" := Str("VirtualMachinePreference"),
                                                   "name" := Str(preference)])];
    }
    assert instancetype != "" || preference != "" ==> "name" in matchers || "preference" in matchers;
    ghost var slots := MatcherSlots(instancetype, preference);
    Build3(slots[0], slots[1], slots[2]);
  }

  method RenderPlacement(base: Object, migration: Object, nodeSelector: map<string, string>, affinity: Object,
                         matchers: Object)
    returns (guest: Object)
    ensures guest == Set(Set(Set(Set(base, ObjectSlot("migration", migration)),
                                 ObjectSlot("nodeSelector", StringMap(nodeSelector))),
                             ObjectSlot("affinity", affinity)), ObjectSlot("instancetype", matchers))
  {
    assert nodeSelector == map[] <==> StringMap(nodeSelector) == map[] by {
      assert StringMap(nodeSelector).Keys == nodeSelector.Keys;
    }
    guest := base;
    if migration != map[] { guest := guest["migration" := Obj(migration)]; }
    if nodeSelector != map[] { guest := guest["nodeSelector" := Obj(StringMap(nodeSelector))]; }
    if affinity != map[] { guest := guest["affinity" := Obj(affinity)]; }
    if matchers != map[] { guest := guest["instancetype" := Obj(matchers)]; }
  }

  /** spec.template.spec */
  method RenderGuest(kv: KubeVirt, opts: RenderOptions, volumes: seq<Json>, networks: seq<Json>, disks: seq<Json>,
                     ghost cloud: CloudFiles)
    returns (guest: Object)
    requires volumes == Volumes(GuestOf(kv, opts.requiresExclusive, cloud))
    requires networks == [POD_NETWORK] && disks == [BOOT_DISK]
    ensures guest == GuestObject(GuestOf(kv, opts.requiresExclusive, cloud))
  {
    var domain := RenderGuestDomain(kv, opts, disks, GuestOf(kv, opts.requiresExclusive, cloud));
    guest := map["domain" := Obj(domain)];
    if volumes != [] { guest := guest["volumes" := Arr(volumes)]; }
    if networks != [] { guest := guest["networks" := Arr(networks)]; }
    var migration := RenderMigrationBlock(kv.migration);
    var matchers := RenderMatchers(kv.instancetype, kv.preference);
    guest := RenderPlacement(guest, migration, kv.nodeSelector, kv.affinity, matchers);
    Build7(Slot("domain", Some(Obj(domain))), ListSlot("volumes", volumes), ListSlot("networks", [POD_NETWORK]),
           ObjectSlot("migration", migration), ObjectSlot("nodeSelector", StringMap(kv.nodeSelector)),
           ObjectSlot("affinity", kv.affinity), ObjectSlot("instancetype", matchers));
  }

  method RenderSpec(kv: KubeVirt, name: string, guest: Object) returns (spec: Object)
    ensures spec == Build(SpecSlots(PodTemplate(name, guest), OrElse(kv.runStrategy, "Always"), kv.evictionStrategy,
                                    Count(kv.gracePeriod), Templates(BootOf(kv.source))))
  {
    spec := map["template" := PodTemplate(name, guest)];
    var runStrategy := kv.runStrategy;
    if runStrategy == "" { runStrategy := "Always"; }
    spec := spec["runStrategy" := Str(runStrategy)];
    if kv.evictionStrategy != "" { spec := spec["evictionStrategy" := Str(kv.evictionStrategy)]; }
    if kv.gracePeriod > 0 { spec := spec["terminationGracePeriodSeconds" := Num(kv.gracePeriod)]; }
    var templates := RenderDataVolumeTemplates(kv.source);
    if templates != [] { spec := spec["dataVolumeTemplates" := Arr(templates)]; }
    ghost var slots := SpecSlots(PodTemplate(name, guest), OrElse(kv.runStrategy, "Always"), kv.evictionStrategy,
                                 Count(kv.gracePeriod),
                           templates);
    Build5(slots[0], slots[1], slots[2], slots[3], slots[4]);
  }

  /** When rendering fails, and with what. */
  function RenderFailure(kv: KubeVirt, opts: RenderOptions, files: Result<CloudFiles, string>): Option<RenderError> {
    if !kv.hasCloudInit then None
    else if opts.distro == "" then Some(NoDistro)
    else if opts.sshUser == "" then Some(NoSshUser)
    else if files.Err? then Some(CloudInitFailed(files.error))
    else None
  }

  const NO_FILES := CloudFiles("", "", "")

  function FilesOf(files: Result<CloudFiles, string>): CloudFiles {
    if files.Ok? then files.value else NO_FILES
  }

  /** The boot volume, and after it the cloud-init one. */
  method RenderVolumes(kv: KubeVirt, opts: RenderOptions, files: Result<CloudFiles, string>)
    returns (r: Result<seq<Json>, RenderError>, networks: seq<Json>, disks: seq<Json>)
    ensures networks == [POD_NETWORK] && disks == [BOOT_DISK]
    ensures match RenderFailure(kv, opts, files)
            case Some(e) => r == Err(e)
            case None =>
              r == Ok(BootVolumes(BootOf(kv.source)) + if kv.hasCloudInit then [CloudVolume(FilesOf(files))] else [])
  {
    var volumes: seq<Json>;
    volumes, networks, disks := RenderStorage(kv.source);
    assert volumes + [] == volumes;
    r := Ok(volumes);
    if kv.hasCloudInit {
      var ci := RenderCloudInitVolume(opts, files);
      r := if ci.Err? then Err(ci.error) else Ok(volumes + [ci.value]);
    }
  }

  method RenderVirtualMachine(kv: KubeVirt, opts: RenderOptions, files: Result<CloudFiles, string>)
    returns (r: Result<Object, RenderError>)
    ensures r == match RenderFailure(kv, opts, files)
                 case Some(e) => Err(e)
                 case None => Ok(Encode(Normalize(kv, opts, FilesOf(files))))
  {
    var namespace := if opts.namespace == "" then "default" else opts.namespace;
    var volumes, networks, disks := RenderVolumes(kv, opts, files);
    if volumes.Err? { return Err(volumes.error); }
    var guest := RenderGuest(kv, opts, volumes.value, networks, disks, FilesOf(files));
    var spec := RenderSpec(kv, opts.name, guest);
    r := Ok(Manifest(opts.name, namespace, spec));
  }

  /* ----- what the renderer's output says ----- */

  /**
   A CR decodes to the normal form of what it was rendered from; so two renderings agree exactly when
   their normal forms do.
   */
  lemma RenderingIsFaithful(a: KubeVirt, aOpts: RenderOptions, aFiles: CloudFiles, b: KubeVirt, bOpts: RenderOptions,
                            bFiles: CloudFiles)
    ensures var v, w := Normalize(a, aOpts, aFiles), Normalize(b, bOpts, bFiles);
            Decode(Encode(v)) == v && (Encode(v) == Encode(w) <==> v == w)
  {
    EncodeIsInjective(Normalize(a, aOpts, aFiles), Normalize(b, bOpts, bFiles));
    DecodeUndoesEncode(Normalize(a, aOpts, aFiles));
  }

  function GuestIn(cr: Object): Object {
    Sub(Sub(Sub(cr, "spec"), "template"), "spec")
  }

  function TemplatesIn(cr: Object): seq<Json> {
    Items(Sub(cr, "spec"), "dataVolumeTemplates")
  }

  function NameOf(item: Json): string {
    Text(Members(Some(item)), "name")
  }

  lemma CrParts(v: VmForm)
    ensures GuestIn(Encode(v)) == GuestObject(v.guest) && TemplatesIn(Encode(v)) == Templates(v.guest.boot)
    ensures Text(Sub(Encode(v), "spec"), "runStrategy") == v.runStrategy
    ensures Text(Sub(Encode(v), "metadata"), "name") == v.name
  {
    var guest := GuestObject(v.guest);
    ManifestIsRead(v.name, v.namespace, SpecObject(v));
    SpecIsRead(PodTemplate(v.name, guest), v.runStrategy, v.evictionStrategy, v.gracePeriod, Templates(v.guest.boot));
    TemplateIsRead(v.name, guest, SpecObject(v));
  }

  lemma GuestParts(g: GuestForm)
    ensures var o := GuestObject(g);
            && Items(o, "volumes") == Volumes(g) && Items(o, "networks") == [POD_NETWORK]
            && Sub(o, "domain") == DomainObject(g)
               && Sub(o, "instancetype") == Build(MatcherSlots(g.instancetype, g.preference))
  {
    GuestIsRead(DomainObject(g), Volumes(g), Build(MigrationSlots(g.migration)), StringMap(g.nodeSelector), g.affinity,
                Build(MatcherSlots(g.instancetype, g.preference)));
  }

  lemma DomainParts(g: GuestForm)
    ensures var o := DomainObject(g);
            && Get(o, "features") == FeaturesValue(g.hardware) && Get(o, "firmware") == FirmwareValue(g.hardware)
            && Get(o, "cpu") == CpuValue(g.hardware) && Sub(o, "devices") == DevicesObject(g)
  {
    var h := g.hardware;
    DomainIsRead(MachineValue(h), FirmwareValue(h), FeaturesValue(h), CpuValue(h), ResourcesValue(h),
                 Some(Obj(DevicesObject(g))));
  }

  lemma DeviceParts(g: GuestForm)
    ensures Items(DevicesObject(g), "disks") == g.devices.disks + [BOOT_DISK]
    ensures Items(DevicesObject(g), "interfaces") == [InterfaceJson(g.iface, g.model)]
  {
    var d := g.devices;
    DevicesAreRead(d.podInterface, d.graphicsDevice, d.serialConsole, d.rng, Listed(InputJson, d.inputs),
                   WatchdogValue(d.watchdog),
                   Listed(HostDeviceJson, d.hostDevices), Listed(GpuJson, d.gpus), d.disks + [BOOT_DISK],
                   [InterfaceJson(g.iface, g.model)]);
  }

  /** The guest of a CR, from the form it renders. */
  lemma GuestOfCr(kv: KubeVirt, opts: RenderOptions, files: CloudFiles)
    ensures GuestIn(Encode(Normalize(kv, opts, files))) == GuestObject(GuestOf(kv, opts.requiresExclusive, files))
    ensures TemplatesIn(Encode(Normalize(kv, opts, files))) == Templates(BootOf(kv.source))
  {
    CrParts(Normalize(kv, opts, files));
  }

  lemma VolumeNames(g: GuestForm)
    ensures |Volumes(g)| == (if g.boot.NoBoot? then 0 else 1) + (if g.cloud.Some? then 1 else 0)
    ensures !g.boot.NoBoot? ==> NameOf(Volumes(g)[0]) == "boot"
    ensures g.cloud.Some? ==> NameOf(Volumes(g)[|Volumes(g)| - 1]) == "cloudinitdisk"
  {
  }

  lemma SourceKindIsKnown(s: Source)
    ensures s.kind in SOURCE_KINDS <==> !BootOf(s).NoBoot?
  {
  }

  function AuthoredDisks(kv: KubeVirt): seq<Json> {
    if kv.devices.Some? then kv.devices.value.disks else []
  }

  predicate DistinctNames(items: seq<Json>) {
    forall i, j | 0 <= i < j < |items| :: NameOf(items[i]) != NameOf(items[j])
  }

  predicate NamesOneOf(name: string, items: seq<Json>) {
    exists i | 0 <= i < |items| :: NameOf(items[i]) == name
  }

  predicate AllNameOneOf(items: seq<Json>, named: seq<Json>) {
    forall i | 0 <= i < |items| :: NamesOneOf(NameOf(items[i]), named)
  }

  /**
   What the renderer adds to a guest spec resolves: volume names are distinct; the given disks keep their
   order and the boot disk, which names a volume, follows them; the interface names the network.
   */
  predicate AddedReferencesResolve(guest: Object, authored: seq<Json>) {
    var volumes, devices := Items(guest, "volumes"), Sub(Sub(guest, "domain"), "devices");
    var networks, interfaces := Items(guest, "networks"), Items(devices, "interfaces");
    && DistinctNames(volumes)
    && Items(devices, "disks") == authored + [BOOT_DISK]
    && NamesOneOf(NameOf(BOOT_DISK), volumes)
    && |interfaces| == |networks| == 1 && NameOf(interfaces[0]) == NameOf(networks[0])
  }

  /** Nothing the renderer adds dangles, in any CR rendered from an entity with a known source kind. */
  lemma NoDanglingReferences(kv: KubeVirt, opts: RenderOptions, files: CloudFiles)
    requires kv.source.kind in SOURCE_KINDS
    ensures AddedReferencesResolve(GuestIn(Encode(Normalize(kv, opts, files))), AuthoredDisks(kv))
  {
    var g := GuestOf(kv, opts.requiresExclusive, files);
    GuestOfCr(kv, opts, files);
    SourceKindIsKnown(kv.source);
    GuestParts(g);
    DomainParts(g);
    DeviceParts(g);
    GuestResolves(GuestObject(g), g);
  }

  lemma GuestResolves(guest: Object, g: GuestForm)
    requires !g.boot.NoBoot?
    requires Items(guest, "volumes") == Volumes(g) && Items(guest, "networks") == [POD_NETWORK]
    requires Items(Sub(Sub(guest, "domain"), "devices"), "disks") == g.devices.disks + [BOOT_DISK]
    requires Items(Sub(Sub(guest, "domain"), "devices"), "interfaces") == [InterfaceJson(g.iface, g.model)]
    ensures AddedReferencesResolve(guest, g.devices.disks)
  {
    VolumeNames(g);
    NameOfInterface(g.iface, g.model);
    BootDiskName();
    assert NameOf(Volumes(g)[0]) == "boot";
  }

  lemma BootDiskName()
    ensures NameOf(BOOT_DISK) == "boot"
  {
  }

  /** The disks of a CR, and the volumes they should name. */
  function DisksIn(cr: Object): seq<Json> {
    Items(Sub(Sub(GuestIn(cr), "domain"), "devices"), "disks")
  }

  function VolumesIn(cr: Object): seq<Json> {
    Items(GuestIn(cr), "volumes")
  }

  predicate IsVolumeName(name: string, hasCloudInit: bool) {
    name == "boot" || (hasCloudInit && name == "cloudinitdisk")
  }

  /**
   The authored disks are copied as they are. So every disk of a CR names a volume exactly when the source
   kind is known and every authored disk is called "boot", or "cloudinitdisk" where there is cloud-init.
   */
  lemma DisksNameVolumesIff(kv: KubeVirt, opts: RenderOptions, files: CloudFiles)
    ensures var cr := Encode(Normalize(kv, opts, files));
            AllNameOneOf(DisksIn(cr), VolumesIn(cr))
            <==> && kv.source.kind in SOURCE_KINDS
                 && forall i | 0 <= i < |AuthoredDisks(kv)| ::
                      IsVolumeName(NameOf(AuthoredDisks(kv)[i]), kv.hasCloudInit)
  {
    DisksAndVolumes(kv, opts, files);
    SourceKindIsKnown(kv.source);
    GuestDisksIff(GuestOf(kv, opts.requiresExclusive, files));
  }

  lemma GuestDisksIff(g: GuestForm)
    ensures AllNameOneOf(g.devices.disks + [BOOT_DISK], Volumes(g))
       <==> && !g.boot.NoBoot?
            && forall i | 0 <= i < |g.devices.disks| :: IsVolumeName(NameOf(g.devices.disks[i]), g.cloud.Some?)
  {
    var authored := g.devices.disks;
    var disks := authored + [BOOT_DISK];
    NamesWithBoot(authored);
    if g.boot.NoBoot? {
      UnknownBootDangles(g);
      assert NameOf(disks[|authored|]) == "boot";
    } else {
      forall i | 0 <= i < |disks|
        ensures NamesOneOf(NameOf(disks[i]), Volumes(g)) <==> IsVolumeName(NameOf(disks[i]), g.cloud.Some?)
      {
        NamesOfVolumes(g, NameOf(disks[i]));
      }
    }
  }

  lemma DisksAndVolumes(kv: KubeVirt, opts: RenderOptions, files: CloudFiles)
    ensures var cr := Encode(Normalize(kv, opts, files));
            && DisksIn(cr) == AuthoredDisks(kv) + [BOOT_DISK]
            && VolumesIn(cr) == Volumes(GuestOf(kv, opts.requiresExclusive, files))
  {
    var g := GuestOf(kv, opts.requiresExclusive, files);
    GuestOfCr(kv, opts, files);
    GuestParts(g);
    DomainParts(g);
    DeviceParts(g);
  }

  lemma NamesOfVolumes(g: GuestForm, name: string)
    requires !g.boot.NoBoot?
    ensures NamesOneOf(name, Volumes(g)) <==> IsVolumeName(name, g.cloud.Some?)
  {
    VolumeNames(g);
    if IsVolumeName(name, g.cloud.Some?) {
      assert NameOf(Volumes(g)[0]) == name || NameOf(Volumes(g)[|Volumes(g)| - 1]) == name;
    }
  }

  lemma UnknownBootDangles(g: GuestForm)
    requires g.boot.NoBoot?
    ensures !NamesOneOf("boot", Volumes(g))
  {
    VolumeNames(g);
  }

  lemma NamesWithBoot(authored: seq<Json>)
    ensures var disks := authored + [BOOT_DISK];
            (forall i | 0 <= i < |authored| :: disks[i] == authored[i]) && NameOf(disks[|authored|]) == "boot"
  {
    BootDiskName();
  }

  /** Disk names are distinct exactly when the authored ones are and none is "boot". */
  lemma DiskNamesAreDistinctIff(kv: KubeVirt, opts: RenderOptions, files: CloudFiles)
    ensures DistinctNames(DisksIn(Encode(Normalize(kv, opts, files))))
       <==> && DistinctNames(AuthoredDisks(kv))
            && forall i | 0 <= i < |AuthoredDisks(kv)| :: NameOf(AuthoredDisks(kv)[i]) != "boot"
  {
    DisksAndVolumes(kv, opts, files);
    DistinctWithBoot(AuthoredDisks(kv));
  }

  lemma DistinctWithBoot(authored: seq<Json>)
    ensures DistinctNames(authored + [BOOT_DISK])
       <==> DistinctNames(authored) && forall i | 0 <= i < |authored| :: NameOf(authored[i]) != "boot"
  {
    var disks := authored + [BOOT_DISK];
    BootDiskName();
    assert forall i | 0 <= i < |authored| :: disks[i] == authored[i];
    assert disks[|authored|] == BOOT_DISK;
  }

  /** For instance: without cloud-init, an authored disk called "data" names no volume of the CR. */
  lemma AuthoredDiskDangles(kv: KubeVirt, opts: RenderOptions, files: CloudFiles)
    requires kv.source.kind == "container_disk" && !kv.hasCloudInit
    requires AuthoredDisks(kv) == [Obj(map["name" := Str("data")])]
    ensures var cr := Encode(Normalize(kv, opts, files));
            && |DisksIn(cr)| == 2 && NameOf(DisksIn(cr)[0]) == "data" && !NamesOneOf("data", VolumesIn(cr))
  {
    DisksAndVolumes(kv, opts, files);
    SourceKindIsKnown(kv.source);
    NamesOfVolumes(GuestOf(kv, opts.requiresExclusive, files), "data");
    DataDiskName();
  }

  lemma DataDiskName()
    ensures NameOf(Obj(map["name" := Str("data")])) == "data" && !IsVolumeName("data", false)
  {
  }

  lemma NameOfInterface(iface: InterfaceForm, model: string)
    ensures NameOf(InterfaceJson(iface, model)) == "default" && NameOf(POD_NETWORK) == "default"
  {
  }

  /** The DataVolume a volume refers to; "" when it refers to none. */
  function DataVolumeName(volume: Json): string {
    Text(Sub(Members(Some(volume)), "dataVolume"), "name")
  }

  function TemplateName(template: Json): string {
    Text(Sub(Members(Some(template)), "metadata"), "name")
  }

  /** Some volume refers to the DataVolume of this name. */
  predicate RefersTo(volumes: seq<Json>, name: string) {
    exists i | 0 <= i < |volumes| :: DataVolumeName(volumes[i]) == name
  }

  /** Some template makes the DataVolume of this name. */
  predicate IsTemplated(templates: seq<Json>, name: string) {
    exists i | 0 <= i < |templates| :: TemplateName(templates[i]) == name
  }

  /**
   A volume refers to a DataVolume exactly when a template of that name is in the CR, and that is the
   name "boot"; the standalone CR exists exactly then too, with an equal spec.
   */
  lemma DataVolumesAreTemplated(kv: KubeVirt, opts: RenderOptions, files: CloudFiles, name: string)
    requires name != ""
    ensures var cr := Encode(Normalize(kv, opts, files));
            var templates, alone := TemplatesIn(cr), Standalone(opts.name, opts.namespace, BootOf(kv.source));
            && (RefersTo(VolumesIn(cr), name) <==> IsTemplated(templates, name))
            && (IsTemplated(templates, name) <==> IsDataVolumeKind(kv.source.kind) && name == "boot")
            && (alone.Some? <==> templates != [])
            && (alone.Some? ==> Sub(alone.value, "spec") == Sub(Members(Some(templates[0])), "spec"))
  {
    var g := GuestOf(kv, opts.requiresExclusive, files);
    GuestOfCr(kv, opts, files);
    GuestParts(g);
    ReferredDataVolumes(g, name);
    TemplatedDataVolumes(g.boot, name);
    SameTemplateSpec(opts.name, opts.namespace, g.boot);
    DataVolumeKinds(kv.source);
  }

  lemma DataVolumeKinds(s: Source)
    ensures BootOf(s).DataVolume? <==> IsDataVolumeKind(s.kind)
  {
  }

  lemma SameTemplateSpec(name: string, namespace: string, b: BootForm)
    ensures var alone := Standalone(name, namespace, b);
            && (alone.Some? <==> Templates(b) != [])
            && (alone.Some? ==> Sub(alone.value, "spec") == Sub(Members(Some(Templates(b)[0])), "spec"))
  {
  }

  lemma BootVolumeRefers(b: BootForm)
    requires !b.NoBoot?
    ensures DataVolumeName(BootVolumes(b)[0]) == if b.DataVolume? then "boot" else ""
  {
  }

  lemma CloudVolumeRefersToNone(c: CloudFiles)
    ensures DataVolumeName(CloudVolume(c)) == ""
  {
  }

  lemma ReferredDataVolumes(g: GuestForm, name: string)
    requires name != ""
    ensures RefersTo(Volumes(g), name) <==> g.boot.DataVolume? && name == "boot"
  {
    if !g.boot.NoBoot? {
      BootVolumeRefers(g.boot);
      assert Volumes(g)[0] == BootVolumes(g.boot)[0];
    }
    if g.cloud.Some? {
      CloudVolumeRefersToNone(g.cloud.value);
    }
  }

  lemma TemplatedDataVolumes(b: BootForm, name: string)
    ensures IsTemplated(Templates(b), name) <==> b.DataVolume? && name == "boot"
  {
    BootTemplate(b);
  }

  lemma BootTemplate(b: BootForm)
    ensures |Templates(b)| == if b.DataVolume? then 1 else 0
    ensures b.DataVolume? ==> TemplateName(Templates(b)[0]) == "boot"
  {
  }

  /** The standalone DataVolume is called after the VM; no volume of any CR refers to that name. */
  lemma StandaloneIsNotReferredTo(kv: KubeVirt, opts: RenderOptions, files: CloudFiles, name: string, namespace: string)
    ensures !RefersTo(VolumesIn(Encode(Normalize(kv, opts, files))), name + "-dv")
    ensures var alone := Standalone(name, namespace, BootOf(kv.source));
            alone.Some? ==> Text(Sub(alone.value, "metadata"), "name") == name + "-dv"
  {
    var dv := name + "-dv";
    assert dv[|dv| - 1] == 'v' && "boot"[3] == 't';
    DataVolumesAreTemplated(kv, opts, files, dv);
    StandaloneName(name, namespace, BootOf(kv.source));
  }

  lemma StandaloneName(name: string, namespace: string, b: BootForm)
    ensures var alone := Standalone(name, namespace, b);
            alone.Some? ==> Text(Sub(alone.value, "metadata"), "name") == name + "-dv"
  {
  }

  /** Secure boot is asked for exactly when SMM is switched on, and an EFI guest always says which it wants. */
  lemma SecureBootHasSmm(kv: KubeVirt, opts: RenderOptions, files: CloudFiles)
    ensures var domain := Sub(GuestIn(Encode(Normalize(kv, opts, files))), "domain");
            var efi := Sub(Sub(domain, "firmware"), "bootloader");
            && (Get(Sub(Sub(domain, "features"), "smm"), "enabled") == Some(Bool(true))
                <==> Get(Sub(efi, "efi"), "secureBoot") == Some(Bool(true)))
            && (kv.firmware.Some? && kv.firmware.value.bootloader == "efi"
                <==> exists b: bool :: Get(Sub(efi, "efi"), "secureBoot") == Some(Bool(b)))
  {
    var g := GuestOf(kv, opts.requiresExclusive, files);
    GuestOfCr(kv, opts, files);
    GuestParts(g);
    DomainParts(g);
    SmmOf(g.hardware, DomainObject(g));
  }

  lemma SmmOf(h: HardwareForm, domain: Object)
    requires Get(domain, "features") == FeaturesValue(h) && Get(domain, "firmware") == FirmwareValue(h)
    ensures var efi := Sub(Sub(domain, "firmware"), "bootloader");
            && (Get(Sub(Sub(domain, "features"), "smm"), "enabled") == Some(Bool(true))
                <==> Get(Sub(efi, "efi"), "secureBoot") == Some(Bool(true)))
            && (h.firmware.Some? && h.firmware.value.Efi? ==>
                Get(Sub(efi, "efi"), "secureBoot") == Some(Bool(h.firmware.value.secureBoot)))
            && (!(h.firmware.Some? && h.firmware.value.Efi?) ==> Get(Sub(efi, "efi"), "secureBoot") == None)
  {
  }

  /** Does a CR name an instancetype, and does it size the domain itself? */
  predicate NamesInstancetype(cr: Object) {
    Text(Sub(GuestIn(cr), "instancetype"), "name") != ""
  }

  predicate SizesCpu(cr: Object) {
    var cpu := Sub(Sub(GuestIn(cr), "domain"), "cpu");
    Number(cpu, "cores") > 0 || Number(cpu, "sockets") > 0 || Number(cpu, "threads") > 0
  }

  lemma MatcherAndCpuAre(kv: KubeVirt, opts: RenderOptions, files: CloudFiles)
    ensures var cr := Encode(Normalize(kv, opts, files));
            && (NamesInstancetype(cr) <==> kv.instancetype != "")
            && (SizesCpu(cr) <==>
                  kv.cpu.Some? && (kv.cpu.value.cores > 0 || kv.cpu.value.sockets > 0 || kv.cpu.value.threads > 0))
  {
    var g := GuestOf(kv, opts.requiresExclusive, files);
    GuestOfCr(kv, opts, files);
    GuestParts(g);
    DomainParts(g);
    ReadsMatchers(kv.instancetype, kv.preference);
    CpuCounts(g.hardware, DomainObject(g));
  }

  lemma CpuCounts(h: HardwareForm, domain: Object)
    requires Get(domain, "cpu") == CpuValue(h)
    ensures var cpu := Sub(domain, "cpu");
            && Number(cpu, "cores") == (if h.cpu.Some? then h.cpu.value.cores else 0)
            && Number(cpu, "sockets") == (if h.cpu.Some? then h.cpu.value.sockets else 0)
            && Number(cpu, "threads") == (if h.cpu.Some? then h.cpu.value.threads else 0)
  {
    if h.cpu.Some? {
      ReadsCpu(h.cpu.value);
    }
  }
}
