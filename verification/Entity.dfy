/** The authored kubevirt entity, as far as the renderer, the validator and the lifecycle read it. */
module Entity {
  import opened JsonValues
  import opened Wrappers

  datatype Source = Source(kind: string, image: string, pullPolicy: string, pullSecret: string, diskPathInImage: string,
                           dataVolume: Object, pvc: string, cloneFrom: Option<string>,
                           size: string, storageClass: string, contentType: string)

  datatype Cpu = Cpu(cores: int, sockets: int, threads: int, model: string, dedicated: bool)

  datatype Firmware = Firmware(bootloader: string, efiSecureBoot: bool)

  datatype Input = Input(kind: string, bus: string)

  datatype Watchdog = Watchdog(model: string, action: string)

  datatype HostDevice = HostDevice(deviceName: string, name: string)

  datatype Devices = Devices(podInterface: bool, graphicsDevice: bool, serialConsole: bool, rng: bool,
                             inputs: seq<Input>, watchdog: Option<Watchdog>, disks: seq<Json>,
                             hostDevices: seq<HostDevice>)

  datatype Gpu = Gpu(resourceName: string, deviceName: string)

  datatype Network = Network(iface: string, model: string)

  datatype Migration = Migration(autoConverge: bool, postCopy: bool, bandwidth: string)

  datatype KubeVirt = KubeVirt(namespace: string, source: Source, machine: string, firmware: Option<Firmware>,
                               cpu: Option<Cpu>, memory: string, devices: Option<Devices>, gpus: seq<Gpu>,
                               network: Option<Network>, runStrategy: string, evictionStrategy: string,
                               gracePeriod: int,
                               nodeSelector: map<string, string>, affinity: Object, instancetype: string,
                               preference: string, migration: Option<Migration>, hasCloudInit: bool,
                               distro: string, sshUser: string)

  datatype RenderOptions = RenderOptions(name: string, namespace: string, distro: string, sshUser: string,
                                         requiresExclusive: seq<string>)

  /** What the shared cloud-init renderer returns. */
  datatype CloudFiles = CloudFiles(userData: string, metaData: string, networkData: string)

  predicate IsDataVolumeKind(kind: string) {
    kind == "data_volume" || kind == "clone"
  }

  const SOURCE_KINDS: set<string> := {"container_disk", "data_volume", "pvc", "clone"}
}
