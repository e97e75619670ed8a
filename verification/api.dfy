/** The cloud API client's records and the calls the modelled code makes.
    The client itself is not modelled: every call's outcome is supplied by
    the caller of a step, and each step reports the calls it made, in order,
    with their arguments. Timestamps are integers; a nil pointer is `None`. */
module Api {
  import opened Wrappers
  import opened Interfaces

  /** Filesystem of a swap disk. */
  const FilesystemSwap: string := "swap"
  /** Status an instance is awaited in after creation. */
  const InstanceRunning: string := "running"
  /** Entity and action the image-creation event poller watches. */
  const EntityLinode: string := "linode"
  const ActionDiskImagize: string := "disk_imagize"

  datatype Instance = Instance(id: int, status: string)

  datatype Disk = Disk(id: int, filesystem: string)

  datatype Image = Image(
    id: string,
    capabilities: seq<string>,
    created: Option<int>,
    createdBy: string,
    deprecated: bool,
    description: string,
    eol: Option<int>,
    expiry: Option<int>,
    isPublic: bool,
    labelText: string,
    size: int,
    imageType: string,
    updated: Option<int>,
    vendor: string,
    status: string)

  datatype InstanceCreateOptions = InstanceCreateOptions(
    rootPass: string,
    authorizedKeys: seq<string>,
    authorizedUsers: seq<string>,
    privateIp: bool,
    region: string,
    stackScriptId: int,
    stackScriptData: map<string, string>,
    instanceType: string,
    labelText: string,
    image: string,
    swapSize: int,
    tags: Option<seq<string>>,
    firewallId: Option<int>,
    metadata: Option<MetadataOptions>,
    interfaceGeneration: string,
    interfaces: Option<seq<ConfigInterfaceOptions>>,
    linodeInterfaces: Option<seq<LinodeInterfaceOptions>>)

  datatype ImageCreateOptions = ImageCreateOptions(diskId: int, labelText: string, description: string)

  datatype Call =
    | CreateInstance(options: InstanceCreateOptions)
    | WaitForInstanceStatus(instanceId: int, status: string, timeoutSeconds: int)
    | ListInstanceDisks(instanceId: int)
    | DeleteInstance(instanceId: int)
    | NewEventPoller(entityId: int, entity: string, action: string)
    | CreateImage(imageOptions: ImageCreateOptions)
    | WaitForFinished(timeoutSeconds: int)
    | GetImage(imageId: string)
    | DeleteImage(imageId: string)
}
