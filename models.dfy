/** The records exchanged between the backend and the dashboard, mirroring the
    structs of `src/models.rs`. Floating-point fields are `real`; unsigned
    integer fields are `nat` (their widths are checked where a parser produces
    them). Only the fields the modelled logic reads are kept. */
module Models {
  import opened Base

  /** Status of a service card; serialised in lower case. */
  datatype ServiceStatus = Online | Offline

  /** A service shown on the dashboard. */
  datatype ServiceCard = ServiceCard(
    name: string, url: string, icon: string, description: string, status: ServiceStatus)

  /** The host's static description. */
  datatype SystemStaticInfo = SystemStaticInfo(
    osName: string, kernelVersion: string, hostname: string,
    cpuCores: nat, cpuBrand: string, totalMemoryGb: real)

  /** One listening or connected socket. */
  datatype PortInfo = PortInfo(
    port: nat, protocol: string, state: string, program: string,
    pid: Option<nat>, address: string)

  /** One operating-system process. */
  datatype ProcessInfo = ProcessInfo(
    pid: nat, name: string, cpuPercent: real, memoryPercent: real,
    status: string, command: string)

  /** The state flags of a container. There is no `exited` flag. */
  datatype ContainerState = ContainerState(
    running: bool, paused: bool, restarting: bool, dead: bool,
    pid: Option<int>, exitCode: Option<int>,
    startedAt: Option<string>, finishedAt: Option<string>)

  /** One published port of a container. */
  datatype PortMapping = PortMapping(
    containerPort: nat, hostPort: Option<nat>, protocol: string, hostIp: Option<string>)

  /** One container as listed by `docker ps`, with its resource figures. */
  datatype DockerContainer = DockerContainer(
    id: string, name: string, image: string, status: string,
    state: ContainerState, created: int, ports: seq<PortMapping>,
    cpuPercent: real, memoryUsageMb: real, memoryLimitMb: real,
    memoryPercent: real, networkRxMb: real, networkTxMb: real)

  /** One directory entry of a listing. */
  datatype FileInfo = FileInfo(
    name: string, path: string, size: nat, isDir: bool, isFile: bool,
    isSymlink: bool, modified: int, permissions: string)

  /** A directory listing: the listed path relative to the base, its parent, the entries. */
  datatype DirectoryListing = DirectoryListing(
    path: string, parent: Option<string>, files: seq<FileInfo>)

  /** The JSON reply of the upload, mkdir and delete endpoints. */
  datatype UploadResponse = UploadResponse(
    success: bool, message: string, filePath: Option<string>)

  /** The part of a realtime sample the dashboard reads. */
  datatype RealtimeData = RealtimeData(
    cpuTotalUsage: real, memoryUsedPercent: real,
    rxSpeedKbps: real, txSpeedKbps: real, uptimeSecs: nat,
    ports: seq<PortInfo>, processes: seq<ProcessInfo>,
    dockerContainers: seq<DockerContainer>)

  /** Address the server binds to. */
  datatype ServerConfig = ServerConfig(host: string, port: nat)

  /** One configured service; `protocol` defaults to `DefaultProtocol`. */
  datatype ServiceCardConfig = ServiceCardConfig(
    name: string, port: nat, icon: string, description: string,
    protocol: string, healthCheckPath: Option<string>)

  /** The configured services and the address they all share. */
  datatype ServicesConfig = ServicesConfig(ip: string, items: seq<ServiceCardConfig>)

  /** The protocol of a service entry that does not name one. */
  const DefaultProtocol: string := "http"
}
