/** The container record the garden utility produces, with the cgroup
    readings that the container helpers attach to it. */
module Containers {
  import opened Errors

  /** The lifecycle state garden reports for a running container. */
  const ContainerActiveState: string := "active"

  /** One published port binding of a container. */
  datatype NetworkAddress = NetworkAddress(ip: string, port: nat, protocol: string)

  /** Memory counters of a container (unsigned 64-bit in the source). */
  datatype MemStat = MemStat(
    containerID: string,
    cache: nat, swap: nat, swapPresent: bool, rss: nat, mappedFile: nat,
    pgpgin: nat, pgpgout: nat, pgfault: nat, pgmajfault: nat,
    inactiveAnon: nat, activeAnon: nat, inactiveFile: nat, activeFile: nat, unevictable: nat,
    hierarchicalMemoryLimit: nat, hierarchicalMemSWLimit: nat,
    totalCache: nat, totalRSS: nat, totalMappedFile: nat,
    totalPgpgIn: nat, totalPgpgOut: nat, totalPgFault: nat, totalPgMajFault: nat,
    totalInactiveAnon: nat, totalActiveAnon: nat, totalInactiveFile: nat, totalActiveFile: nat,
    totalUnevictable: nat, memUsageInBytes: nat)

  /** CPU times of a container, in the agent's unit convention. */
  datatype CpuTimes = CpuTimes(containerID: string, system: nat, user: nat, systemUsage: nat)

  /** Traffic counters of one network interface. */
  datatype InterfaceNetStats = InterfaceNetStats(networkName: string, bytesSent: nat, bytesRcvd: nat)

  /** What reading a cgroup's limit files yields. */
  datatype CgroupLimits = CgroupLimits(cpuLimit: nat, memLimit: nat)

  /** What reading a cgroup's usage files yields. */
  datatype CgroupUsage = CgroupUsage(memory: MemStat, cpu: CpuTimes)

  /** A scraped cgroup, standing for the files behind it: each reading either
      succeeds or fails. */
  datatype Cgroup = Cgroup(path: string, limits: Result<CgroupLimits>, usage: Result<CgroupUsage>)

  /** containers.Container, restricted to the fields the garden code touches. */
  datatype Container = Container(
    containerType: string,
    id: string,
    entityID: string,
    name: string,
    image: string,
    imageID: string,
    state: string,
    excluded: bool,
    health: string,
    addresses: seq<NetworkAddress>,
    cpuLimit: nat,
    memLimit: nat,
    memory: Option<MemStat>,
    cpu: Option<CpuTimes>,
    network: seq<InterfaceNetStats>,
    cgroup: Option<Cgroup>)

  predicate IsActive(c: Container) {
    c.state == ContainerActiveState
  }

  /** A record as discovery builds it: no limits, metrics or cgroup yet. */
  predicate Unfilled(c: Container) {
    && c.cpuLimit == 0 && c.memLimit == 0
    && c.memory.None? && c.cpu.None? && c.network == []
    && c.cgroup.None?
  }

  /** Container.SetCgroups: remember the cgroup the container runs in. */
  function SetCgroups(c: Container, cg: Cgroup): Container {
    c.(cgroup := Some(cg))
  }

  /** Container.FillCgroupLimits: copy the limits read from the attached cgroup,
      or fail when they cannot be read. */
  function FillCgroupLimits(c: Container): Result<Container>
    requires c.cgroup.Some?
  {
    match c.cgroup.value.limits
    case Ok(l) => Ok(c.(cpuLimit := l.cpuLimit, memLimit := l.memLimit))
    case Err(e) => Err(e)
  }

  /** Container.FillCgroupMetrics: copy the usage read from the attached cgroup;
      with no cgroup attached or an unreadable cgroup it fails. */
  function FillCgroupMetrics(c: Container): Result<Container> {
    match c.cgroup
    case None => Err(BackendError("no cgroup attached"))
    case Some(cg) =>
      match cg.usage
      case Ok(u) => Ok(c.(memory := Some(u.memory), cpu := Some(u.cpu)))
      case Err(e) => Err(e)
  }
}
