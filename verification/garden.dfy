/** The garden utility: turns what the garden API reports into container
    records and correlates them with scraped cgroups. */
module Garden {
  import opened Errors
  import opened Containers

  // ---- Values the garden API returns ----

  datatype PortMapping = PortMapping(hostPort: nat, containerPort: nat)

  datatype ContainerInfo = ContainerInfo(state: string, externalIP: string, mappedPorts: seq<PortMapping>)

  /** One entry of a BulkInfo answer: the info, or the error met for that handle. */
  datatype InfoEntry = InfoEntry(info: ContainerInfo, err: Option<Error>)

  /** What indexing a Go map with a missing handle yields. */
  const ZeroInfoEntry: InfoEntry := InfoEntry(ContainerInfo("", "", []), None)

  datatype CPULimits = CPULimits(limitInShares: nat, weight: nat)

  datatype MemoryLimits = MemoryLimits(limitInBytes: nat)

  datatype GardenMemoryStat = GardenMemoryStat(
    cache: nat, swap: nat, rss: nat, mappedFile: nat,
    pgpgin: nat, pgpgout: nat, pgfault: nat, pgmajfault: nat,
    inactiveAnon: nat, activeAnon: nat, inactiveFile: nat, activeFile: nat, unevictable: nat,
    hierarchicalMemoryLimit: nat, hierarchicalMemswLimit: nat,
    totalCache: nat, totalRss: nat, totalMappedFile: nat,
    totalPgpgin: nat, totalPgpgout: nat, totalPgfault: nat, totalPgmajfault: nat,
    totalInactiveAnon: nat, totalActiveAnon: nat, totalInactiveFile: nat, totalActiveFile: nat,
    totalUnevictable: nat, totalUsageTowardLimit: nat)

  /** Garden's cumulative CPU counters, in garden's own unit. */
  datatype GardenCPUStat = GardenCPUStat(usage: nat, user: nat, system: nat)

  datatype GardenNetworkStat = GardenNetworkStat(rxBytes: nat, txBytes: nat)

  datatype GardenMetrics = GardenMetrics(memoryStat: GardenMemoryStat, cpuStat: GardenCPUStat, networkStat: GardenNetworkStat)

  /** What the garden client and the cgroup scraper answer during one pass. */
  datatype Backend = Backend(
    handles: Result<seq<string>>,                // cli.Containers(nil), as handles
    bulkInfo: Result<map<string, InfoEntry>>,    // cli.BulkInfo(handles)
    cgroups: Result<map<string, Cgroup>>)        // metrics.ScrapeAllCgroups()

  // ---- The shared utility ----

  datatype RetryStrategy = RetryCount

  datatype RetryConfig = RetryConfig(name: string, strategy: RetryStrategy, retryCount: nat, retryDelay: nat)

  /** GardenUtil: the client endpoint and the retrier configured for it. */
  datatype GardenUtil = GardenUtil(network: string, address: string, retrier: RetryConfig)

  const NanosPerSecond: nat := 1_000_000_000

  /** The utility GetGardenUtil creates on first use. */
  const NewGardenUtil: GardenUtil :=
    GardenUtil("unix", "/var/vcap/data/garden/garden.sock",
               RetryConfig("gardenUtil", RetryCount, 10, 30 * NanosPerSecond))

  /** The process-wide utility after a call, and what the call returned. */
  datatype Acquired = Acquired(global: GardenUtil, result: Result<GardenUtil>)

  /** GetGardenUtil: create the shared utility only if there is none yet, then
      trigger its retrier; `trigger` is what TriggerRetry answers. */
  function GetGardenUtil(global: Option<GardenUtil>, trigger: Option<Error>): (r: Acquired)
    ensures global.Some? ==> r.global == global.value
    ensures global.None? ==> r.global == NewGardenUtil
    ensures r.result.Ok? <==> trigger.None?
    ensures r.result.Ok? ==> r.result.value == r.global
    ensures trigger.Some? ==> r.result == Err(trigger.value)
  {
    var util := match global case Some(g) => g case None => NewGardenUtil;
    match trigger
    case None => Acquired(util, Ok(util))
    case Some(e) => Acquired(util, Err(e))
  }

  // ---- Container discovery ----

  /** The addresses for `ports`, all on `ip`, in the order of `ports`. */
  function PortAddresses(ip: string, ports: seq<PortMapping>): (r: seq<NetworkAddress>)
    ensures |r| == |ports|
    ensures forall i :: 0 <= i < |ports| ==>
              r[i].ip == ip && r[i].port == ports[i].hostPort && r[i].protocol == "tcp"
  {
    if ports == [] then []
    else [NetworkAddress(ip, ports[0].hostPort, "tcp")] + PortAddresses(ip, ports[1..])
  }

  /** parseContainerPorts: one TCP address per mapped port, on the external IP. */
  function ParseContainerPorts(info: ContainerInfo): (r: seq<NetworkAddress>)
    ensures |r| == |info.mappedPorts|
    ensures forall i :: 0 <= i < |r| ==>
              r[i].ip == info.externalIP && r[i].port == info.mappedPorts[i].hostPort && r[i].protocol == "tcp"
  {
    PortAddresses(info.externalIP, info.mappedPorts)
  }

  /** The BulkInfo entry of `handle`; the zero entry when the map lacks it. */
  function InfoFor(bulk: map<string, InfoEntry>, handle: string): InfoEntry {
    if handle in bulk then bulk[handle] else ZeroInfoEntry
  }

  /** The record gardenContainers builds for a handle whose info was retrieved. */
  function NewContainer(handle: string, info: ContainerInfo, entityName: string -> string): Container {
    Container(
      containerType := "garden", id := handle, entityID := entityName(handle), name := handle,
      image := "", imageID := "", state := info.state, excluded := false, health := "",
      addresses := ParseContainerPorts(info),
      cpuLimit := 0, memLimit := 0, memory := None, cpu := None, network := [], cgroup := None)
  }

  /** The slot of one handle: empty when its info entry carries an error. */
  function Slot(bulk: map<string, InfoEntry>, handle: string, entityName: string -> string): Option<Container> {
    var entry := InfoFor(bulk, handle);
    if entry.err.Some? then None else Some(NewContainer(handle, entry.info, entityName))
  }

  /** The slots of `handles`, one per handle, in order. */
  function Slots(handles: seq<string>, bulk: map<string, InfoEntry>, entityName: string -> string): (r: seq<Option<Container>>)
    ensures |r| == |handles|
    ensures forall i :: 0 <= i < |handles| ==> r[i] == Slot(bulk, handles[i], entityName)
  {
    if handles == [] then []
    else [Slot(bulk, handles[0], entityName)] + Slots(handles[1..], bulk, entityName)
  }

  /** gardenContainers: list the handles, fetch their info in bulk, and build
      one slot per handle; `entityName` is containers.BuildTaggerEntityName. */
  function GardenContainers(b: Backend, entityName: string -> string): (r: Result<seq<Option<Container>>>)
    ensures b.handles.Err? ==> r == Err(Wrapped("error listing garden containers", b.handles.error))
    ensures b.handles.Ok? && b.bulkInfo.Err? ==>
              r == Err(Wrapped("error getting info for garden containers", b.bulkInfo.error))
    ensures r.Ok? <==> b.handles.Ok? && b.bulkInfo.Ok?
    ensures r.Ok? ==> |r.value| == |b.handles.value|
    ensures r.Ok? ==> forall i :: 0 <= i < |r.value| ==>
              var h := b.handles.value[i];
              && (r.value[i].None? <==> InfoFor(b.bulkInfo.value, h).err.Some?)
              && (r.value[i].Some? ==> r.value[i].value == NewContainer(h, InfoFor(b.bulkInfo.value, h).info, entityName))
    ensures r.Ok? ==> forall i :: 0 <= i < |r.value| && r.value[i].Some? ==> Unfilled(r.value[i].value)
  {
    match b.handles
    case Err(e) => Err(Wrapped("error listing garden containers", e))
    case Ok(handles) =>
      match b.bulkInfo
      case Err(e) => Err(Wrapped("error getting info for garden containers", e))
      case Ok(bulk) => Ok(Slots(handles, bulk, entityName))
  }

  // ---- Cgroup correlation ----

  /** One iteration of ListContainers' loop: only an active container with a
      scraped cgroup gets it attached and its limits filled. */
  function Attach(c: Container, cgroups: map<string, Cgroup>): (r: Container)
    ensures r.(cgroup := c.cgroup, cpuLimit := c.cpuLimit, memLimit := c.memLimit) == c
    ensures !(IsActive(c) && c.id in cgroups) ==> r == c
    ensures IsActive(c) && c.id in cgroups ==> r.cgroup == Some(cgroups[c.id])
    ensures IsActive(c) && c.id in cgroups && cgroups[c.id].limits.Ok? ==>
              r.cpuLimit == cgroups[c.id].limits.value.cpuLimit && r.memLimit == cgroups[c.id].limits.value.memLimit
    ensures IsActive(c) && c.id in cgroups && cgroups[c.id].limits.Err? ==>
              r.cpuLimit == c.cpuLimit && r.memLimit == c.memLimit
  {
    if !IsActive(c) || c.id !in cgroups then c
    else
      var withCgroup := SetCgroups(c, cgroups[c.id]);
      match FillCgroupLimits(withCgroup)
      case Ok(filled) => filled
      case Err(_) => withCgroup
  }

  /** ListContainers' loop over the whole list. */
  function Correlate(cs: seq<Container>, cgroups: map<string, Cgroup>): (r: seq<Container>)
    ensures |r| == |cs|
    ensures forall i :: 0 <= i < |cs| ==> r[i] == Attach(cs[i], cgroups)
  {
    if cs == [] then [] else [Attach(cs[0], cgroups)] + Correlate(cs[1..], cgroups)
  }

  predicate NoEmptySlot(slots: seq<Option<Container>>) {
    forall i :: 0 <= i < |slots| ==> slots[i].Some?
  }

  /** The records of a list that has no empty slot. */
  function Records(slots: seq<Option<Container>>): (r: seq<Container>)
    requires NoEmptySlot(slots)
    ensures |r| == |slots|
    ensures forall i :: 0 <= i < |slots| ==> Some(r[i]) == slots[i]
  {
    seq(|slots|, i requires 0 <= i < |slots| => slots[i].value)
  }

  /** ListContainers as written: the loop reads the state of every slot, so an
      empty slot left by gardenContainers is a nil dereference. */
  function ListContainers(b: Backend, entityName: string -> string): (r: Outcome<seq<Container>>)
    ensures !r.Blocked?
    ensures GardenContainers(b, entityName).Err? ==>
              r == Failed(Wrapped("could not get docker containers", GardenContainers(b, entityName).error))
    ensures GardenContainers(b, entityName).Ok? && b.cgroups.Err? ==>
              r == Failed(Wrapped("could not get cgroups", b.cgroups.error))
    ensures r.Failed? <==> GardenContainers(b, entityName).Err? || b.cgroups.Err?
    ensures r.Panicked? <==> GardenContainers(b, entityName).Ok? && b.cgroups.Ok? && !NoEmptySlot(GardenContainers(b, entityName).value)
    ensures r.Panicked? ==> r.reason == NilDereference
    ensures r.Returned? ==>
              var slots := GardenContainers(b, entityName).value;
              && |r.value| == |slots|
              && forall i :: 0 <= i < |slots| ==> slots[i].Some? && r.value[i] == Attach(slots[i].value, b.cgroups.value)
  {
    match GardenContainers(b, entityName)
    case Err(e) => Failed(Wrapped("could not get docker containers", e))
    case Ok(slots) =>
      match b.cgroups
      case Err(e) => Failed(Wrapped("could not get cgroups", e))
      case Ok(cgroups) =>
        if NoEmptySlot(slots) then Returned(Correlate(Records(slots), cgroups))
        else Panicked(NilDereference)
  }

  /** The records of the present slots, in order. */
  function Compact(slots: seq<Option<Container>>): (r: seq<Container>)
    ensures |r| <= |slots|
    ensures forall c :: c in r ==> Some(c) in slots
    ensures forall i :: 0 <= i < |slots| && slots[i].Some? ==> slots[i].value in r
  {
    if slots == [] then []
    else match slots[0]
      case None => Compact(slots[1..])
      case Some(c) => [c] + Compact(slots[1..])
  }

  /** The ids of a container list, in order. */
  function IDs(cs: seq<Container>): (r: seq<string>)
    ensures |r| == |cs|
  {
    if cs == [] then [] else [cs[0].id] + IDs(cs[1..])
  }

  /** The handles whose BulkInfo entry carries no error, in order. */
  function SucceededHandles(handles: seq<string>, bulk: map<string, InfoEntry>): seq<string> {
    if handles == [] then []
    else if InfoFor(bulk, handles[0]).err.Some? then SucceededHandles(handles[1..], bulk)
    else [handles[0]] + SucceededHandles(handles[1..], bulk)
  }

  /** Attaching cgroups keeps each record's identity. */
  lemma {:induction false} CorrelateKeepsIDs(cs: seq<Container>, cgroups: map<string, Cgroup>)
    ensures IDs(Correlate(cs, cgroups)) == IDs(cs)
  {
    if cs != [] {
      var r := Correlate(cs, cgroups);
      assert r[1..] == Correlate(cs[1..], cgroups);
      CorrelateKeepsIDs(cs[1..], cgroups);
    }
  }

  /** The present slots of gardenContainers are exactly the handles whose info
      was retrieved, in enumeration order. */
  lemma {:induction false} CompactSlotsAreSucceededHandles(handles: seq<string>, bulk: map<string, InfoEntry>, entityName: string -> string)
    ensures IDs(Compact(Slots(handles, bulk, entityName))) == SucceededHandles(handles, bulk)
  {
    if handles != [] {
      var slots := Slots(handles, bulk, entityName);
      assert slots[1..] == Slots(handles[1..], bulk, entityName);
      CompactSlotsAreSucceededHandles(handles[1..], bulk, entityName);
      var rest := Compact(Slots(handles[1..], bulk, entityName));
      if InfoFor(bulk, handles[0]).err.Some? {
        assert Compact(slots) == rest;
      } else {
        assert Compact(slots) == [NewContainer(handles[0], InfoFor(bulk, handles[0]).info, entityName)] + rest;
        assert IDs(Compact(slots)) == [handles[0]] + IDs(rest);
      }
    }
  }

  /** With no empty slot, compacting drops nothing. */
  lemma {:induction false} CompactAllPresent(slots: seq<Option<Container>>)
    ensures NoEmptySlot(slots) ==> Compact(slots) == Records(slots)
  {
    if slots != [] && NoEmptySlot(slots) {
      assert NoEmptySlot(slots[1..]);
      CompactAllPresent(slots[1..]);
      assert Records(slots) == [slots[0].value] + Records(slots[1..]);
    }
  }

  /** The present slots of gardenContainers are the records built for the
      handles whose info was retrieved, one per handle, in order. */
  lemma {:induction false} CompactSlotsAreBuilt(handles: seq<string>, bulk: map<string, InfoEntry>, entityName: string -> string)
    ensures var cs, hs := Compact(Slots(handles, bulk, entityName)), SucceededHandles(handles, bulk);
            && |cs| == |hs|
            && forall i :: 0 <= i < |hs| ==> cs[i] == NewContainer(hs[i], InfoFor(bulk, hs[i]).info, entityName)
  {
    if handles != [] {
      var h := handles[0];
      var slots := Slots(handles, bulk, entityName);
      var rest := Compact(Slots(handles[1..], bulk, entityName));
      var restHandles := SucceededHandles(handles[1..], bulk);
      assert slots[1..] == Slots(handles[1..], bulk, entityName);
      CompactSlotsAreBuilt(handles[1..], bulk, entityName);
      if InfoFor(bulk, h).err.Some? {
        assert Compact(slots) == rest;
        assert SucceededHandles(handles, bulk) == restHandles;
      } else {
        assert Compact(slots) == [NewContainer(h, InfoFor(bulk, h).info, entityName)] + rest;
        assert SucceededHandles(handles, bulk) == [h] + restHandles;
      }
    }
  }

  /** ListContainers as evidently intended: the empty slots of handles whose
      info could not be retrieved are dropped instead of dereferenced. */
  function ListContainersIntended(b: Backend, entityName: string -> string): (r: Outcome<seq<Container>>)
    ensures r.Returned? || r.Failed?
    ensures r.Failed? <==> GardenContainers(b, entityName).Err? || b.cgroups.Err?
    ensures r.Returned? ==> IDs(r.value) == SucceededHandles(b.handles.value, b.bulkInfo.value)
    ensures r.Returned? ==> forall c :: c in r.value ==> c == Attach(c, b.cgroups.value)
    ensures r.Returned? ==>
              var hs := SucceededHandles(b.handles.value, b.bulkInfo.value);
              && |r.value| == |hs|
              && forall i :: 0 <= i < |hs| ==>
                   r.value[i] == Attach(NewContainer(hs[i], InfoFor(b.bulkInfo.value, hs[i]).info, entityName), b.cgroups.value)
    ensures !ListContainers(b, entityName).Panicked? ==> r == ListContainers(b, entityName)
  {
    match GardenContainers(b, entityName)
    case Err(e) => Failed(Wrapped("could not get docker containers", e))
    case Ok(slots) =>
      match b.cgroups
      case Err(e) => Failed(Wrapped("could not get cgroups", e))
      case Ok(cgroups) =>
        CorrelateKeepsIDs(Compact(slots), cgroups);
        CompactSlotsAreSucceededHandles(b.handles.value, b.bulkInfo.value, entityName);
        CompactSlotsAreBuilt(b.handles.value, b.bulkInfo.value, entityName);
        CompactAllPresent(slots);
        Returned(Correlate(Compact(slots), cgroups))
  }

  // ---- Metrics ----

  /** One iteration of UpdateContainerMetrics' loop. */
  function Refresh(c: Container): (r: Container)
    ensures r.(memory := c.memory, cpu := c.cpu) == c
    ensures !IsActive(c) ==> r == c
    ensures FillCgroupMetrics(c).Err? ==> r == c
    ensures IsActive(c) && FillCgroupMetrics(c).Ok? ==>
              r.memory == Some(c.cgroup.value.usage.value.memory) && r.cpu == Some(c.cgroup.value.usage.value.cpu)
  {
    if !IsActive(c) then c
    else match FillCgroupMetrics(c)
      case Ok(filled) => filled
      case Err(_) => c
  }

  function RefreshAll(cs: seq<Container>): (r: seq<Container>)
    ensures |r| == |cs|
    ensures forall i :: 0 <= i < |cs| ==> r[i] == Refresh(cs[i])
  {
    if cs == [] then [] else [Refresh(cs[0])] + RefreshAll(cs[1..])
  }

  /** UpdateContainerMetrics: refresh the metrics of the active containers; it
      never reports an error, but like ListContainers it reads the state of
      every entry, so an empty entry is a nil dereference. */
  function UpdateContainerMetrics(cs: seq<Option<Container>>): (r: Outcome<seq<Container>>)
    ensures !r.Failed? && !r.Blocked?
    ensures r.Panicked? <==> !NoEmptySlot(cs)
    ensures r.Panicked? ==> r.reason == NilDereference
    ensures r.Returned? ==> |r.value| == |cs|
    ensures r.Returned? ==> forall i :: 0 <= i < |cs| && !IsActive(cs[i].value) ==> r.value[i] == cs[i].value
    ensures r.Returned? ==> forall i :: 0 <= i < |cs| ==> r.value[i] == Refresh(cs[i].value)
  {
    if NoEmptySlot(cs) then Returned(RefreshAll(Records(cs))) else Panicked(NilDereference)
  }

  // ---- Field-mapping helpers ----

  /** setContainerLimits: the CPU limit is the weight when set, else the
      shares; a limits query that failed leaves its field as it was. */
  function SetContainerLimits(c: Container, cpuLimits: Result<CPULimits>, memLimits: Result<MemoryLimits>): (r: Container)
    ensures r.(cpuLimit := c.cpuLimit, memLimit := c.memLimit) == c
    ensures cpuLimits.Err? ==> r.cpuLimit == c.cpuLimit
    ensures cpuLimits.Ok? && cpuLimits.value.weight != 0 ==> r.cpuLimit == cpuLimits.value.weight
    ensures cpuLimits.Ok? && cpuLimits.value.weight == 0 ==> r.cpuLimit == cpuLimits.value.limitInShares
    ensures memLimits.Err? ==> r.memLimit == c.memLimit
    ensures memLimits.Ok? ==> r.memLimit == memLimits.value.limitInBytes
  {
    var withCpu :=
      match cpuLimits
      case Err(_) => c
      case Ok(l) => c.(cpuLimit := if l.weight != 0 then l.weight else l.limitInShares);
    match memLimits
    case Err(_) => withCpu
    case Ok(m) => withCpu.(memLimit := m.limitInBytes)
  }

  /** The divisor that turns garden's CPU counters into the agent's unit. */
  const CpuDivisor: nat := 10_000_000

  /** `q` is `n` integer-divided by CpuDivisor. */
  predicate ScaledDown(q: nat, n: nat) {
    q * CpuDivisor <= n < (q + 1) * CpuDivisor
  }

  /** The garden memory counters a MemStat was copied from. */
  function GardenMemoryOf(m: MemStat): GardenMemoryStat {
    GardenMemoryStat(
      cache := m.cache, swap := m.swap, rss := m.rss, mappedFile := m.mappedFile,
      pgpgin := m.pgpgin, pgpgout := m.pgpgout, pgfault := m.pgfault, pgmajfault := m.pgmajfault,
      inactiveAnon := m.inactiveAnon, activeAnon := m.activeAnon,
      inactiveFile := m.inactiveFile, activeFile := m.activeFile, unevictable := m.unevictable,
      hierarchicalMemoryLimit := m.hierarchicalMemoryLimit, hierarchicalMemswLimit := m.hierarchicalMemSWLimit,
      totalCache := m.totalCache, totalRss := m.totalRSS, totalMappedFile := m.totalMappedFile,
      totalPgpgin := m.totalPgpgIn, totalPgpgout := m.totalPgpgOut,
      totalPgfault := m.totalPgFault, totalPgmajfault := m.totalPgMajFault,
      totalInactiveAnon := m.totalInactiveAnon, totalActiveAnon := m.totalActiveAnon,
      totalInactiveFile := m.totalInactiveFile, totalActiveFile := m.totalActiveFile,
      totalUnevictable := m.totalUnevictable, totalUsageTowardLimit := m.memUsageInBytes)
  }

  /** setContainerMetrics: memory copied verbatim, CPU scaled down, one
      "default" interface; nothing else in the container changes. */
  function SetContainerMetrics(c: Container, g: GardenMetrics): (r: Container)
    ensures r.(memory := c.memory, cpu := c.cpu, network := c.network) == c
    ensures r.memory.Some? && GardenMemoryOf(r.memory.value) == g.memoryStat
    ensures r.memory.Some? && r.memory.value.containerID == c.id && r.memory.value.swapPresent
    ensures r.cpu.Some? && r.cpu.value.containerID == c.id
    ensures r.cpu.Some? && ScaledDown(r.cpu.value.system, g.cpuStat.system)
    ensures r.cpu.Some? && ScaledDown(r.cpu.value.user, g.cpuStat.user)
    ensures r.cpu.Some? && ScaledDown(r.cpu.value.systemUsage, g.cpuStat.usage)
    ensures |r.network| == 1
    ensures r.network[0] == InterfaceNetStats("default", g.networkStat.txBytes, g.networkStat.rxBytes)
  {
    var m := g.memoryStat;
    c.(
      memory := Some(MemStat(
        containerID := c.id,
        cache := m.cache, swap := m.swap, swapPresent := true, rss := m.rss, mappedFile := m.mappedFile,
        pgpgin := m.pgpgin, pgpgout := m.pgpgout, pgfault := m.pgfault, pgmajfault := m.pgmajfault,
        inactiveAnon := m.inactiveAnon, activeAnon := m.activeAnon,
        inactiveFile := m.inactiveFile, activeFile := m.activeFile, unevictable := m.unevictable,
        hierarchicalMemoryLimit := m.hierarchicalMemoryLimit, hierarchicalMemSWLimit := m.hierarchicalMemswLimit,
        totalCache := m.totalCache, totalRSS := m.totalRss, totalMappedFile := m.totalMappedFile,
        totalPgpgIn := m.totalPgpgin, totalPgpgOut := m.totalPgpgout,
        totalPgFault := m.totalPgfault, totalPgMajFault := m.totalPgmajfault,
        totalInactiveAnon := m.totalInactiveAnon, totalActiveAnon := m.totalActiveAnon,
        totalInactiveFile := m.totalInactiveFile, totalActiveFile := m.totalActiveFile,
        totalUnevictable := m.totalUnevictable, memUsageInBytes := m.totalUsageTowardLimit)),
      cpu := Some(CpuTimes(
        containerID := c.id,
        system := g.cpuStat.system / CpuDivisor,
        user := g.cpuStat.user / CpuDivisor,
        systemUsage := g.cpuStat.usage / CpuDivisor)),
      network := [InterfaceNetStats("default", g.networkStat.txBytes, g.networkStat.rxBytes)])
  }
}
