/** Properties of the garden utility that relate several of its operations. */
module GardenProps {
  import opened Errors
  import opened Containers
  import opened Garden

  /** The host ports a list of addresses publishes, in order. */
  function HostPorts(addresses: seq<NetworkAddress>): seq<nat> {
    if addresses == [] then [] else [addresses[0].port] + HostPorts(addresses[1..])
  }

  function MappedHostPorts(ports: seq<PortMapping>): seq<nat> {
    if ports == [] then [] else [ports[0].hostPort] + MappedHostPorts(ports[1..])
  }

  /** parseContainerPorts loses no port and reorders none. */
  lemma {:induction false} HostPortsRoundTrip(info: ContainerInfo)
    ensures HostPorts(ParseContainerPorts(info)) == MappedHostPorts(info.mappedPorts)
  {
    PortAddressesHostPorts(info.externalIP, info.mappedPorts);
  }

  lemma {:induction false} PortAddressesHostPorts(ip: string, ports: seq<PortMapping>)
    ensures HostPorts(PortAddresses(ip, ports)) == MappedHostPorts(ports)
  {
    if ports != [] {
      var r := PortAddresses(ip, ports);
      assert r[1..] == PortAddresses(ip, ports[1..]);
      PortAddressesHostPorts(ip, ports[1..]);
    }
  }

  /** Finding, as written: once every backend call succeeds, one handle whose
      info lookup failed makes ListContainers dereference its empty slot. */
  lemma FailedHandlePanicsListContainers(b: Backend, entityName: string -> string, i: int)
    requires b.handles.Ok? && b.bulkInfo.Ok? && b.cgroups.Ok?
    requires 0 <= i < |b.handles.value|
    requires InfoFor(b.bulkInfo.value, b.handles.value[i]).err.Some?
    ensures ListContainers(b, entityName) == Panicked(NilDereference)
  {
    var slots := GardenContainers(b, entityName).value;
    assert slots[i].None?;
  }

  /** The same finding on concrete input: two handles, the second one's info
      lookup failed. */
  lemma FailedHandlePanicExample(entityName: string -> string)
    ensures ListContainers(
              Backend(Ok(["h1", "h2"]),
                      Ok(map["h1" := ZeroInfoEntry, "h2" := InfoEntry(ZeroInfoEntry.info, Some(BackendError("unknown handle")))]),
                      Ok(map[])),
              entityName).Panicked?
  {
    var b := Backend(Ok(["h1", "h2"]),
                     Ok(map["h1" := ZeroInfoEntry, "h2" := InfoEntry(ZeroInfoEntry.info, Some(BackendError("unknown handle")))]),
                     Ok(map[]));
    FailedHandlePanicsListContainers(b, entityName, 1);
  }

  /** Finding, corrected: the intended listing never panics, and lists exactly
      the handles whose info was retrieved, in order. */
  lemma IntendedListKeepsSucceededHandles(b: Backend, entityName: string -> string)
    ensures !ListContainersIntended(b, entityName).Panicked?
    ensures ListContainersIntended(b, entityName).Returned? <==> b.handles.Ok? && b.bulkInfo.Ok? && b.cgroups.Ok?
    ensures ListContainersIntended(b, entityName).Returned? ==>
              IDs(ListContainersIntended(b, entityName).value) == SucceededHandles(b.handles.value, b.bulkInfo.value)
  {
    var r := ListContainersIntended(b, entityName);
    if r.Returned? {
      var slots := Slots(b.handles.value, b.bulkInfo.value, entityName);
      CorrelateKeepsIDs(Compact(slots), b.cgroups.value);
      CompactSlotsAreSucceededHandles(b.handles.value, b.bulkInfo.value, entityName);
    }
  }

  /** When ListContainers returns, the list is the handles in order and a record
      carries a cgroup exactly when it is active and was scraped. */
  lemma ListedCgroupsOnlyOnActive(b: Backend, entityName: string -> string)
    requires ListContainers(b, entityName).Returned?
    ensures IDs(ListContainers(b, entityName).value) == b.handles.value
    ensures forall c :: c in ListContainers(b, entityName).value ==>
              (c.cgroup.Some? <==> IsActive(c) && c.id in b.cgroups.value)
  {
    var cs := ListContainers(b, entityName).value;
    IDsPointwise(cs, b.handles.value);
  }

  lemma {:induction false} IDsPointwise(cs: seq<Container>, ids: seq<string>)
    requires |cs| == |ids|
    requires forall i :: 0 <= i < |cs| ==> cs[i].id == ids[i]
    ensures IDs(cs) == ids
  {
    if cs != [] {
      IDsPointwise(cs[1..], ids[1..]);
    }
  }

  /** Correlating twice is correlating once. */
  lemma CorrelateIdempotent(cs: seq<Container>, cgroups: map<string, Cgroup>)
    ensures Correlate(Correlate(cs, cgroups), cgroups) == Correlate(cs, cgroups)
  {
  }

  /** A container list as the pointer list the source passes around. */
  function AsSlots(cs: seq<Container>): (r: seq<Option<Container>>)
    ensures |r| == |cs| && NoEmptySlot(r)
    ensures forall i :: 0 <= i < |cs| ==> r[i] == Some(cs[i])
  {
    seq(|cs|, i requires 0 <= i < |cs| => Some(cs[i]))
  }

  /** After listing and a metrics update, a record carries metrics exactly when
      it is active, was scraped, and its cgroup's usage could be read. */
  lemma MetricsOnlyOnActive(b: Backend, entityName: string -> string)
    requires ListContainers(b, entityName).Returned?
    ensures UpdateContainerMetrics(AsSlots(ListContainers(b, entityName).value)).Returned?
    ensures var updated := UpdateContainerMetrics(AsSlots(ListContainers(b, entityName).value)).value;
            forall c :: c in updated ==>
              (c.memory.Some? <==> IsActive(c) && c.id in b.cgroups.value && b.cgroups.value[c.id].usage.Ok?) &&
              (c.cpu.Some? <==> c.memory.Some?)
  {
  }

  /** A successful CPU limits query gives a zero CPU limit only when both its
      weight and its shares are zero. */
  lemma CpuLimitZeroOnlyWhenUnset(c: Container, cpuLimits: CPULimits, memLimits: Result<MemoryLimits>)
    ensures SetContainerLimits(c, Ok(cpuLimits), memLimits).cpuLimit == 0 <==>
              cpuLimits.weight == 0 && cpuLimits.limitInShares == 0
  {
  }

  /** The process-wide utility after a series of GetGardenUtil calls. */
  function AcquireAll(global: Option<GardenUtil>, triggers: seq<Option<Error>>): Option<GardenUtil>
    decreases |triggers|
  {
    if triggers == [] then global
    else AcquireAll(Some(GetGardenUtil(global, triggers[0]).global), triggers[1..])
  }

  /** However many calls and whatever their retrier answers, the utility is
      created once and then never replaced. */
  lemma {:induction false} GetGardenUtilCreatesOnce(global: Option<GardenUtil>, triggers: seq<Option<Error>>)
    requires triggers != []
    ensures global.None? ==> AcquireAll(global, triggers) == Some(NewGardenUtil)
    ensures global.Some? ==> AcquireAll(global, triggers) == global
    decreases |triggers|
  {
    if |triggers| > 1 {
      GetGardenUtilCreatesOnce(Some(GetGardenUtil(global, triggers[0]).global), triggers[1..]);
    }
  }
}
