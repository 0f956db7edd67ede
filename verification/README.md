# Cloud Foundry garden container collector, modelled in Dafny

This project models two layers of the Datadog agent's Cloud Foundry support.

- **The garden utility** (`pkg/util/cloudfoundry/garden.go`). It lazily creates the one process-wide `GardenUtil`. It lists the containers of the local garden server, fetches their info in bulk, and builds one container record per handle. A handle whose info lookup failed gets an empty (nil) slot. It attaches scraped cgroups and cgroup limits to active containers, and refreshes their metrics. It also has two field-mapping helpers: one for garden's CPU and memory limits, one for garden's metrics.
- **The tagger collector** (`pkg/tagger/collectors/garden_main.go`). `Detect` chooses the collection mode from what the garden retrier answers. `Pull` is rate-limited by a 15-second gate computed in whole Unix seconds. It publishes one batch of tag records per pass and records the time afterwards. `Fetch` publishes one record for an entity and says whether that entity was found.

Everything is a pure function over immutable values. Calls that reach outside the model are inputs:

- the garden client's `Containers` and `BulkInfo` answers and the cgroup scrape (`Garden.Backend`);
- the retrier's answer to `TriggerRetry` (`Option<Error>`);
- the two clock readings in `Pull`;
- `containers.BuildTaggerEntityName` and `containers.ContainerIDForEntity`, passed as functions.

A Go call can end in four ways, and `Errors.Outcome` has one case for each: it returns, it returns an error, it panics on a nil dereference, or it blocks forever on a send to a nil channel. The collector's channel is modelled as a log of `Publication`s kept in the collector record.

Modules: `Errors`, `Containers` (the container record and the cgroup readings), `Garden` and `GardenProps` (garden.go), `GardenCollector` and `CollectorProps` (garden_main.go).

Some behaviour of the code is easy to misread. The model keeps the code's behaviour in each case:

- `Fetch` publishes its record with the cache-miss flag false (garden_main.go:96).
- `Fetch` calls the entity found only when `ContainerIDForEntity(entity)` equals the entity itself (garden_main.go:91, 101).
- A handle whose info lookup failed is not dropped from the list. It leaves an empty slot, and `ListContainers` then dereferences that slot (garden.go:76-110; see Findings).
- After a permanent connection failure, `Detect` still returns pull mode, with a nil utility (garden_main.go:36-47; see Findings).

## Model

| member | source | states |
|---|---|---|
| `Garden.GetGardenUtil` | pkg/util/cloudfoundry/garden.go:34-56 | The utility is created only when the global is nil; an existing one is kept. The call returns that utility exactly when the retrier reports no error, and otherwise returns the retrier's error. |
| `GardenProps.GetGardenUtilCreatesOnce` | pkg/util/cloudfoundry/garden.go:39-50 | Over any non-empty series of calls, whatever the retrier answers, the global ends up as the utility the first call created, or the one that already existed. It is never replaced. |
| `Garden.ParseContainerPorts` | pkg/util/cloudfoundry/garden.go:162-172 | One address per mapped port, in the same order. Each address has the container's external IP, the mapping's host port and protocol "tcp". |
| `GardenProps.HostPortsRoundTrip` | pkg/util/cloudfoundry/garden.go:162-172 | The host ports can be read back from the addresses unchanged and in order: no port is lost or reordered. |
| `Garden.GardenContainers` | pkg/util/cloudfoundry/garden.go:58-97 | A failed enumeration or a failed BulkInfo call returns its error, wrapped with the source's message, and no list. Otherwise there is one slot per handle. Slot i is empty exactly when handle i's info entry carries an error; a handle missing from the map gets the zero entry. A present slot is the "garden" record whose ID and name are the handle, whose entity ID is `BuildTaggerEntityName(handle)`, whose state comes from the info, and whose addresses are the parsed ports. Each slot depends only on its own handle. A present record carries no limits, metrics or cgroup yet. |
| `Garden.CompactSlotsAreSucceededHandles` | pkg/util/cloudfoundry/garden.go:76-95 | The IDs of the present slots are exactly the handles whose info was retrieved, in enumeration order. |
| `Garden.CompactSlotsAreBuilt` | pkg/util/cloudfoundry/garden.go:76-95 | The present slots are, in order, the records built from each handle whose info was retrieved and that handle's info. |
| `Garden.CompactAllPresent` | pkg/util/cloudfoundry/garden.go:64-95 | With no empty slot, dropping empty slots changes nothing. |
| `Garden.CorrelateKeepsIDs` | pkg/util/cloudfoundry/garden.go:109-124 | Correlating keeps every record's ID, so the list of IDs is unchanged. |
| `Garden.Attach` | pkg/util/cloudfoundry/garden.go:109-124 | A container that is not active, or has no scraped cgroup, is returned unchanged. Otherwise its cgroup is set. Its limits come from the cgroup when they can be read and stay as they were when they cannot; the pass is not aborted. Nothing else in the record changes. |
| `Garden.Correlate` | pkg/util/cloudfoundry/garden.go:109-124 | The loop keeps the list's length and order. Element i is element i after the per-container step. |
| `GardenProps.CorrelateIdempotent` | pkg/util/cloudfoundry/garden.go:109-124 | Attaching cgroups a second time changes nothing. |
| `Garden.ListContainers` | pkg/util/cloudfoundry/garden.go:99-126 | An error from gardenContainers or from the cgroup scrape fails the call with the source's wrapped message. With both answers in hand, the call panics exactly when some slot is empty. Otherwise it returns the same list, in the same order, with each record correlated. It never blocks. |
| `GardenProps.ListedCgroupsOnlyOnActive` | pkg/util/cloudfoundry/garden.go:109-125 | A returned list holds the handles in order. A record carries a cgroup exactly when it is active and its ID is a key of the scrape. |
| `GardenProps.FailedHandlePanicsListContainers` | pkg/util/cloudfoundry/garden.go:76-110 | When every backend call succeeds, a single handle whose info lookup failed makes ListContainers panic on a nil dereference. |
| `GardenProps.FailedHandlePanicExample` | pkg/util/cloudfoundry/garden.go:76-110 | Concrete case: handles h1 and h2, where h2's info lookup failed, make ListContainers panic. |
| `Garden.ListContainersIntended` | pkg/util/cloudfoundry/garden.go:99-126 | The corrected listing never panics or blocks. It fails exactly when the source's listing fails with an error. When it returns, record i is the correlated record built from the i-th handle whose info was retrieved, in enumeration order. Wherever the source's listing does not panic, the corrected listing gives exactly the same result. |
| `GardenProps.IntendedListKeepsSucceededHandles` | pkg/util/cloudfoundry/garden.go:76-125 | The corrected listing returns exactly when all three backend answers succeed. It then lists exactly the handles whose info was retrieved, in order. |
| `Garden.UpdateContainerMetrics` | pkg/util/cloudfoundry/garden.go:128-141 | It never returns an error or blocks. It panics on a nil dereference exactly when some entry is empty. Otherwise it keeps the list's length and order, leaves every container that is not active untouched, and refreshes each active one. An active one whose metrics cannot be filled is also untouched. |
| `GardenProps.MetricsOnlyOnActive` | pkg/util/cloudfoundry/garden.go:109-141 | After listing and a metrics update, a record carries memory and CPU metrics exactly when it is active, its cgroup was scraped, and that cgroup's usage could be read. |
| `Garden.SetContainerLimits` | pkg/util/cloudfoundry/garden.go:143-160 | The CPU limit is the weight when the weight is non-zero, and the shares otherwise. The memory limit is the limit in bytes. A limits query that failed leaves its field unchanged. No other field changes. |
| `GardenProps.CpuLimitZeroOnlyWhenUnset` | pkg/util/cloudfoundry/garden.go:144-153 | After a successful CPU limits query, the CPU limit is zero exactly when both the weight and the shares are zero. |
| `Garden.SetContainerMetrics` | pkg/util/cloudfoundry/garden.go:174-220 | The garden memory counters can be recovered unchanged from the memory stat, which carries the container's ID and SwapPresent true. CPU system, user and usage are the garden values integer-divided by 10,000,000, tagged with the container's ID. There is exactly one network interface, "default", with bytes sent = TxBytes and bytes received = RxBytes. Nothing else changes. |
| `GardenCollector.TagInfos` | pkg/tagger/collectors/garden_main.go:65-76 | One record per container, in the same order. Each has source "cloudfoundry" and entity = the container's entity ID. Its high-cardinality tags are exactly `container_name:<entity ID>`. Its low and orchestrator tiers are empty, and it is neither a deletion nor a cache miss. |
| `GardenCollector.Detect` | pkg/tagger/collectors/garden_main.go:33-48 | The utility field is set only when the retrier succeeds. A will-retry error gives (no collection, that error) and leaves the channel and frequency untouched. Every other answer, including a permanent failure, gives (pull collection, nil) with the channel set to `out` and the frequency set to 15 s. The last-update time and the log are untouched. |
| `GardenCollector.DetectIntended` | pkg/tagger/collectors/garden_main.go:33-48 | The corrected Detect selects pull mode exactly when the retrier succeeds, and then always holds a utility. On success and on a will-retry error it is the source's Detect. Otherwise it returns no collection with the error, and changes only the utility, which it clears. |
| `GardenCollector.Pull` | pkg/tagger/collectors/garden_main.go:51-80 | Gated (next pull due in more than zero whole seconds): returns nil and changes nothing. Otherwise: a nil utility panics; a listing error is returned; a listing panic propagates; in each of these cases nothing is published and the last-update time is unchanged. When the gate is open, the utility is set, the listing returns and the channel is set, the pull returns nil, exactly one batch built from the listed containers is appended to the log, and then the last-update time is set to the second clock reading. In that case with no channel, the send blocks and nothing changes. |
| `GardenCollector.Fetch` | pkg/tagger/collectors/garden_main.go:83-106 | With a channel, exactly one single-record batch is appended. The record's entity is `ContainerIDForEntity(entity)`, its high tags are `container_name:<entity>`, its other tiers are empty, and it is neither a deletion nor a cache miss. The call returns (empty, empty, [`container_name:<entity>`]) exactly when `ContainerIDForEntity(entity)` equals the entity, and NotFound(entity) otherwise. With no channel it blocks. |
| `CollectorProps.FetchAnswersFromSentRecord` | pkg/tagger/collectors/garden_main.go:88-105 | With a channel, Fetch reports the entity found exactly when some record in the batch it just sent names that entity. |
| `CollectorProps.FetchLeavesPollGate` | pkg/tagger/collectors/garden_main.go:83-106 | A Fetch never opens or closes Pull's time gate. |
| `CollectorProps.PullIsRateLimited` | pkg/tagger/collectors/garden_main.go:54-78 | After a pull that published, with the 15 s frequency, any pull whose clock reads fewer than 15 whole seconds after the recorded time is a no-op. |
| `CollectorProps.PullPublishesListedEntities` | pkg/tagger/collectors/garden_main.go:60-77 | A pull that published appended one batch. Its length is the number of handles, and record i's entity is `BuildTaggerEntityName` of handle i. |
| `CollectorProps.FirstPullIsNotGated` | pkg/tagger/collectors/garden_main.go:45-58 | For a zero-valued collector that Detect put in pull mode, the gate is open for any clock reading after the Unix epoch. |
| `CollectorProps.PermanentFailurePullPanics` | pkg/tagger/collectors/garden_main.go:36-60 | After a permanent connection failure, Detect returns (pull collection, nil), and the first pull the gate lets through panics on the nil utility. |
| `CollectorProps.IntendedDetectPullsSafely` | pkg/tagger/collectors/garden_main.go:36-63 | In the pull mode the corrected Detect selects, a pull panics only when the listing itself does, and it never blocks. |
| `CollectorProps.ApplyOnlyAppends` | pkg/tagger/collectors/garden_main.go:77-99 | Any single Detect, Pull or Fetch keeps the log as a prefix and adds at most one batch. Every record in the log still names the collector and is neither a deletion nor a cache miss. |
| `CollectorProps.RunOnlyAppends` | pkg/tagger/collectors/garden_main.go:77-99 | Over any run of calls the log only grows, by at most one batch per call, and stays well formed. |

## Left out

- The garden client's I/O (`Containers`, `BulkInfo`, `Ping`, `CurrentCPULimits`, `CurrentMemoryLimits`) is not modelled: the answers of these calls are inputs.
- The retry library (`SetupRetrier`, `TriggerRetry`, `IsErrWillRetry`) is not part of this model. Its attempt counting and 30-second sleeps are not modelled. Its answer is an input. The configuration it receives (10 attempts, 30 s, name "gardenUtil") is recorded in `NewGardenUtil`.
- The mutex around the global utility is left out, because it is concurrency, not logic. `GetGardenUtil` is modelled as one atomic step.
- The cgroup helpers (`ScrapeAllCgroups`, `SetCgroups`, `FillCgroupLimits`, `FillCgroupMetrics`) are not part of this model. The scrape is an input. The fill helpers are modelled as copying readings that the scraped cgroup carries, either limits or memory and CPU usage. A failed reading leaves the container as it was. Partial writes by a failing helper and other metric families (I/O, network) are not modelled.
- `containers.ContainerActiveState` comes from a file that is not part of this model. It is taken to be garden's state name "active". No property depends on the value.
- `BuildTaggerEntityName` and `ContainerIDForEntity` are not part of this model. They are arbitrary functions passed in.
- `Garden.ParseContainerPorts`: the IP is modelled as a copy of the external-IP text. The source converts the text's bytes with `net.IP(...)`; byte and address semantics are not modelled.
- `Garden.SetContainerLimits`: the CPU limit is modelled as the exact integer, without the `float64` conversion.
- Integer widths: all counters are unbounded naturals. The source's operations on them are copies and one division, none of which can wrap.
- Logging and the debug prints are left out.
- Garden.ListContainers: the panic on short IDs is not modelled. Go evaluates `container.ID[:12]` before calling the debug logger, whatever the log level. So the source also panics, with slice bounds out of range, when an active container's ID is shorter than 12 characters and it has no matching cgroup (garden.go:115) or its limits cannot be read (garden.go:121). "Panics exactly when some slot is empty" therefore holds of the source only when IDs have 12 or more characters.
- Garden.UpdateContainerMetrics: the same short-ID panic, when an active container's metrics cannot be filled (garden.go:136), is not modelled. "Panics exactly when some entry is empty" holds of the source only when IDs have 12 or more characters.
- GardenCollector.Detect: the channel argument is taken to be a channel that was made, never nil. A nil `out` cannot be represented, although the collector's own `infoOut` can be nil before Detect runs.
- Channel capacity and backpressure are left out. A send on a set channel always completes; a send on a nil channel blocks forever.
- Collector registration (`gardenFactory`, `init`, `registerCollector`) is left out, apart from the zero-valued collector `NewCollector`.
- tools/windows/install-help/cal/customaction-tests/test-caninstall.cpp holds only tests of a Windows installer function. That function is not part of this model.

## Findings

| source | as written | input that shows it | evidently intended | confidence | as-written member | corrected member |
|---|---|---|---|---|---|---|
| pkg/util/cloudfoundry/garden.go:76-110 | gardenContainers leaves a nil slot for a handle whose info lookup failed. ListContainers then reads `container.State` of every slot. | Handles h1 and h2, where h2's BulkInfo entry carries an error and all backend calls succeed: ListContainers dereferences nil. | A handle whose info could not be retrieved is skipped, so one bad container does not fail the pass. | medium (not executed) | `GardenProps.FailedHandlePanicsListContainers` | `GardenProps.IntendedListKeepsSucceededHandles` |
| pkg/tagger/collectors/garden_main.go:36-60 | On a permanent (non-will-retry) failure, Detect logs it and still returns pull mode. The collector's utility is left nil. | The retrier answers a permanent failure, then Pull runs with its gate open: `c.gardenUtil.ListContainers()` dereferences the nil utility. | A permanent failure disables the collector (no collection), so Pull never runs without a utility. | medium (not executed) | `CollectorProps.PermanentFailurePullPanics` | `CollectorProps.IntendedDetectPullsSafely` |

The rest of the model keeps the behaviour as written. `Pull` calls the as-written `ListContainers`. The corrected `Garden.ListContainersIntended` and `GardenCollector.DetectIntended` are there so that the intended properties can be stated and proved next to the as-written ones.
