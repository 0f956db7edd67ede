/** The Cloud Foundry tagger collector: detects the garden backend, pulls tag
    records for every container at most once per interval, and resolves a
    single entity on demand. */
module GardenCollector {
  import opened Errors
  import opened Containers
  import opened Garden

  const GardenCollectorName: string := "cloudfoundry"

  /** Time is counted in nanoseconds since the Unix epoch. */
  const UpdateFreq: int := 15 * NanosPerSecond

  /** The zero time.Time (January 1 of year 1, UTC). */
  const ZeroTime: int := -62135596800 * NanosPerSecond

  /** time.Time.Unix: whole seconds, rounded down. */
  function Unix(t: int): int {
    t / NanosPerSecond
  }

  /** One tag record handed to the tagger. */
  datatype TagInfo = TagInfo(
    source: string,
    entity: string,
    highCardTags: seq<string>,
    orchestratorCardTags: seq<string>,
    lowCardTags: seq<string>,
    deleteEntity: bool,
    cacheMiss: bool)

  datatype CollectionMode = NoCollection | PullCollection

  /** A batch sent on a channel; channels are named by numbers. */
  datatype Publication = Publication(channel: nat, batch: seq<TagInfo>)

  /** GardenCollector, plus the log of the batches it has sent. */
  datatype Collector = Collector(
    infoOut: Option<nat>,
    gardenUtil: Option<GardenUtil>,
    lastUpdate: int,
    updateFreq: int,
    published: seq<Publication>)

  /** gardenFactory: a collector with every field at its zero value. */
  const NewCollector: Collector := Collector(None, None, ZeroTime, 0, [])

  function NameTag(entity: string): string {
    "container_name:" + entity
  }

  /** The record Pull publishes for one container. */
  function TagInfoFor(c: Container): TagInfo {
    TagInfo(GardenCollectorName, c.entityID, [NameTag(c.entityID)], [], [], false, false)
  }

  /** Pull's mapping from the container list to the batch. */
  function TagInfos(cs: seq<Container>): (r: seq<TagInfo>)
    ensures |r| == |cs|
    ensures forall i :: 0 <= i < |cs| ==>
              && r[i].source == GardenCollectorName
              && r[i].entity == cs[i].entityID
              && r[i].highCardTags == [NameTag(cs[i].entityID)]
              && r[i].orchestratorCardTags == [] && r[i].lowCardTags == []
              && !r[i].deleteEntity && !r[i].cacheMiss
  {
    if cs == [] then [] else [TagInfoFor(cs[0])] + TagInfos(cs[1..])
  }

  // ---- Detect ----

  datatype DetectStep = DetectStep(collector: Collector, global: Option<GardenUtil>, mode: CollectionMode, err: Option<Error>)

  /** Detect: fetch the shared utility; only a will-retry failure refuses
      collection. `trigger` is what the retrier answers. */
  function Detect(c: Collector, global: Option<GardenUtil>, out: nat, trigger: Option<Error>): (r: DetectStep)
    ensures r.global == Some(GetGardenUtil(global, trigger).global)
    ensures r.collector.gardenUtil.Some? <==> trigger.None?
    ensures r.collector.gardenUtil.Some? ==> r.global == r.collector.gardenUtil
    ensures r.collector.lastUpdate == c.lastUpdate && r.collector.published == c.published
    ensures r.mode == NoCollection <==> trigger.Some? && IsErrWillRetry(trigger.value)
    ensures r.mode == NoCollection ==>
              r.err == trigger && r.collector.infoOut == c.infoOut && r.collector.updateFreq == c.updateFreq
    ensures r.mode == PullCollection ==>
              r.err == None && r.collector.infoOut == Some(out) && r.collector.updateFreq == UpdateFreq
  {
    var acquired := GetGardenUtil(global, trigger);
    var withUtil := c.(gardenUtil := match acquired.result case Ok(u) => Some(u) case Err(_) => None);
    match acquired.result
    case Err(e) =>
      if IsErrWillRetry(e) then DetectStep(withUtil, Some(acquired.global), NoCollection, Some(e))
      else DetectStep(withUtil.(infoOut := Some(out), updateFreq := UpdateFreq), Some(acquired.global), PullCollection, None)
    case Ok(_) =>
      DetectStep(withUtil.(infoOut := Some(out), updateFreq := UpdateFreq), Some(acquired.global), PullCollection, None)
  }

  /** Detect as evidently intended: a permanent failure refuses collection too,
      so a collector in pull mode always holds a utility. */
  function DetectIntended(c: Collector, global: Option<GardenUtil>, out: nat, trigger: Option<Error>): (r: DetectStep)
    ensures r.mode == PullCollection <==> trigger.None?
    ensures r.mode == PullCollection ==> r.collector.gardenUtil.Some?
    ensures r.mode == NoCollection ==> r.err == trigger && r.collector == c.(gardenUtil := None)
    ensures trigger.None? || IsErrWillRetry(trigger.value) ==> r == Detect(c, global, out, trigger)
  {
    var acquired := GetGardenUtil(global, trigger);
    match acquired.result
    case Err(e) => DetectStep(c.(gardenUtil := None), Some(acquired.global), NoCollection, Some(e))
    case Ok(u) => DetectStep(c.(gardenUtil := Some(u), infoOut := Some(out), updateFreq := UpdateFreq), Some(acquired.global), PullCollection, None)
  }

  // ---- Pull ----

  datatype Step<+T> = Step(collector: Collector, outcome: Outcome<T>)

  /** Pull's time gate: the next pull is due in more than zero whole seconds. */
  predicate Gated(c: Collector, now: int) {
    Unix(c.lastUpdate + c.updateFreq) - Unix(now) > 0
  }

  /** Pull: unless gated, list the containers and publish one batch for them,
      then record the time. `gateNow` and `doneNow` are the two clock readings;
      `entityName` is containers.BuildTaggerEntityName. */
  function Pull(c: Collector, b: Backend, entityName: string -> string, gateNow: int, doneNow: int): (r: Step<()>)
    ensures Gated(c, gateNow) ==> r == Step(c, Returned(()))
    ensures !Gated(c, gateNow) && c.gardenUtil.None? ==> r == Step(c, Panicked(NilDereference))
    ensures !Gated(c, gateNow) && c.gardenUtil.Some? && ListContainers(b, entityName).Failed? ==>
              r == Step(c, Failed(ListContainers(b, entityName).error))
    ensures !Gated(c, gateNow) && c.gardenUtil.Some? && ListContainers(b, entityName).Panicked? ==>
              r == Step(c, Panicked(ListContainers(b, entityName).reason))
    ensures !Gated(c, gateNow) && c.gardenUtil.Some? && ListContainers(b, entityName).Returned? && c.infoOut.Some? ==>
              r == Step(c.(published := c.published + [Publication(c.infoOut.value, TagInfos(ListContainers(b, entityName).value))],
                           lastUpdate := doneNow),
                        Returned(()))
    ensures !Gated(c, gateNow) && c.gardenUtil.Some? && ListContainers(b, entityName).Returned? && c.infoOut.None? ==>
              r == Step(c, Blocked)
    ensures r.collector == c || r.collector.published != c.published
    ensures r.collector != c ==>
              && !Gated(c, gateNow) && c.gardenUtil.Some? && c.infoOut.Some?
              && ListContainers(b, entityName).Returned?
              && r.outcome == Returned(())
              && r.collector == c.(published := c.published + [Publication(c.infoOut.value, TagInfos(ListContainers(b, entityName).value))],
                                   lastUpdate := doneNow)
    ensures !Gated(c, gateNow) && c.gardenUtil.Some? && ListContainers(b, entityName).Returned? ==>
              (r.outcome.Blocked? <==> c.infoOut.None?) && (r.outcome.Returned? <==> r.collector != c)
  {
    if Gated(c, gateNow) then Step(c, Returned(()))
    else if c.gardenUtil.None? then Step(c, Panicked(NilDereference))
    else
      match ListContainers(b, entityName)
      case Failed(e) => Step(c, Failed(e))
      case Panicked(why) => Step(c, Panicked(why))
      case Blocked => Step(c, Blocked)
      case Returned(cs) =>
        match c.infoOut
        case None => Step(c, Blocked)
        case Some(ch) =>
          Step(c.(published := c.published + [Publication(ch, TagInfos(cs))], lastUpdate := doneNow), Returned(()))
  }

  // ---- Fetch ----

  /** The three tag tiers Fetch returns. */
  datatype Tiers = Tiers(low: seq<string>, orchestrator: seq<string>, high: seq<string>)

  /** The record Fetch publishes; `containerIDFor` is containers.ContainerIDForEntity. */
  function FetchRecord(entity: string, containerIDFor: string -> string): TagInfo {
    TagInfo(GardenCollectorName, containerIDFor(entity), [NameTag(entity)], [], [], false, false)
  }

  /** Fetch: publish one record for the entity, then report it found only when
      that record's entity is the requested one. */
  function Fetch(c: Collector, entity: string, containerIDFor: string -> string): (r: Step<Tiers>)
    ensures c.infoOut.None? ==> r == Step(c, Blocked)
    ensures c.infoOut.Some? ==>
              && r.collector.(published := c.published) == c
              && |r.collector.published| == |c.published| + 1
              && r.collector.published[..|c.published|] == c.published
              && r.collector.published[|c.published|].channel == c.infoOut.value
              && |r.collector.published[|c.published|].batch| == 1
    ensures c.infoOut.Some? ==>
              var sent := r.collector.published[|c.published|].batch[0];
              && sent.source == GardenCollectorName
              && sent.entity == containerIDFor(entity)
              && sent.highCardTags == [NameTag(entity)]
              && sent.orchestratorCardTags == [] && sent.lowCardTags == []
              && !sent.deleteEntity && !sent.cacheMiss
    ensures r.outcome.Returned? <==> c.infoOut.Some? && containerIDFor(entity) == entity
    ensures r.outcome.Returned? ==> r.outcome.value == Tiers([], [], [NameTag(entity)])
    ensures c.infoOut.Some? && containerIDFor(entity) != entity ==> r.outcome == Failed(NotFound(entity))
  {
    var record := FetchRecord(entity, containerIDFor);
    match c.infoOut
    case None => Step(c, Blocked)
    case Some(ch) =>
      var c' := c.(published := c.published + [Publication(ch, [record])]);
      if record.entity == entity then
        Step(c', Returned(Tiers(record.lowCardTags, record.orchestratorCardTags, record.highCardTags)))
      else Step(c', Failed(NotFound(entity)))
  }
}
