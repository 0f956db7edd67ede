/** Properties of the tagger collector over one or several calls. */
module CollectorProps {
  import opened Errors
  import opened Containers
  import opened Garden
  import opened GardenCollector

  /** After a pull that did its work, any pull whose clock reads fewer than 15
      whole seconds later is a no-op that changes nothing. */
  lemma PullIsRateLimited(c: Collector, b: Backend, b': Backend, entityName: string -> string,
                          gateNow: int, doneNow: int, gateNow': int, doneNow': int)
    requires c.updateFreq == UpdateFreq
    requires Pull(c, b, entityName, gateNow, doneNow).collector != c
    requires Unix(gateNow') < Unix(doneNow) + 15
    ensures var c1 := Pull(c, b, entityName, gateNow, doneNow).collector;
            Pull(c1, b', entityName, gateNow', doneNow') == Step(c1, Returned(()))
  {
    var c1 := Pull(c, b, entityName, gateNow, doneNow).collector;
    assert c1.lastUpdate + c1.updateFreq == doneNow + 15 * NanosPerSecond;
    assert Gated(c1, gateNow');
  }

  /** A pull that runs after the time gate opens lists the containers and
      publishes one record per container, in the same order. */
  lemma PullPublishesListedEntities(c: Collector, b: Backend, entityName: string -> string, gateNow: int, doneNow: int)
    requires Pull(c, b, entityName, gateNow, doneNow).collector != c
    ensures var cs := ListContainers(b, entityName).value;
            var log := Pull(c, b, entityName, gateNow, doneNow).collector.published;
            && |log| == |c.published| + 1
            && |log[|c.published|].batch| == |cs| == |b.handles.value|
            && forall i :: 0 <= i < |cs| ==>
                 log[|c.published|].batch[i].entity == entityName(b.handles.value[i])
  {
    var cs := ListContainers(b, entityName).value;
    var slots := GardenContainers(b, entityName).value;
    assert forall i :: 0 <= i < |cs| ==> cs[i].entityID == slots[i].value.entityID == entityName(b.handles.value[i]);
  }

  /** A collector fresh from the factory that Detect put in pull mode pulls at
      the first call made after the Unix epoch. */
  lemma FirstPullIsNotGated(global: Option<GardenUtil>, out: nat, trigger: Option<Error>, now: int)
    requires Detect(NewCollector, global, out, trigger).mode == PullCollection
    requires now >= 0
    ensures !Gated(Detect(NewCollector, global, out, trigger).collector, now)
  {
  }

  /** Finding, as written: after a permanent connection failure Detect still
      selects pull mode, with no utility, so the first pull the gate lets
      through dereferences nil. */
  lemma PermanentFailurePullPanics(c: Collector, global: Option<GardenUtil>, out: nat, e: Error,
                                   b: Backend, entityName: string -> string, gateNow: int, doneNow: int)
    requires !IsErrWillRetry(e)
    requires Unix(c.lastUpdate + UpdateFreq) <= Unix(gateNow)
    ensures var d := Detect(c, global, out, Some(e));
            && d.mode == PullCollection && d.err == None
            && Pull(d.collector, b, entityName, gateNow, doneNow).outcome == Panicked(NilDereference)
  {
  }

  /** Finding, corrected: in the pull mode DetectIntended selects, a pull can
      panic only where the listing itself does. */
  lemma IntendedDetectPullsSafely(c: Collector, global: Option<GardenUtil>, out: nat, trigger: Option<Error>,
                                  b: Backend, entityName: string -> string, gateNow: int, doneNow: int)
    requires DetectIntended(c, global, out, trigger).mode == PullCollection
    ensures Pull(DetectIntended(c, global, out, trigger).collector, b, entityName, gateNow, doneNow).outcome.Panicked? ==>
              ListContainers(b, entityName).Panicked?
    ensures !Pull(DetectIntended(c, global, out, trigger).collector, b, entityName, gateNow, doneNow).outcome.Blocked?
  {
  }

  /** Fetch reports the entity found exactly when the record it just sent
      names that entity. */
  lemma FetchAnswersFromSentRecord(c: Collector, entity: string, containerIDFor: string -> string)
    requires c.infoOut.Some?
    ensures var r := Fetch(c, entity, containerIDFor);
            var sent := r.collector.published[|r.collector.published| - 1].batch;
            (r.outcome.Returned? <==> exists t :: t in sent && t.entity == entity)
  {
    var r := Fetch(c, entity, containerIDFor);
    var sent := r.collector.published[|r.collector.published| - 1].batch;
    assert sent == [FetchRecord(entity, containerIDFor)];
  }

  /** A fetch leaves the poll state alone: it never opens or closes Pull's gate. */
  lemma FetchLeavesPollGate(c: Collector, entity: string, containerIDFor: string -> string, now: int)
    ensures Gated(Fetch(c, entity, containerIDFor).collector, now) <==> Gated(c, now)
  {
  }

  // ---- Runs of calls ----

  /** One call the tagger makes into the collector. */
  datatype Call =
    | DetectCall(out: nat, trigger: Option<Error>)
    | PullCall(backend: Backend, gateNow: int, doneNow: int)
    | FetchCall(entity: string)

  /** The collector and the process-wide utility. */
  datatype World = World(collector: Collector, global: Option<GardenUtil>)

  function Apply(w: World, call: Call, entityName: string -> string, containerIDFor: string -> string): World {
    match call
    case DetectCall(out, trigger) =>
      var d := Detect(w.collector, w.global, out, trigger);
      World(d.collector, d.global)
    case PullCall(b, gateNow, doneNow) =>
      World(Pull(w.collector, b, entityName, gateNow, doneNow).collector, w.global)
    case FetchCall(entity) =>
      World(Fetch(w.collector, entity, containerIDFor).collector, w.global)
  }

  function Run(w: World, calls: seq<Call>, entityName: string -> string, containerIDFor: string -> string): World
    decreases |calls|
  {
    if calls == [] then w else Run(Apply(w, calls[0], entityName, containerIDFor), calls[1..], entityName, containerIDFor)
  }

  /** Every record sent so far names this collector and asks for no deletion. */
  ghost predicate WellFormedLog(c: Collector) {
    forall p, t :: p in c.published && t in p.batch ==>
      t.source == GardenCollectorName && !t.deleteEntity && !t.cacheMiss
  }

  lemma ApplyOnlyAppends(w: World, call: Call, entityName: string -> string, containerIDFor: string -> string)
    ensures var w' := Apply(w, call, entityName, containerIDFor);
            && w.collector.published <= w'.collector.published
            && |w'.collector.published| <= |w.collector.published| + 1
            && (WellFormedLog(w.collector) ==> WellFormedLog(w'.collector))
  {
    var w' := Apply(w, call, entityName, containerIDFor);
    if WellFormedLog(w.collector) && w'.collector.published != w.collector.published {
      var sent := w'.collector.published[|w.collector.published|];
      assert w'.collector.published == w.collector.published + [sent];
    }
  }

  /** Over any run of calls the log of sent batches only grows, by at most one
      batch per call, and stays well formed. */
  lemma {:induction false} RunOnlyAppends(w: World, calls: seq<Call>, entityName: string -> string, containerIDFor: string -> string)
    ensures var w' := Run(w, calls, entityName, containerIDFor);
            && w.collector.published <= w'.collector.published
            && |w'.collector.published| <= |w.collector.published| + |calls|
            && (WellFormedLog(w.collector) ==> WellFormedLog(w'.collector))
    decreases |calls|
  {
    if calls != [] {
      var w1 := Apply(w, calls[0], entityName, containerIDFor);
      ApplyOnlyAppends(w, calls[0], entityName, containerIDFor);
      RunOnlyAppends(w1, calls[1..], entityName, containerIDFor);
    }
  }
}
