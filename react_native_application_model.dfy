/** The React Native application model (front_end/core/sdk/ReactNativeApplicationModel.ts):
    it enables the ReactNativeApplication domain once, reports the outcome to the
    performance metrics, caches the latest metadata and re-dispatches the domain's
    events. The `invoke_enable()` promise is split into the call and its settling
    (resolved with or without an error, or rejected). */
module ReactNativeApplicationModel {
  import opened Wrappers
  import opened PerfMetrics

  /** The calls the model makes on the performance metrics. */
  datatype MetricCall =
    | SetClientMetadataStarted
    | SetClientMetadataFinished(success: bool, maybeError: Option<Thrown>)
    | TraceRequestedMetric

  datatype Metadata = Metadata(fields: map<string, string>)

  datatype SystemState = SystemState(isSingleHost: bool)

  datatype AppEvent = MetadataUpdated(metadata: Metadata) | SystemStateChanged(state: SystemState) | TraceRequested

  /** The metric reported when `invoke_enable()` resolves: success exactly when the
      result carries no (non-empty) error, which is passed along as it is. */
  function EnableResolvedMetric(maybeError: Option<string>): (m: MetricCall)
    ensures m.SetClientMetadataFinished?
    ensures m.success <==> !Truthy(maybeError)
    ensures m.maybeError.None? <==> maybeError.None?
    ensures maybeError.Some? ==> m.maybeError == Some(NonError(maybeError.value))
  {
    SetClientMetadataFinished(!Truthy(maybeError), if maybeError.Some? then Some(NonError(maybeError.value)) else None)
  }

  class ReactNativeApplicationModel {
    var enabled: bool
    /** How many times `invoke_enable()` was called. */
    var enableRequests: nat
    /** An `invoke_enable()` call has not settled yet. */
    var enablePending: bool
    var metadataCached: Option<Metadata>
    /** Events dispatched to the model's listeners, in order. */
    var dispatched: seq<AppEvent>
    var metrics: seq<MetricCall>

    /** The domain is enabled at most once, and only an issued request can be pending. */
    predicate Valid()
      reads this
    {
      && enableRequests <= 1
      && (enabled <==> enableRequests == 1)
      && (enablePending ==> enabled)
    }

    /** The constructor reports that client metadata is being set, then enables. */
    constructor ()
      ensures Valid()
      ensures enabled && enableRequests == 1 && enablePending
      ensures metadataCached == None && dispatched == []
      ensures metrics == [SetClientMetadataStarted]
    {
      enabled := false;
      enableRequests := 0;
      enablePending := false;
      metadataCached := None;
      dispatched := [];
      metrics := [SetClientMetadataStarted];
      new;
      EnsureEnabled();
    }

    /** ensureEnabled: calls `invoke_enable()` only the first time. */
    method EnsureEnabled()
      requires Valid()
      modifies this
      ensures Valid()
      ensures enabled && enableRequests == 1
      ensures old(enabled) ==> enablePending == old(enablePending)
      ensures !old(enabled) ==> enablePending
      ensures metadataCached == old(metadataCached) && dispatched == old(dispatched) && metrics == old(metrics)
    {
      if enabled {
        return;
      }
      enableRequests := enableRequests + 1;
      enablePending := true;
      enabled := true;
    }

    /** `invoke_enable()` resolved, with the result's error if any. */
    method EnableResolved(maybeError: Option<string>)
      requires Valid()
      modifies this
      ensures Valid()
      ensures !enablePending
      ensures old(enablePending) ==> metrics == old(metrics) + [EnableResolvedMetric(maybeError)]
      ensures !old(enablePending) ==> metrics == old(metrics)
      ensures enabled == old(enabled) && enableRequests == old(enableRequests)
      ensures metadataCached == old(metadataCached) && dispatched == old(dispatched)
    {
      if !enablePending {
        return;
      }
      enablePending := false;
      metrics := metrics + [EnableResolvedMetric(maybeError)];
    }

    /** `invoke_enable()` rejected: a failed metric carrying the rejection reason. */
    method EnableRejected(reason: Thrown)
      requires Valid()
      modifies this
      ensures Valid()
      ensures !enablePending
      ensures old(enablePending) ==> metrics == old(metrics) + [SetClientMetadataFinished(false, Some(reason))]
      ensures !old(enablePending) ==> metrics == old(metrics)
      ensures enabled == old(enabled) && enableRequests == old(enableRequests)
      ensures metadataCached == old(metadataCached) && dispatched == old(dispatched)
    {
      if !enablePending {
        return;
      }
      enablePending := false;
      metrics := metrics + [SetClientMetadataFinished(false, Some(reason))];
    }

    /** metadataUpdated: caches the metadata, then re-dispatches it. */
    method MetadataUpdatedEvent(metadata: Metadata)
      requires Valid()
      modifies this
      ensures Valid()
      ensures metadataCached == Some(metadata)
      ensures dispatched == old(dispatched) + [MetadataUpdated(metadata)]
      ensures enabled == old(enabled) && enableRequests == old(enableRequests)
      ensures enablePending == old(enablePending) && metrics == old(metrics)
    {
      metadataCached := Some(metadata);
      dispatched := dispatched + [MetadataUpdated(metadata)];
    }

    /** systemStateChanged: re-dispatched; the metadata cache stays. */
    method SystemStateChangedEvent(state: SystemState)
      requires Valid()
      modifies this
      ensures Valid()
      ensures dispatched == old(dispatched) + [SystemStateChanged(state)]
      ensures metadataCached == old(metadataCached)
      ensures enabled == old(enabled) && enableRequests == old(enableRequests)
      ensures enablePending == old(enablePending) && metrics == old(metrics)
    {
      dispatched := dispatched + [SystemStateChanged(state)];
    }

    /** traceRequested: reported to the metrics, then dispatched. */
    method TraceRequestedEvent()
      requires Valid()
      modifies this
      ensures Valid()
      ensures metrics == old(metrics) + [TraceRequestedMetric]
      ensures dispatched == old(dispatched) + [TraceRequested]
      ensures metadataCached == old(metadataCached)
      ensures enabled == old(enabled) && enableRequests == old(enableRequests) && enablePending == old(enablePending)
    {
      metrics := metrics + [TraceRequestedMetric];
      dispatched := dispatched + [TraceRequested];
    }
  }
}
