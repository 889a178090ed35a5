/** The React Native reliability-metrics hub (front_end/core/host/RNPerfMetrics.ts):
    a set of listeners, an enable flag read from a global, fan-out of decorated
    events that survives failing listeners, and the session fields every event is
    decorated with. Listener functions are identified by `ListenerId`; what a
    listener does with an event (return or throw) is the parameter `invoke`. */
module PerfMetrics {
  import opened Wrappers
  import opened Strings
  import opened ListenerSets

  // ---------------------------------------------------------------------------
  // Values

  datatype PanelLocation = Main | Drawer

  datatype EntryPoint = RnFusebox | RnInspector

  /** A thrown value: an `Error` instance, or anything else together with what
      `String(value)` gives for it. */
  datatype Thrown = ErrorObject(err: JsError) | NonError(asString: string)

  datatype JsError = JsError(message: string, cause: Option<Thrown>)

  /** The values event fields hold. */
  datatype Value =
    | Null
    | Bool(b: bool)
    | Num(n: int)
    | Str(s: string)
    | Obj(fields: map<string, Value>)
    | PanelMap(panels: map<PanelLocation, string>)
    | ErrorValue(err: JsError)

  type Event = map<string, Value>

  datatype Delivery = Delivery(listener: ListenerId, event: Event)

  function EntryPointName(e: EntryPoint): string
  {
    match e
    case RnFusebox => "rn_fusebox"
    case RnInspector => "rn_inspector"
  }

  function LocationName(l: PanelLocation): string
  {
    match l
    case Main => "main"
    case Drawer => "drawer"
  }

  function NullableString(s: Option<string>): Value
  {
    match s
    case Some(v) => Str(v)
    case None => Null
  }

  /** `globalThis.enableReactNativePerfMetrics === true` */
  predicate IsEnabled(flag: Value): (r: bool)
    ensures r ==> flag.Bool?
    ensures flag.Bool? ==> (r <==> flag.b)
  {
    flag == Bool(true)
  }

  // ---------------------------------------------------------------------------
  // Decoration and fan-out

  datatype CommonEventFields = CommonEventFields(
    timestamp: int,
    launchId: Option<string>,
    appId: Option<string>,
    entryPoint: EntryPoint,
    telemetryInfo: Value,
    currentPanels: map<PanelLocation, string>)

  const CommonKeys: set<string> := {"timestamp", "launchId", "appId", "entryPoint", "telemetryInfo", "currentPanels"}

  function CommonFieldsObject(c: CommonEventFields): Event
  {
    map["timestamp" := Num(c.timestamp),
        "launchId" := NullableString(c.launchId),
        "appId" := NullableString(c.appId),
        "entryPoint" := Str(EntryPointName(c.entryPoint)),
        "telemetryInfo" := c.telemetryInfo,
        "currentPanels" := PanelMap(c.currentPanels)]
  }

  /** `{...event, ...commonFields}`: the common fields are added and win over
      same-named event fields; every other event field is kept. */
  function DecorateEvent(event: Event, c: CommonEventFields): (r: Event)
    ensures r.Keys == event.Keys + CommonKeys
    ensures forall k :: k in event && k !in CommonKeys ==> r[k] == event[k]
    ensures r["timestamp"] == Num(c.timestamp)
    ensures r["launchId"] == NullableString(c.launchId) && r["appId"] == NullableString(c.appId)
    ensures r["entryPoint"] == Str(EntryPointName(c.entryPoint))
    ensures r["telemetryInfo"] == c.telemetryInfo
    ensures r["currentPanels"] == PanelMap(c.currentPanels)
  {
    event + CommonFieldsObject(c)
  }

  /** The events' own keys are distinct from each other and from the common keys. */
  lemma OwnKeysAreNotCommon()
    ensures "eventName" !in CommonKeys && "params" !in CommonKeys && "eventName" != "params"
  {
    assert |"eventName"| == 9 && |"params"| == 6;
    assert "eventName"[0] != "timestamp"[0];
  }

  /** A field of the event before decoration, other than a common one, reaches
      every listener unchanged. */
  lemma DeliveredField(flag: Value, ls: seq<ListenerId>, event: Event, c: CommonEventFields, key: string)
    requires key in event && key !in CommonKeys
    ensures forall d :: d in Deliveries(flag, ls, DecorateEvent(event, c)) ==> key in d.event && d.event[key] == event[key]
  {
  }

  /** The errors thrown by the listeners, in listener order. */
  function Failures(ls: seq<ListenerId>, event: Event, invoke: (ListenerId, Event) -> Option<Thrown>): seq<Thrown>
  {
    if |ls| == 0 then []
    else
      Failures(ls[..|ls| - 1], event, invoke)
      + (match invoke(ls[|ls| - 1], event) case Some(t) => [t] case None => [])
  }

  /** The aggregate error is reported exactly when some listener threw, and it holds
      one error per throwing listener. */
  lemma {:induction false} FailuresExactlyWhenSomeListenerThrows(
    ls: seq<ListenerId>, event: Event, invoke: (ListenerId, Event) -> Option<Thrown>)
    ensures Failures(ls, event, invoke) == [] <==> forall i :: 0 <= i < |ls| ==> invoke(ls[i], event).None?
    ensures |Failures(ls, event, invoke)| <= |ls|
  {
    if |ls| > 0 {
      var front := ls[..|ls| - 1];
      FailuresExactlyWhenSomeListenerThrows(front, event, invoke);
      assert forall i :: 0 <= i < |front| ==> front[i] == ls[i];
    }
  }

  /** What sendEvent hands to the listeners. */
  function Deliveries(flag: Value, ls: seq<ListenerId>, event: Event): (r: seq<Delivery>)
  {
    if IsEnabled(flag) then seq(|ls|, i requires 0 <= i < |ls| => Delivery(ls[i], event)) else []
  }

  /** The aggregate report: AggregateError(errors) when there are any. */
  function Report(errors: seq<Thrown>): Option<seq<Thrown>>
  {
    if |errors| > 0 then Some(errors) else None
  }

  /** What sendEvent reports: nothing when the flag is off, and otherwise the
      aggregate of the listeners' errors. */
  function Reported(flag: Value, ls: seq<ListenerId>, event: Event, invoke: (ListenerId, Event) -> Option<Thrown>): Option<seq<Thrown>>
  {
    if IsEnabled(flag) then Report(Failures(ls, event, invoke)) else None
  }

  // ---------------------------------------------------------------------------
  // The two helpers

  datatype ParsedUrl = ParsedUrl(url: string, scheme: string)

  function Min(a: int, b: int): int
  {
    if a <= b then a else b
  }

  /** The text of a shortened developer-resource URL. */
  function OmissionNotice(kept: string, omitted: int): string
  {
    kept + " …(omitted " + IntToString(omitted) + " characters)"
  }

  /** maybeTruncateDeveloperResourceUrl: http(s) URLs are kept, any other URL is cut
      to its first 100 characters and followed by the number of characters dropped,
      computed as `length - 100`. */
  function MaybeTruncateDeveloperResourceUrl(u: ParsedUrl): (r: string)
    ensures u.scheme == "http" || u.scheme == "https" ==> r == u.url
    ensures u.scheme != "http" && u.scheme != "https" ==>
      r == OmissionNotice(u.url[..Min(100, |u.url|)], |u.url| - 100)
  {
    if u.scheme == "http" || u.scheme == "https" then u.url
    else OmissionNotice(u.url[..Min(100, |u.url|)], |u.url| - 100)
  }

  /** A notice determines the kept text (given its length) and the count. */
  lemma OmissionNoticeDetermines(k1: string, n1: int, k2: string, n2: int)
    requires |k1| == |k2| && OmissionNotice(k1, n1) == OmissionNotice(k2, n2)
    ensures k1 == k2 && n1 == n2
  {
    var a, b := OmissionNotice(k1, n1), OmissionNotice(k2, n2);
    assert k1 == a[..|k1|] && k2 == b[..|k2|];
    var mid := " …(omitted ";
    var tail := " characters)";
    assert IntToString(n1) == a[|k1| + |mid|..|a| - |tail|];
    assert IntToString(n2) == b[|k2| + |mid|..|b| - |tail|];
    IntToStringRoundTrip(n1);
    IntToStringRoundTrip(n2);
  }

  /** For a long non-http URL the notice keeps a 100-character prefix and accounts for
      every other character. */
  lemma LongUrlNoticeAccountsForEveryCharacter(u: ParsedUrl, kept: string, omitted: int)
    requires u.scheme != "http" && u.scheme != "https" && |u.url| >= 100
    requires |kept| == 100 && MaybeTruncateDeveloperResourceUrl(u) == OmissionNotice(kept, omitted)
    ensures StartsWith(u.url, kept) && |kept| + omitted == |u.url| && omitted >= 0
  {
    OmissionNoticeDetermines(kept, omitted, u.url[..100], |u.url| - 100);
  }

  /** A short non-http URL is kept whole but still gets a notice, and the count in
      it is negative. */
  lemma ShortUrlNoticeHasNegativeCount(u: ParsedUrl)
    requires u.scheme != "http" && u.scheme != "https" && |u.url| < 100
    ensures StartsWith(MaybeTruncateDeveloperResourceUrl(u), u.url)
    ensures MaybeTruncateDeveloperResourceUrl(u) != u.url
    ensures IntToString(|u.url| - 100)[0] == '-'
  {
    IntToStringRoundTrip(|u.url| - 100);
    assert u.url[..Min(100, |u.url|)] == u.url;
  }

  /** maybeWrapError: an Error keeps its identity and its message is appended to the
      base message; anything else is wrapped in a new Error whose message is the
      combined message and whose cause is the thrown value. */
  function MaybeWrapError(baseMessage: string, error: Thrown): (r: (string, JsError))
    ensures StartsWith(r.0, baseMessage + ": ")
    ensures error.ErrorObject? ==> r.1 == error.err && r.0 == baseMessage + ": " + error.err.message
    ensures error.NonError? ==> r.1.cause == Some(error) && r.1.message == r.0
    ensures error.NonError? ==> r.0[|baseMessage| + 2..] == error.asString
  {
    match error
    case ErrorObject(e) => (baseMessage + ": " + e.message, e)
    case NonError(text) =>
      var message := baseMessage + ": " + text;
      (message, JsError(message, Some(error)))
  }

  const SetClientMetadataFailed: string := "[RNPerfMetrics] Fusebox setClientMetadata failed"

  /** The params of FuseboxSetClientMetadataFinished: `{success: true}`, or a
      failure with the wrapped error and its message. */
  function SetClientMetadataFinishedParams(success: bool, maybeError: Thrown): (v: Value)
    ensures v.Obj? && "success" in v.fields && v.fields["success"] == Bool(success)
    ensures success ==> v.fields.Keys == {"success"}
    ensures !success ==> v.fields.Keys == {"success", "error", "errorMessage"}
    ensures !success ==>
      && "error" in v.fields && v.fields["error"] == ErrorValue(MaybeWrapError(SetClientMetadataFailed, maybeError).1)
      && "errorMessage" in v.fields && v.fields["errorMessage"] == Str(MaybeWrapError(SetClientMetadataFailed, maybeError).0)
  {
    if success then Obj(map["success" := Bool(true)])
    else
      var (message, error) := MaybeWrapError(SetClientMetadataFailed, maybeError);
      Obj(map["success" := Bool(false), "error" := ErrorValue(error), "errorMessage" := Str(message)])
  }

  // ---------------------------------------------------------------------------
  // The events the hub's builders send, before decoration

  function EntryPointLoadingStartedEvent(ep: EntryPoint): Event
  {
    map["eventName" := Str("Entrypoint.LoadingStarted"), "entryPoint" := Str(EntryPointName(ep))]
  }

  function EntryPointLoadingFinishedEvent(ep: EntryPoint): Event
  {
    map["eventName" := Str("Entrypoint.LoadingFinished"), "entryPoint" := Str(EntryPointName(ep))]
  }

  function PanelShownEvent(panelName: string, location: PanelLocation): Event
  {
    map["eventName" := Str("PanelShown"),
        "params" := Obj(map["location" := Str(LocationName(location)), "newPanelName" := Str(panelName)])]
  }

  function DeveloperResourceLoadingStartedEvent(url: ParsedUrl, loadingMethod: Value): Event
  {
    map["eventName" := Str("DeveloperResource.LoadingStarted"),
        "params" := Obj(map["url" := Str(MaybeTruncateDeveloperResourceUrl(url)), "loadingMethod" := loadingMethod])]
  }

  function SetClientMetadataFinishedEvent(success: bool, maybeError: Thrown): Event
  {
    map["eventName" := Str("FuseboxSetClientMetadataFinished"),
        "params" := SetClientMetadataFinishedParams(success, maybeError)]
  }

  // ---------------------------------------------------------------------------
  // The hub

  class RNPerfMetrics {
    var listeners: seq<ListenerId>
    var launchId: Option<string>
    var appId: Option<string>
    var entryPoint: EntryPoint
    var telemetryInfo: Value
    var currentPanels: map<PanelLocation, string>

    predicate Valid()
      reads this
    {
      NoDuplicates(listeners)
    }

    constructor ()
      ensures Valid()
      ensures listeners == [] && launchId == None && appId == None
      ensures entryPoint == RnInspector && telemetryInfo == Obj(map[]) && currentPanels == map[]
    {
      listeners := [];
      launchId := None;
      appId := None;
      entryPoint := RnInspector;
      telemetryInfo := Obj(map[]);
      currentPanels := map[];
    }

    /** The session fields at the time of a call, with the clock's reading. */
    function CommonFields(timestamp: int): CommonEventFields
      reads this
    {
      CommonEventFields(timestamp, launchId, appId, entryPoint, telemetryInfo, currentPanels)
    }

    /** addEventListener; the returned unsubscribe function is `Unsubscribe(listener)`. */
    method AddEventListener(listener: ListenerId)
      requires Valid()
      modifies this
      ensures Valid()
      ensures listeners == Added(old(listeners), listener)
      ensures launchId == old(launchId) && appId == old(appId) && entryPoint == old(entryPoint)
      ensures telemetryInfo == old(telemetryInfo) && currentPanels == old(currentPanels)
    {
      listeners := Added(listeners, listener);
    }

    method Unsubscribe(listener: ListenerId)
      requires Valid()
      modifies this
      ensures Valid()
      ensures listeners == Removed(old(listeners), listener)
      ensures launchId == old(launchId) && appId == old(appId) && entryPoint == old(entryPoint)
      ensures telemetryInfo == old(telemetryInfo) && currentPanels == old(currentPanels)
    {
      listeners := Removed(listeners, listener);
    }

    method RemoveAllEventListeners()
      modifies this
      ensures Valid()
      ensures listeners == []
      ensures launchId == old(launchId) && appId == old(appId) && entryPoint == old(entryPoint)
      ensures telemetryInfo == old(telemetryInfo) && currentPanels == old(currentPanels)
    {
      listeners := [];
    }

    /** sendEvent: nothing happens unless the global flag is `true`; otherwise every
        listener receives the same decorated event, in order, whether or not earlier
        ones threw, and the errors are reported together once if there are any. */
    method SendEvent(flag: Value, event: Event, timestamp: int, invoke: (ListenerId, Event) -> Option<Thrown>)
      returns (deliveries: seq<Delivery>, report: Option<seq<Thrown>>)
      ensures !IsEnabled(flag) ==> deliveries == [] && report == None
      ensures IsEnabled(flag) ==> |deliveries| == |listeners|
      ensures IsEnabled(flag) ==> forall i :: 0 <= i < |listeners| ==>
        deliveries[i] == Delivery(listeners[i], DecorateEvent(event, CommonFields(timestamp)))
      ensures IsEnabled(flag) ==> report == Report(Failures(listeners, DecorateEvent(event, CommonFields(timestamp)), invoke))
      ensures deliveries == Deliveries(flag, listeners, DecorateEvent(event, CommonFields(timestamp)))
      ensures report == Reported(flag, listeners, DecorateEvent(event, CommonFields(timestamp)), invoke)
    {
      if !IsEnabled(flag) {
        return [], None;
      }
      var decorated := DecorateEvent(event, CommonFields(timestamp));
      deliveries := [];
      var errors: seq<Thrown> := [];
      for i := 0 to |listeners|
        invariant |deliveries| == i
        invariant forall j :: 0 <= j < i ==> deliveries[j] == Delivery(listeners[j], decorated)
        invariant errors == Failures(listeners[..i], decorated, invoke)
      {
        deliveries := deliveries + [Delivery(listeners[i], decorated)];
        var outcome := invoke(listeners[i], decorated);
        if outcome.Some? {
          errors := errors + [outcome.value];
        }
        assert listeners[..i + 1][..i] == listeners[..i];
      }
      assert listeners[..|listeners|] == listeners;
      report := Report(errors);
    }

    method SetLaunchId(id: Option<string>)
      modifies this
      ensures launchId == id
      ensures listeners == old(listeners) && appId == old(appId) && entryPoint == old(entryPoint)
      ensures telemetryInfo == old(telemetryInfo) && currentPanels == old(currentPanels)
    {
      launchId := id;
    }

    method SetAppId(id: Option<string>)
      modifies this
      ensures appId == id
      ensures listeners == old(listeners) && launchId == old(launchId) && entryPoint == old(entryPoint)
      ensures telemetryInfo == old(telemetryInfo) && currentPanels == old(currentPanels)
    {
      appId := id;
    }

    method SetTelemetryInfo(info: Value)
      modifies this
      ensures telemetryInfo == info
      ensures listeners == old(listeners) && launchId == old(launchId) && appId == old(appId)
      ensures entryPoint == old(entryPoint) && currentPanels == old(currentPanels)
    {
      telemetryInfo := info;
    }

    /** entryPointLoadingStarted stores the entry point first, so its own event
        already reports it. */
    method EntryPointLoadingStarted(flag: Value, ep: EntryPoint, timestamp: int, invoke: (ListenerId, Event) -> Option<Thrown>)
      returns (deliveries: seq<Delivery>, report: Option<seq<Thrown>>)
      modifies this
      ensures entryPoint == ep
      ensures listeners == old(listeners) && launchId == old(launchId) && appId == old(appId)
      ensures telemetryInfo == old(telemetryInfo) && currentPanels == old(currentPanels)
      ensures deliveries == Deliveries(flag, listeners, DecorateEvent(EntryPointLoadingStartedEvent(ep), CommonFields(timestamp)))
      ensures report == Reported(flag, listeners, DecorateEvent(EntryPointLoadingStartedEvent(ep), CommonFields(timestamp)), invoke)
      ensures forall d :: d in deliveries ==> "entryPoint" in d.event && d.event["entryPoint"] == Str(EntryPointName(ep))
    {
      entryPoint := ep;
      deliveries, report := SendEvent(flag, EntryPointLoadingStartedEvent(ep), timestamp, invoke);
    }

    /** entryPointLoadingFinished: the event's own entryPoint field is overridden by
        the stored one. */
    method EntryPointLoadingFinished(flag: Value, ep: EntryPoint, timestamp: int, invoke: (ListenerId, Event) -> Option<Thrown>)
      returns (deliveries: seq<Delivery>, report: Option<seq<Thrown>>)
      ensures deliveries == Deliveries(flag, listeners, DecorateEvent(EntryPointLoadingFinishedEvent(ep), CommonFields(timestamp)))
      ensures report == Reported(flag, listeners, DecorateEvent(EntryPointLoadingFinishedEvent(ep), CommonFields(timestamp)), invoke)
      ensures forall d :: d in deliveries ==> "entryPoint" in d.event && d.event["entryPoint"] == Str(EntryPointName(entryPoint))
      ensures forall d :: d in deliveries ==> "eventName" in d.event && d.event["eventName"] == Str("Entrypoint.LoadingFinished")
      ensures IsEnabled(flag) ==> |deliveries| == |listeners|
      ensures !IsEnabled(flag) ==> deliveries == []
    {
      var event := EntryPointLoadingFinishedEvent(ep);
      deliveries, report := SendEvent(flag, event, timestamp, invoke);
      OwnKeysAreNotCommon();
      DeliveredField(flag, listeners, event, CommonFields(timestamp), "eventName");
    }

    /** panelShownInLocation: the event carries the panel map as it was; only the
        entry for `location` changes afterwards. */
    method PanelShownInLocation(flag: Value, panelName: string, location: PanelLocation, timestamp: int,
                                invoke: (ListenerId, Event) -> Option<Thrown>)
      returns (deliveries: seq<Delivery>, report: Option<seq<Thrown>>)
      modifies this
      ensures currentPanels == old(currentPanels)[location := panelName]
      ensures listeners == old(listeners) && launchId == old(launchId) && appId == old(appId)
      ensures entryPoint == old(entryPoint) && telemetryInfo == old(telemetryInfo)
      ensures deliveries == Deliveries(flag, old(listeners), DecorateEvent(PanelShownEvent(panelName, location), old(CommonFields(timestamp))))
      ensures report == Reported(flag, old(listeners), DecorateEvent(PanelShownEvent(panelName, location), old(CommonFields(timestamp))), invoke)
      ensures IsEnabled(flag) ==> |deliveries| == |listeners|
      ensures forall d :: d in deliveries ==> "currentPanels" in d.event && d.event["currentPanels"] == PanelMap(old(currentPanels))
      ensures forall d :: d in deliveries ==>
        "params" in d.event && d.event["params"] == Obj(map["location" := Str(LocationName(location)), "newPanelName" := Str(panelName)])
      ensures forall d :: d in deliveries ==> "eventName" in d.event && d.event["eventName"] == Str("PanelShown")
    {
      var event := PanelShownEvent(panelName, location);
      deliveries, report := SendEvent(flag, event, timestamp, invoke);
      OwnKeysAreNotCommon();
      DeliveredField(flag, listeners, event, CommonFields(timestamp), "eventName");
      DeliveredField(flag, listeners, event, CommonFields(timestamp), "params");
      currentPanels := currentPanels[location := panelName];
    }

    /** developerResourceLoadingStarted: the URL is passed through the truncation. */
    method DeveloperResourceLoadingStarted(flag: Value, url: ParsedUrl, loadingMethod: Value, timestamp: int,
                                           invoke: (ListenerId, Event) -> Option<Thrown>)
      returns (deliveries: seq<Delivery>, report: Option<seq<Thrown>>)
      ensures deliveries == Deliveries(flag, listeners, DecorateEvent(DeveloperResourceLoadingStartedEvent(url, loadingMethod), CommonFields(timestamp)))
      ensures report == Reported(flag, listeners, DecorateEvent(DeveloperResourceLoadingStartedEvent(url, loadingMethod), CommonFields(timestamp)), invoke)
      ensures IsEnabled(flag) ==> |deliveries| == |listeners|
      ensures forall d :: d in deliveries ==>
        "params" in d.event && d.event["params"] == Obj(map["url" := Str(MaybeTruncateDeveloperResourceUrl(url)), "loadingMethod" := loadingMethod])
      ensures forall d :: d in deliveries ==>
        "eventName" in d.event && d.event["eventName"] == Str("DeveloperResource.LoadingStarted")
    {
      var event := DeveloperResourceLoadingStartedEvent(url, loadingMethod);
      deliveries, report := SendEvent(flag, event, timestamp, invoke);
      OwnKeysAreNotCommon();
      DeliveredField(flag, listeners, event, CommonFields(timestamp), "eventName");
      DeliveredField(flag, listeners, event, CommonFields(timestamp), "params");
    }

    /** fuseboxSetClientMetadataFinished: a failure carries the wrapped error. */
    method FuseboxSetClientMetadataFinished(flag: Value, success: bool, maybeError: Thrown, timestamp: int,
                                            invoke: (ListenerId, Event) -> Option<Thrown>)
      returns (deliveries: seq<Delivery>, report: Option<seq<Thrown>>)
      ensures deliveries == Deliveries(flag, listeners, DecorateEvent(SetClientMetadataFinishedEvent(success, maybeError), CommonFields(timestamp)))
      ensures report == Reported(flag, listeners, DecorateEvent(SetClientMetadataFinishedEvent(success, maybeError), CommonFields(timestamp)), invoke)
      ensures IsEnabled(flag) ==> |deliveries| == |listeners|
      ensures forall d :: d in deliveries ==>
        "params" in d.event && d.event["params"] == SetClientMetadataFinishedParams(success, maybeError)
      ensures forall d :: d in deliveries ==>
        "eventName" in d.event && d.event["eventName"] == Str("FuseboxSetClientMetadataFinished")
    {
      var event := SetClientMetadataFinishedEvent(success, maybeError);
      deliveries, report := SendEvent(flag, event, timestamp, invoke);
      OwnKeysAreNotCommon();
      DeliveredField(flag, listeners, event, CommonFields(timestamp), "eventName");
      DeliveredField(flag, listeners, event, CommonFields(timestamp), "params");
    }
  }

  /** getInstance: the module-level instance, created on first use. */
  class InstanceHolder {
    var instance: Option<RNPerfMetrics>

    constructor ()
      ensures instance == None
    {
      instance := None;
    }

    method GetInstance() returns (m: RNPerfMetrics)
      modifies this
      ensures old(instance).Some? ==> m == old(instance).value && instance == old(instance)
      ensures old(instance).None? ==>
        && fresh(m) && m.Valid() && m.listeners == []
        && m.launchId == None && m.appId == None && m.entryPoint == RnInspector
        && m.telemetryInfo == Obj(map[]) && m.currentPanels == map[]
      ensures instance == Some(m)
    {
      if instance.None? {
        var created := new RNPerfMetrics();
        instance := Some(created);
      }
      m := instance.value;
    }
  }
}
