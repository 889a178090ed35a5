/** The React DevTools model (front_end/panels/react_devtools/ReactDevToolsModel.ts):
    it initialises the React DevTools bindings once, creates the bridge and store
    when the backend is ready, relays domain messages to the wall listeners and tears
    down on context destruction. The asynchronous `#initialize` is split into its
    steps: start, `enable` resolved, `initializeDomain` resolved, either one rejected.
    `createBridge`/`createStore` are modelled by numbering the bridges they create. */
module ReactDevToolsModel {
  import opened Wrappers
  import opened ListenerSets

  datatype ModelEvent = InitializationCompleted | InitializationFailed(message: string) | Destroyed

  /** Where `#initialize` stands: not started, awaiting `enable()`, awaiting
      `initializeDomain()`, or finished (successfully or not). */
  datatype InitPhase = NotStarted | AwaitingEnable | AwaitingInitializeDomain | InitFinished

  datatype Message = Message(event: string, payload: string)

  datatype Bridge = Bridge(generation: nat)

  datatype Store = Store(bridge: Bridge)

  datatype WallDelivery = WallDelivery(listener: ListenerId, message: Message)

  const BridgeMissing: string := "Failed to get bridge from ReactDevToolsModel: bridge was null"
  const StoreMissing: string := "Failed to get store from ReactDevToolsModel: store was null"

  /** The position of the first listener that throws on `message`, or `|ls|`. */
  function FirstThrower(ls: seq<ListenerId>, message: Message, throws: (ListenerId, Message) -> bool): (n: nat)
    ensures n <= |ls|
    ensures forall i :: 0 <= i < n ==> !throws(ls[i], message)
    ensures n < |ls| ==> throws(ls[n], message)
    decreases |ls|
  {
    if |ls| == 0 then 0
    else if throws(ls[0], message) then 0
    else 1 + FirstThrower(ls[1..], message, throws)
  }

  /** A position before which nobody throws, and at which someone throws or the
      listeners end, is the first thrower. */
  lemma FirstThrowerIsFirst(ls: seq<ListenerId>, message: Message, throws: (ListenerId, Message) -> bool, k: nat)
    requires k <= |ls|
    requires forall i :: 0 <= i < k ==> !throws(ls[i], message)
    requires k < |ls| ==> throws(ls[k], message)
    ensures FirstThrower(ls, message, throws) == k
  {
  }

  class ReactDevToolsModel {
    var initializeCalled: bool
    var initialized: bool
    var phase: InitPhase
    /** The handler registered with subscribeToDomainMessages. */
    var subscribed: bool
    var bridge: Option<Bridge>
    var store: Option<Store>
    var listeners: seq<ListenerId>
    /** Events dispatched to the model's listeners, in order. */
    var events: seq<ModelEvent>
    var bridgesCreated: nat
    /** Bridges on which shutdown() was called. */
    var shutdowns: seq<Bridge>
    /** Messages passed to the bindings model's sendMessage. */
    var sent: seq<Message>

    predicate Valid()
      reads this
    {
      && NoDuplicates(listeners)
      && (initializeCalled <==> phase != NotStarted)
      && (subscribed ==> initializeCalled)
      && (phase == AwaitingInitializeDomain ==> subscribed)
      && (initialized ==> subscribed && phase == InitFinished)
      && (bridge.Some? <==> store.Some?)
      && (store.Some? ==> store.value.bridge == bridge.value)
      && (bridge.Some? ==> bridge.value.generation < bridgesCreated)
    }

    constructor ()
      ensures Valid()
      ensures !initializeCalled && !initialized && phase == NotStarted && !subscribed
      ensures bridge == None && store == None && listeners == [] && events == []
      ensures bridgesCreated == 0 && shutdowns == [] && sent == []
    {
      initializeCalled := false;
      initialized := false;
      phase := NotStarted;
      subscribed := false;
      bridge := None;
      store := None;
      listeners := [];
      events := [];
      bridgesCreated := 0;
      shutdowns := [];
      sent := [];
    }

    predicate IsInitialized(): (r: bool)
      reads this
      ensures Valid() && r ==> subscribed && initializeCalled && phase == InitFinished
    {
      initialized
    }

    /** getBridgeOrThrow: fails exactly when there is no bridge. */
    function GetBridgeOrThrow(): (r: Result<Bridge, string>)
      reads this
      ensures r.Failure? <==> bridge.None?
      ensures r.Success? ==> bridge == Some(r.value)
      ensures r.Failure? ==> r.error == BridgeMissing
    {
      match bridge
      case Some(b) => Success(b)
      case None => Failure(BridgeMissing)
    }

    /** getStoreOrThrow: fails exactly when there is no store. */
    function GetStoreOrThrow(): (r: Result<Store, string>)
      reads this
      ensures r.Failure? <==> store.None?
      ensures r.Success? ==> store == Some(r.value)
      ensures r.Failure? ==> r.error == StoreMissing
    {
      match store
      case Some(s) => Success(s)
      case None => Failure(StoreMissing)
    }

    /** ensureInitialized: starts `#initialize` (which first calls `enable()`) the
        first time only. */
    method EnsureInitialized()
      requires Valid()
      modifies this
      ensures Valid()
      ensures old(initializeCalled) ==> phase == old(phase)
      ensures !old(initializeCalled) ==> phase == AwaitingEnable
      ensures initializeCalled
      ensures initialized == old(initialized) && subscribed == old(subscribed)
      ensures bridge == old(bridge) && store == old(store) && listeners == old(listeners)
      ensures events == old(events) && bridgesCreated == old(bridgesCreated)
      ensures shutdowns == old(shutdowns) && sent == old(sent)
    {
      if initializeCalled {
        return;
      }
      initializeCalled := true;
      phase := AwaitingEnable;
    }

    /** `await bindingsModel.enable()` resolved: the domain-message handler is
        subscribed and `initializeDomain` is awaited. */
    method EnableSucceeded()
      requires Valid()
      modifies this
      ensures Valid()
      ensures old(phase) == AwaitingEnable ==> phase == AwaitingInitializeDomain && subscribed
      ensures old(phase) != AwaitingEnable ==> phase == old(phase) && subscribed == old(subscribed)
      ensures initializeCalled == old(initializeCalled) && initialized == old(initialized)
      ensures bridge == old(bridge) && store == old(store) && listeners == old(listeners)
      ensures events == old(events) && bridgesCreated == old(bridgesCreated)
      ensures shutdowns == old(shutdowns) && sent == old(sent)
    {
      if phase != AwaitingEnable {
        return;
      }
      subscribed := true;
      phase := AwaitingInitializeDomain;
    }

    /** #finishInitializationAndNotify: a new bridge over the wall, a store over it,
        then InitializationCompleted. */
    method FinishInitializationAndNotify()
      requires Valid()
      modifies this
      ensures Valid()
      ensures bridge == Some(Bridge(old(bridgesCreated))) && store == Some(Store(Bridge(old(bridgesCreated))))
      ensures bridgesCreated == old(bridgesCreated) + 1
      ensures events == old(events) + [InitializationCompleted]
      ensures initializeCalled == old(initializeCalled) && initialized == old(initialized)
      ensures phase == old(phase) && subscribed == old(subscribed) && listeners == old(listeners)
      ensures shutdowns == old(shutdowns) && sent == old(sent)
    {
      var b := Bridge(bridgesCreated);
      bridgesCreated := bridgesCreated + 1;
      bridge := Some(b);
      store := Some(Store(b));
      events := events + [InitializationCompleted];
    }

    /** `await bindingsModel.initializeDomain(...)` resolved: the model is
        initialized and the bridge and store are created. */
    method InitializeDomainSucceeded()
      requires Valid()
      modifies this
      ensures Valid()
      ensures old(phase) == AwaitingInitializeDomain ==>
        && initialized && phase == InitFinished
        && bridge == Some(Bridge(old(bridgesCreated))) && bridgesCreated == old(bridgesCreated) + 1
        && events == old(events) + [InitializationCompleted]
      ensures old(phase) != AwaitingInitializeDomain ==>
        && initialized == old(initialized) && phase == old(phase)
        && bridge == old(bridge) && bridgesCreated == old(bridgesCreated) && events == old(events)
      ensures initializeCalled == old(initializeCalled) && subscribed == old(subscribed)
      ensures listeners == old(listeners) && shutdowns == old(shutdowns) && sent == old(sent)
    {
      if phase != AwaitingInitializeDomain {
        return;
      }
      initialized := true;
      phase := InitFinished;
      FinishInitializationAndNotify();
    }

    /** enable() or initializeDomain() rejected: InitializationFailed with the
        error's message. */
    method InitializationStepFailed(message: string)
      requires Valid()
      modifies this
      ensures Valid()
      ensures old(phase) == AwaitingEnable || old(phase) == AwaitingInitializeDomain ==>
        phase == InitFinished && events == old(events) + [InitializationFailed(message)]
      ensures !(old(phase) == AwaitingEnable || old(phase) == AwaitingInitializeDomain) ==>
        phase == old(phase) && events == old(events)
      ensures initializeCalled == old(initializeCalled) && initialized == old(initialized)
      ensures subscribed == old(subscribed) && bridge == old(bridge) && store == old(store)
      ensures listeners == old(listeners) && bridgesCreated == old(bridgesCreated)
      ensures shutdowns == old(shutdowns) && sent == old(sent)
    {
      if phase != AwaitingEnable && phase != AwaitingInitializeDomain {
        return;
      }
      phase := InitFinished;
      events := events + [InitializationFailed(message)];
    }

    /** #handleBackendExecutionContextCreated: if the bindings model is not enabled
        yet, initialization is (re)requested; otherwise the bridge and store are
        created straight away. */
    method BackendExecutionContextCreated(bindingsEnabled: bool)
      requires Valid()
      modifies this
      ensures Valid()
      ensures !bindingsEnabled ==>
        && initializeCalled && subscribed == old(subscribed)
        && (old(initializeCalled) ==> phase == old(phase))
        && (!old(initializeCalled) ==> phase == AwaitingEnable)
        && bridge == old(bridge) && store == old(store)
        && events == old(events) && bridgesCreated == old(bridgesCreated)
      ensures bindingsEnabled ==>
        && bridge == Some(Bridge(old(bridgesCreated))) && store == Some(Store(Bridge(old(bridgesCreated))))
        && bridgesCreated == old(bridgesCreated) + 1
        && events == old(events) + [InitializationCompleted]
        && phase == old(phase) && subscribed == old(subscribed) && initializeCalled == old(initializeCalled)
      ensures initialized == old(initialized) && listeners == old(listeners)
      ensures shutdowns == old(shutdowns) && sent == old(sent)
    {
      if !bindingsEnabled {
        EnsureInitialized();
      } else {
        FinishInitializationAndNotify();
      }
    }

    /** #handleBackendExecutionContextUnavailable */
    method BackendExecutionContextUnavailable(errorMessage: string)
      requires Valid()
      modifies this
      ensures Valid()
      ensures events == old(events) + [InitializationFailed(errorMessage)]
      ensures initializeCalled == old(initializeCalled) && initialized == old(initialized)
      ensures phase == old(phase) && subscribed == old(subscribed)
      ensures bridge == old(bridge) && store == old(store) && listeners == old(listeners)
      ensures bridgesCreated == old(bridgesCreated) && shutdowns == old(shutdowns) && sent == old(sent)
    {
      events := events + [InitializationFailed(errorMessage)];
    }

    /** #handleBackendExecutionContextDestroyed: shuts the bridge down, drops bridge,
        store and wall listeners, and emits Destroyed; the initialization flags stay. */
    method BackendExecutionContextDestroyed()
      requires Valid()
      modifies this
      ensures Valid()
      ensures bridge == None && store == None && listeners == []
      ensures shutdowns == old(shutdowns) + (if old(bridge).Some? then [old(bridge).value] else [])
      ensures events == old(events) + [Destroyed]
      ensures initializeCalled == old(initializeCalled) && initialized == old(initialized)
      ensures phase == old(phase) && subscribed == old(subscribed)
      ensures bridgesCreated == old(bridgesCreated) && sent == old(sent)
    {
      if bridge.Some? {
        shutdowns := shutdowns + [bridge.value];
      }
      bridge := None;
      store := None;
      listeners := [];
      events := events + [Destroyed];
    }

    /** `window` beforeunload: the bridge (if any) is shut down. */
    method BeforeUnload()
      requires Valid()
      modifies this
      ensures Valid()
      ensures shutdowns == old(shutdowns) + (if old(bridge).Some? then [old(bridge).value] else [])
      ensures initializeCalled == old(initializeCalled) && initialized == old(initialized)
      ensures phase == old(phase) && subscribed == old(subscribed)
      ensures bridge == old(bridge) && store == old(store) && listeners == old(listeners)
      ensures events == old(events) && bridgesCreated == old(bridgesCreated) && sent == old(sent)
    {
      if bridge.Some? {
        shutdowns := shutdowns + [bridge.value];
      }
    }

    /** wall.listen; the function it returns is `WallUnlisten(listener)`. */
    method WallListen(listener: ListenerId)
      requires Valid()
      modifies this
      ensures Valid()
      ensures listeners == Added(old(listeners), listener)
      ensures initializeCalled == old(initializeCalled) && initialized == old(initialized)
      ensures phase == old(phase) && subscribed == old(subscribed)
      ensures bridge == old(bridge) && store == old(store) && events == old(events)
      ensures bridgesCreated == old(bridgesCreated) && shutdowns == old(shutdowns) && sent == old(sent)
    {
      listeners := Added(listeners, listener);
    }

    method WallUnlisten(listener: ListenerId)
      requires Valid()
      modifies this
      ensures Valid()
      ensures listeners == Removed(old(listeners), listener)
      ensures initializeCalled == old(initializeCalled) && initialized == old(initialized)
      ensures phase == old(phase) && subscribed == old(subscribed)
      ensures bridge == old(bridge) && store == old(store) && events == old(events)
      ensures bridgesCreated == old(bridgesCreated) && shutdowns == old(shutdowns) && sent == old(sent)
    {
      listeners := Removed(listeners, listener);
    }

    /** wall.send: forwarded to the bindings model under the React DevTools namespace. */
    method WallSend(event: string, payload: string)
      requires Valid()
      modifies this
      ensures Valid()
      ensures sent == old(sent) + [Message(event, payload)]
      ensures initializeCalled == old(initializeCalled) && initialized == old(initialized)
      ensures phase == old(phase) && subscribed == old(subscribed)
      ensures bridge == old(bridge) && store == old(store) && listeners == old(listeners)
      ensures events == old(events) && bridgesCreated == old(bridgesCreated) && shutdowns == old(shutdowns)
    {
      sent := sent + [Message(event, payload)];
    }

    /** #handleMessage: a missing message is dropped; any other goes to the wall
        listeners in insertion order. There is no try/catch: the first listener that
        throws ends the fan-out, and its exception propagates (`thrownBy`). */
    method HandleMessage(message: Option<Message>, throws: (ListenerId, Message) -> bool)
      returns (deliveries: seq<WallDelivery>, thrownBy: Option<ListenerId>)
      ensures message.None? ==> deliveries == [] && thrownBy == None
      ensures message.Some? ==>
        var n := FirstThrower(listeners, message.value, throws);
        && (n < |listeners| ==> thrownBy == Some(listeners[n]) && |deliveries| == n + 1)
        && (n == |listeners| ==> thrownBy == None && |deliveries| == |listeners|)
      ensures message.Some? ==> forall i :: 0 <= i < |deliveries| ==>
        i < |listeners| && deliveries[i] == WallDelivery(listeners[i], message.value)
    {
      thrownBy := None;
      if message.None? {
        return [], None;
      }
      deliveries := [];
      var i := 0;
      while i < |listeners|
        invariant 0 <= i <= |listeners| && |deliveries| == i
        invariant forall j :: 0 <= j < i ==> deliveries[j] == WallDelivery(listeners[j], message.value)
        invariant forall j :: 0 <= j < i ==> !throws(listeners[j], message.value)
      {
        deliveries := deliveries + [WallDelivery(listeners[i], message.value)];
        if throws(listeners[i], message.value) {
          FirstThrowerIsFirst(listeners, message.value, throws, i);
          return deliveries, Some(listeners[i]);
        }
        i := i + 1;
      }
      FirstThrowerIsFirst(listeners, message.value, throws, i);
    }
  }
}
