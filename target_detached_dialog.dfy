/** Disconnect reasons and the crashed-target dialog
    (front_end/ui/legacy/components/utils/TargetDetachedDialog.ts): a classifier from
    WebSocket close details to a user-facing reason, and the class-wide slot that
    holds the function hiding the currently shown "target crashed" dialog. */
module TargetDetachedDialog {
  import opened Wrappers
  import opened Strings

  const WebsocketDisconnected: string := "WebSocket disconnected"
  const UnregisteredDevice: string :=
    "The corresponding app for this DevTools session cannot be found. Please relaunch DevTools from the terminal."
  const ConnectionLost: string := "Connection lost to corresponding device."
  const NewDebuggerOpened: string := "Disconnected due to opening a second DevTools window for the same app."

  datatype ConnectionLostDetails = ConnectionLostDetails(reason: Option<string>, code: Option<string>, errorType: Option<string>)

  /** `details.reason?.includes(marker)` */
  predicate ReasonMentions(d: ConnectionLostDetails, marker: string)
  {
    d.reason.Some? && Contains(d.reason.value, marker)
  }

  /** getCustomUiReason: close code 1011 with [UNREGISTERED_DEVICE], or code 1000
      with [CONNECTION_LOST] (checked first) or [NEW_DEBUGGER_OPENED]; anything
      else, including no details, has no custom reason. */
  function GetCustomUiReason(details: Option<ConnectionLostDetails>): (r: Option<string>)
    ensures details.None? ==> r.None?
    ensures r == Some(UnregisteredDevice) <==>
      details.Some? && details.value.code == Some("1011") && ReasonMentions(details.value, "[UNREGISTERED_DEVICE]")
    ensures r == Some(ConnectionLost) <==>
      details.Some? && details.value.code == Some("1000") && ReasonMentions(details.value, "[CONNECTION_LOST]")
    ensures r == Some(NewDebuggerOpened) <==>
      && details.Some? && details.value.code == Some("1000")
      && ReasonMentions(details.value, "[NEW_DEBUGGER_OPENED]") && !ReasonMentions(details.value, "[CONNECTION_LOST]")
    ensures r.None? || r.value in {UnregisteredDevice, ConnectionLost, NewDebuggerOpened}
  {
    if details.None? then None
    else
      var d := details.value;
      if d.code == Some("1011") && ReasonMentions(d, "[UNREGISTERED_DEVICE]") then Some(UnregisteredDevice)
      else if d.code == Some("1000") && ReasonMentions(d, "[CONNECTION_LOST]") then Some(ConnectionLost)
      else if d.code == Some("1000") && ReasonMentions(d, "[NEW_DEBUGGER_OPENED]") then Some(NewDebuggerOpened)
      else None
  }

  /** The reason connectionLost shows: the custom one, or "WebSocket disconnected". */
  function ConnectionLostUiReason(details: Option<ConnectionLostDetails>): (r: string)
    ensures GetCustomUiReason(details).None? <==> r == WebsocketDisconnected
    ensures GetCustomUiReason(details).Some? ==> r == GetCustomUiReason(details).value
    ensures r in {WebsocketDisconnected, UnregisteredDevice, ConnectionLost, NewDebuggerOpened}
  {
    match GetCustomUiReason(details)
    case Some(reason) => reason
    case None => WebsocketDisconnected
  }

  /** The classification only looks at the code and the reason. */
  lemma UiReasonIgnoresErrorType(reason: Option<string>, code: Option<string>, e1: Option<string>, e2: Option<string>)
    ensures ConnectionLostUiReason(Some(ConnectionLostDetails(reason, code, e1)))
         == ConnectionLostUiReason(Some(ConnectionLostDetails(reason, code, e2)))
  {
  }

  datatype TargetType = Browser | Frame | ServiceWorker | Worker | Node | Tab | OtherTarget

  /** The dialogs are numbered in the order they are shown. */
  type DialogId = nat

  /** The static `hideCrashedDialog` slot, with the dialogs it has shown and hidden. */
  class CrashDialogLatch {
    var hideCrashedDialog: Option<DialogId>
    var shown: seq<DialogId>
    var hidden: seq<DialogId>
    var runIfWaitingRequests: nat

    /** The slot holds the newest dialog, which has not been hidden through it. */
    predicate Valid()
      reads this
    {
      && (forall i :: 0 <= i < |shown| ==> shown[i] == i)
      && (hideCrashedDialog.Some? ==> hideCrashedDialog.value == |shown| - 1 && hideCrashedDialog.value !in hidden)
      && (forall h :: h in hidden ==> h < |shown|)
    }

    constructor ()
      ensures Valid()
      ensures hideCrashedDialog == None && shown == [] && hidden == [] && runIfWaitingRequests == 0
    {
      hideCrashedDialog := None;
      shown := [];
      hidden := [];
      runIfWaitingRequests := 0;
    }

    /** The constructor of a TargetDetachedDialog for a new target: a top-level
        target (parent is the browser) hides and clears a shown crash dialog. */
    method OnTargetConstructed(parent: Option<TargetType>)
      requires Valid()
      modifies this
      ensures Valid()
      ensures parent == Some(Browser) && old(hideCrashedDialog).Some? ==>
        hideCrashedDialog == None && hidden == old(hidden) + [old(hideCrashedDialog).value]
      ensures !(parent == Some(Browser) && old(hideCrashedDialog).Some?) ==>
        hideCrashedDialog == old(hideCrashedDialog) && hidden == old(hidden)
      ensures shown == old(shown) && runIfWaitingRequests == old(runIfWaitingRequests)
    {
      if parent == Some(Browser) && hideCrashedDialog.Some? {
        hidden := hidden + [hideCrashedDialog.value];
        hideCrashedDialog := None;
      }
    }

    /** targetCrashed: ignored while a crash dialog is shown and for a target whose
        parent is not the browser; otherwise shows a new dialog and latches it. */
    method TargetCrashed(parent: Option<TargetType>)
      requires Valid()
      modifies this
      ensures Valid()
      ensures old(hideCrashedDialog).Some? || (parent.Some? && parent != Some(Browser)) ==>
        hideCrashedDialog == old(hideCrashedDialog) && shown == old(shown)
      ensures old(hideCrashedDialog).None? && (parent.None? || parent == Some(Browser)) ==>
        shown == old(shown) + [|old(shown)|] && hideCrashedDialog == Some(|old(shown)|)
      ensures hidden == old(hidden) && runIfWaitingRequests == old(runIfWaitingRequests)
    {
      if hideCrashedDialog.Some? {
        return;
      }
      if parent.Some? && parent != Some(Browser) {
        return;
      }
      var dialog := |shown|;
      shown := shown + [dialog];
      hideCrashedDialog := Some(dialog);
    }

    /** The callback given to the crashed screen: clears the slot. */
    method CrashScreenClosed()
      requires Valid()
      modifies this
      ensures Valid()
      ensures hideCrashedDialog == None
      ensures shown == old(shown) && hidden == old(hidden) && runIfWaitingRequests == old(runIfWaitingRequests)
    {
      hideCrashedDialog := None;
    }

    /** targetReloadedAfterCrash: resumes the target, then hides and clears any
        shown crash dialog. */
    method TargetReloadedAfterCrash()
      requires Valid()
      modifies this
      ensures Valid()
      ensures hideCrashedDialog == None
      ensures old(hideCrashedDialog).Some? ==> hidden == old(hidden) + [old(hideCrashedDialog).value]
      ensures old(hideCrashedDialog).None? ==> hidden == old(hidden)
      ensures shown == old(shown) && runIfWaitingRequests == old(runIfWaitingRequests) + 1
    {
      runIfWaitingRequests := runIfWaitingRequests + 1;
      if hideCrashedDialog.Some? {
        hidden := hidden + [hideCrashedDialog.value];
        hideCrashedDialog := None;
      }
    }
  }
}
