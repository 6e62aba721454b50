/**
 * BuildingQueryHookServer: the singleton registry for the building query
 * dialog and building tooltip hooks. It keeps three independent subscriber
 * sets (dialog notifications, custom tooltips, appended tooltip text) and a
 * reference count that never drops below zero.
 *
 * The sets are unordered, so every dispatch takes `order`, an arbitrary but
 * fixed iteration order of the set it walks. Subscriber callbacks are
 * functions of their arguments.
 */
module BuildingHookServer {
  import opened Types
  import opened GZCom
  import opened GZStringUtil
  import opened HookDispatch
  import opened Registry

  /** The arguments a building custom-tooltip subscriber may rewrite: title, text, the two image IDs and the meter. */
  datatype BuildingToolTip = BuildingToolTip(
    title: string,
    text: string,
    backgroundImageIID: uint32,
    meterImageIID: uint32,
    meterPercentage: Float)

  class BuildingQueryHookServer {
    var refCount: uint32
    var dialogHookSubscribers: set<Pointer>
    var customToolTipHookSubscribers: set<Pointer>
    var appendToolTipHookSubscribers: set<Pointer>

    /** No set ever holds the null pointer: every add refuses it. */
    ghost predicate Valid()
      reads this
    {
      NULL !in dialogHookSubscribers && NULL !in customToolTipHookSubscribers && NULL !in appendToolTipHookSubscribers
    }

    constructor ()
      ensures Valid() && refCount == 0
      ensures dialogHookSubscribers == {} && customToolTipHookSubscribers == {} && appendToolTipHookSubscribers == {}
    {
      refCount := 0;
      dialogHookSubscribers := {};
      customToolTipHookSubscribers := {};
      appendToolTipHookSubscribers := {};
    }

    /**
     * QueryInterface: answers the server interface and the unknown interface
     * with `this` and one more reference; any other IID writes a null out
     * pointer and returns false.
     */
    method QueryInterface(riid: InterfaceId) returns (ok: bool, ppvObj: object?)
      modifies this
      ensures ok <==> riid == BuildingQueryHookServerIID || riid == GZUnknown
      ensures ok ==> ppvObj == this && refCount == Incremented(old(refCount))
      ensures !ok ==> ppvObj == null && refCount == old(refCount)
      ensures dialogHookSubscribers == old(dialogHookSubscribers)
      ensures customToolTipHookSubscribers == old(customToolTipHookSubscribers)
      ensures appendToolTipHookSubscribers == old(appendToolTipHookSubscribers)
    {
      if riid == BuildingQueryHookServerIID {
        ppvObj := this;
        var _ := AddRef();
        return true, ppvObj;
      } else if riid == GZUnknown {
        ppvObj := this;
        var _ := AddRef();
        return true, ppvObj;
      }
      ppvObj := null;
      return false, ppvObj;
    }

    /** AddRef: `++refCount`, returning the new count. */
    method AddRef() returns (count: uint32)
      modifies this`refCount
      ensures refCount == Incremented(old(refCount)) && count == refCount
    {
      refCount := Incremented(refCount);
      count := refCount;
    }

    /** Release: one less when positive; the singleton is never destroyed. */
    method Release() returns (count: uint32)
      modifies this`refCount
      ensures refCount == Decremented(old(refCount)) && count == refCount
    {
      if refCount > 0 {
        refCount := refCount - 1;
      }
      count := refCount;
    }

    /** AddNotification(cIBuildingQueryDialogHookTarget*). */
    method AddDialogNotification(target: Pointer) returns (result: bool)
      requires Valid()
      modifies this`dialogHookSubscribers
      ensures Valid()
      ensures result == AddReports(old(dialogHookSubscribers), target)
      ensures dialogHookSubscribers == Added(old(dialogHookSubscribers), target)
    {
      result := false;
      if target != NULL {
        result := target !in dialogHookSubscribers;
        dialogHookSubscribers := dialogHookSubscribers + {target};
      }
    }

    /** RemoveNotification(cIBuildingQueryDialogHookTarget*). */
    method RemoveDialogNotification(target: Pointer) returns (result: bool)
      requires Valid()
      modifies this`dialogHookSubscribers
      ensures Valid()
      ensures result == RemoveReports(old(dialogHookSubscribers), target)
      ensures dialogHookSubscribers == Removed(old(dialogHookSubscribers), target)
    {
      result := false;
      if target != NULL {
        result := target in dialogHookSubscribers;
        dialogHookSubscribers := dialogHookSubscribers - {target};
      }
    }

    /** AddNotification(cIBuildingQueryCustomToolTipHookTarget*). */
    method AddCustomToolTipNotification(target: Pointer) returns (result: bool)
      requires Valid()
      modifies this`customToolTipHookSubscribers
      ensures Valid()
      ensures result == AddReports(old(customToolTipHookSubscribers), target)
      ensures customToolTipHookSubscribers == Added(old(customToolTipHookSubscribers), target)
    {
      result := false;
      if target != NULL {
        result := target !in customToolTipHookSubscribers;
        customToolTipHookSubscribers := customToolTipHookSubscribers + {target};
      }
    }

    /** RemoveNotification(cIBuildingQueryCustomToolTipHookTarget*). */
    method RemoveCustomToolTipNotification(target: Pointer) returns (result: bool)
      requires Valid()
      modifies this`customToolTipHookSubscribers
      ensures Valid()
      ensures result == RemoveReports(old(customToolTipHookSubscribers), target)
      ensures customToolTipHookSubscribers == Removed(old(customToolTipHookSubscribers), target)
    {
      result := false;
      if target != NULL {
        result := target in customToolTipHookSubscribers;
        customToolTipHookSubscribers := customToolTipHookSubscribers - {target};
      }
    }

    /** AddNotification(cIQueryToolTipAppendTextHookTarget*). */
    method AddAppendToolTipNotification(target: Pointer) returns (result: bool)
      requires Valid()
      modifies this`appendToolTipHookSubscribers
      ensures Valid()
      ensures result == AddReports(old(appendToolTipHookSubscribers), target)
      ensures appendToolTipHookSubscribers == Added(old(appendToolTipHookSubscribers), target)
    {
      result := false;
      if target != NULL {
        result := target !in appendToolTipHookSubscribers;
        appendToolTipHookSubscribers := appendToolTipHookSubscribers + {target};
      }
    }

    /** RemoveNotification(cIQueryToolTipAppendTextHookTarget*). */
    method RemoveAppendToolTipNotification(target: Pointer) returns (result: bool)
      requires Valid()
      modifies this`appendToolTipHookSubscribers
      ensures Valid()
      ensures result == RemoveReports(old(appendToolTipHookSubscribers), target)
      ensures appendToolTipHookSubscribers == Removed(old(appendToolTipHookSubscribers), target)
    {
      result := false;
      if target != NULL {
        result := target in appendToolTipHookSubscribers;
        appendToolTipHookSubscribers := appendToolTipHookSubscribers - {target};
      }
    }

    /** HasCustomToolTipSubscribers. */
    function HasCustomToolTipSubscribers(): (r: bool)
      reads this
      ensures r <==> exists t :: t in customToolTipHookSubscribers
    {
      |customToolTipHookSubscribers| > 0
    }

    /** HasAppendToolTipSubscribers. */
    function HasAppendToolTipSubscribers(): (r: bool)
      reads this
      ensures r <==> exists t :: t in appendToolTipHookSubscribers
    {
      |appendToolTipHookSubscribers| > 0
    }

    /**
     * SendBeforeQueryDialogNotifications: calls BeforeDialogShown(occupant)
     * on every dialog subscriber; returns the subscribers called, in order.
     */
    method SendBeforeQueryDialogNotifications(order: seq<Pointer>) returns (notified: seq<Pointer>)
      requires IsEnumeration(order, dialogHookSubscribers)
      requires Valid()
      ensures forall t :: multiset(notified)[t] == if t in dialogHookSubscribers then 1 else 0
      ensures notified == NonNull(order)
    {
      notified := SendDialogNotifications(order);
    }

    /** SendAfterQueryDialogNotifications: the same broadcast, calling AfterDialogShown(occupant). */
    method SendAfterQueryDialogNotifications(order: seq<Pointer>) returns (notified: seq<Pointer>)
      requires IsEnumeration(order, dialogHookSubscribers)
      requires Valid()
      ensures forall t :: multiset(notified)[t] == if t in dialogHookSubscribers then 1 else 0
      ensures notified == NonNull(order)
    {
      notified := SendDialogNotifications(order);
    }

    method SendDialogNotifications(order: seq<Pointer>) returns (notified: seq<Pointer>)
      requires IsEnumeration(order, dialogHookSubscribers)
      requires Valid()
      ensures forall t :: multiset(notified)[t] == if t in dialogHookSubscribers then 1 else 0
      ensures notified == NonNull(order)
    {
      notified := [];
      var subscriberCount := |dialogHookSubscribers|;
      EnumerationEmpty(order, dialogHookSubscribers);
      if subscriberCount > 0 {
        notified := Broadcast(order);
      }
      BroadcastCallsEachOnce(order, dialogHookSubscribers);
    }

    /**
     * SendCustomToolTipMessage: first-responder dispatch over the custom
     * tooltip subscribers, which share the title, text, image IDs and meter.
     * Returns whether one handled the tooltip and the final values of the
     * by-reference arguments.
     */
    method SendCustomToolTipMessage(
      order: seq<Pointer>, occupant: Pointer, debugQuery: bool,
      title: GZString, text: GZString,
      backgroundImageIID: uint32, meterImageIID: uint32, meterPercentage: Float,
      processToolTip: (Pointer, Pointer, bool, BuildingToolTip) -> Reply<BuildingToolTip>)
      returns (tooltipHandled: bool, result: BuildingToolTip)
      requires IsEnumeration(order, customToolTipHookSubscribers)
      requires title != text
      modifies title, text
      ensures var r := FirstResponder(order, occupant, debugQuery,
          BuildingToolTip(old(title.value), old(text.value), backgroundImageIID, meterImageIID, meterPercentage),
          processToolTip);
        tooltipHandled == r.handled && result == r.state
      ensures title.value == result.title && text.value == result.text
    {
      var initial := BuildingToolTip(title.value, text.value, backgroundImageIID, meterImageIID, meterPercentage);
      tooltipHandled, result := false, initial;
      var subscriberCount := |customToolTipHookSubscribers|;
      EnumerationEmpty(order, customToolTipHookSubscribers);
      if subscriberCount > 0 {
        tooltipHandled, result := DispatchFirstResponder(order, occupant, debugQuery, initial, processToolTip);
        title.Copy(result.title);
        text.Copy(result.text);
      }
    }

    /**
     * SendAppendToolTipMessage: broadcast over the append subscribers, each
     * accepted text becoming one line of `destination`. As written, the
     * broadcast is guarded by the size of the CUSTOM tooltip set, so append
     * subscribers are not called while no custom tooltip subscriber exists.
     */
    method SendAppendToolTipMessage(
      order: seq<Pointer>, occupant: Pointer, debugQuery: bool, destination: GZString,
      appendText: (Pointer, Pointer, bool) -> Reply<string>)
      requires IsEnumeration(order, appendToolTipHookSubscribers)
      modifies destination
      ensures destination.value == old(destination.value) +
        if customToolTipHookSubscribers != {} then AppendedText(order, occupant, debugQuery, appendText) else []
    {
      var subscriberCount := |customToolTipHookSubscribers|;
      if subscriberCount > 0 {
        AppendBroadcast(order, occupant, debugQuery, appendText, destination);
      }
    }
  }
}
