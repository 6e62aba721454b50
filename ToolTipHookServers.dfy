/**
 * FloraQueryToolTipHookServer, NetworkQueryToolTipHookServer and
 * PropQueryToolTipHookServer. The three classes have the same code apart from
 * their names and interface IDs, so they are one class here, told apart by
 * the kind of occupant they serve. Each keeps a custom-tooltip set, an
 * append-text set and a reference count.
 */
module ToolTipHookServers {
  import opened Types
  import opened GZCom
  import opened GZStringUtil
  import opened HookDispatch
  import opened Registry

  datatype OccupantKind = Flora | Network | Prop

  /** The server interface each kind answers in QueryInterface. */
  function ServerIID(kind: OccupantKind): (iid: InterfaceId)
    ensures iid != GZUnknown
  {
    match kind
    case Flora => FloraQueryToolTipHookServerIID
    case Network => NetworkQueryToolTipHookServerIID
    case Prop => PropQueryToolTipHookServerIID
  }

  /** No server answers another kind's interface. */
  lemma ServerIIDsDistinct(a: OccupantKind, b: OccupantKind)
    ensures ServerIID(a) == ServerIID(b) <==> a == b
  {
  }

  /** The tooltip arguments a custom-tooltip subscriber may rewrite. */
  datatype ToolTipText = ToolTipText(title: string, text: string)

  class QueryToolTipHookServer {
    const kind: OccupantKind
    var refCount: uint32
    var customToolTipHookSubscribers: set<Pointer>
    var appendToolTipHookSubscribers: set<Pointer>

    ghost predicate Valid()
      reads this
    {
      NULL !in customToolTipHookSubscribers && NULL !in appendToolTipHookSubscribers
    }

    constructor (kind: OccupantKind)
      ensures this.kind == kind && Valid() && refCount == 0
      ensures customToolTipHookSubscribers == {} && appendToolTipHookSubscribers == {}
    {
      this.kind := kind;
      refCount := 0;
      customToolTipHookSubscribers := {};
      appendToolTipHookSubscribers := {};
    }

    /** QueryInterface: only this kind's server IID and the unknown interface succeed; otherwise a null out pointer, false and no AddRef. */
    method QueryInterface(riid: InterfaceId) returns (ok: bool, ppvObj: object?)
      modifies this
      ensures ok <==> riid == ServerIID(kind) || riid == GZUnknown
      ensures ok ==> ppvObj == this && refCount == Incremented(old(refCount))
      ensures !ok ==> ppvObj == null && refCount == old(refCount)
      ensures customToolTipHookSubscribers == old(customToolTipHookSubscribers)
      ensures appendToolTipHookSubscribers == old(appendToolTipHookSubscribers)
    {
      if riid == ServerIID(kind) {
        ppvObj := this;
        var _ := AddRef();
        return true, ppvObj;
      } else if riid == GZUnknown {
        ppvObj := this;
        var _ := AddRef();
        return true, ppvObj;
      }
      ppvObj := null;
      return false, ppvObj;
    }

    method AddRef() returns (count: uint32)
      modifies this`refCount
      ensures refCount == Incremented(old(refCount)) && count == refCount
    {
      refCount := Incremented(refCount);
      count := refCount;
    }

    method Release() returns (count: uint32)
      modifies this`refCount
      ensures refCount == Decremented(old(refCount)) && count == refCount
    {
      if refCount > 0 {
        refCount := refCount - 1;
      }
      count := refCount;
    }

    function HasCustomToolTipSubscribers(): (r: bool)
      reads this
      ensures r <==> exists t :: t in customToolTipHookSubscribers
    {
      |customToolTipHookSubscribers| > 0
    }

    function HasAppendToolTipSubscribers(): (r: bool)
      reads this
      ensures r <==> exists t :: t in appendToolTipHookSubscribers
    {
      |appendToolTipHookSubscribers| > 0
    }

    /** SendCustomToolTipMessage: first-responder dispatch sharing the title and text. */
    method SendCustomToolTipMessage(
      order: seq<Pointer>, occupant: Pointer, debugQuery: bool, title: GZString, text: GZString,
      processToolTip: (Pointer, Pointer, bool, ToolTipText) -> Reply<ToolTipText>)
      returns (tooltipHandled: bool)
      requires IsEnumeration(order, customToolTipHookSubscribers)
      requires title != text
      modifies title, text
      ensures var r := FirstResponder(order, occupant, debugQuery, ToolTipText(old(title.value), old(text.value)), processToolTip);
        tooltipHandled == r.handled && ToolTipText(title.value, text.value) == r.state
    {
      var initial := ToolTipText(title.value, text.value);
      tooltipHandled := false;
      var subscriberCount := |customToolTipHookSubscribers|;
      EnumerationEmpty(order, customToolTipHookSubscribers);
      if subscriberCount > 0 {
        var final;
        tooltipHandled, final := DispatchFirstResponder(order, occupant, debugQuery, initial, processToolTip);
        title.Copy(final.title);
        text.Copy(final.text);
      }
    }

    /** SendAppendToolTipMessage: the append broadcast, guarded (as written) by the custom tooltip set's size. */
    method SendAppendToolTipMessage(
      order: seq<Pointer>, occupant: Pointer, debugQuery: bool, destination: GZString,
      appendText: (Pointer, Pointer, bool) -> Reply<string>)
      requires IsEnumeration(order, appendToolTipHookSubscribers)
      modifies destination
      ensures destination.value == old(destination.value) +
        if customToolTipHookSubscribers != {} then AppendedText(order, occupant, debugQuery, appendText) else []
    {
      var subscriberCount := |customToolTipHookSubscribers|;
      if subscriberCount > 0 {
        AppendBroadcast(order, occupant, debugQuery, appendText, destination);
      }
    }

    /** AddNotification(cI<Kind>QueryCustomToolTipHookTarget*). */
    method AddCustomToolTipNotification(target: Pointer) returns (result: bool)
      requires Valid()
      modifies this`customToolTipHookSubscribers
      ensures Valid()
      ensures result == AddReports(old(customToolTipHookSubscribers), target)
      ensures customToolTipHookSubscribers == Added(old(customToolTipHookSubscribers), target)
    {
      result := false;
      if target != NULL {
        result := target !in customToolTipHookSubscribers;
        customToolTipHookSubscribers := customToolTipHookSubscribers + {target};
      }
    }

    /** RemoveNotification(cI<Kind>QueryCustomToolTipHookTarget*). */
    method RemoveCustomToolTipNotification(target: Pointer) returns (result: bool)
      requires Valid()
      modifies this`customToolTipHookSubscribers
      ensures Valid()
      ensures result == RemoveReports(old(customToolTipHookSubscribers), target)
      ensures customToolTipHookSubscribers == Removed(old(customToolTipHookSubscribers), target)
    {
      result := false;
      if target != NULL {
        result := target in customToolTipHookSubscribers;
        customToolTipHookSubscribers := customToolTipHookSubscribers - {target};
      }
    }

    /** AddNotification(cIQueryToolTipAppendTextHookTarget*). */
    method AddAppendToolTipNotification(target: Pointer) returns (result: bool)
      requires Valid()
      modifies this`appendToolTipHookSubscribers
      ensures Valid()
      ensures result == AddReports(old(appendToolTipHookSubscribers), target)
      ensures appendToolTipHookSubscribers == Added(old(appendToolTipHookSubscribers), target)
    {
      result := false;
      if target != NULL {
        result := target !in appendToolTipHookSubscribers;
        appendToolTipHookSubscribers := appendToolTipHookSubscribers + {target};
      }
    }

    /** RemoveNotification(cIQueryToolTipAppendTextHookTarget*). */
    method RemoveAppendToolTipNotification(target: Pointer) returns (result: bool)
      requires Valid()
      modifies this`appendToolTipHookSubscribers
      ensures Valid()
      ensures result == RemoveReports(old(appendToolTipHookSubscribers), target)
      ensures appendToolTipHookSubscribers == Removed(old(appendToolTipHookSubscribers), target)
    {
      result := false;
      if target != NULL {
        result := target in appendToolTipHookSubscribers;
        appendToolTipHookSubscribers := appendToolTipHookSubscribers - {target};
      }
    }
  }
}
