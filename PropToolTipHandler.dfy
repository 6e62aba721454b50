/**
 * PropQueryToolTipHandler: the plug-in's own subscriber to prop custom
 * tooltips. On a debug query of an occupant it titles the tooltip with the
 * occupant's display name and adds its exemplar name as one line.
 */
module PropToolTipHandler {
  import opened Types
  import opened Wrappers
  import opened GZCom
  import opened GZStringUtil
  import opened HostData
  import opened PropertyUtil
  import opened OccupantUtil
  import opened ComBase
  import opened Registry
  import opened ToolTipHookServers

  class PropQueryToolTipHandler {
    const self: Pointer
    const base: UnknownBase

    constructor (self: Pointer)
      ensures this.self == self && fresh(base) && base.refCount == 0
    {
      this.self := self;
      base := new UnknownBase();
    }

    /** PostCityInit: subscribes to the prop server's custom tooltips when its class object is available (`hookServer`). */
    method PostCityInit(hookServer: QueryToolTipHookServer?)
      requires hookServer != null ==> hookServer.kind == Prop
      requires hookServer != null ==> hookServer.Valid()
      modifies hookServer
      ensures hookServer != null ==> hookServer.Valid()
      ensures hookServer != null ==>
        hookServer.customToolTipHookSubscribers == Added(old(hookServer.customToolTipHookSubscribers), self)
        && hookServer.appendToolTipHookSubscribers == old(hookServer.appendToolTipHookSubscribers)
        && hookServer.refCount == old(hookServer.refCount)
    {
      if hookServer != null {
        var _ := hookServer.AddCustomToolTipNotification(self);
      }
    }

    /** PreCityShutdown: unsubscribes. */
    method PreCityShutdown(hookServer: QueryToolTipHookServer?)
      requires hookServer != null ==> hookServer.kind == Prop
      requires hookServer != null ==> hookServer.Valid()
      modifies hookServer
      ensures hookServer != null ==> hookServer.Valid()
      ensures hookServer != null ==>
        hookServer.customToolTipHookSubscribers == Removed(old(hookServer.customToolTipHookSubscribers), self)
        && hookServer.appendToolTipHookSubscribers == old(hookServer.appendToolTipHookSubscribers)
        && hookServer.refCount == old(hookServer.refCount)
    {
      if hookServer != null {
        var _ := hookServer.RemoveCustomToolTipNotification(self);
      }
    }

    /** QueryInterface: the prop custom tooltip target interface is answered here; anything else by the base. */
    method QueryInterface(riid: InterfaceId, ppvObj: object?) returns (ok: bool, out: object?)
      modifies base`refCount
      ensures ok <==> riid == PropQueryCustomToolTipHookTargetIID || riid == GZUnknown
      ensures riid == PropQueryCustomToolTipHookTargetIID ==> out == this
      ensures riid == GZUnknown ==> out == base
      ensures ok ==> base.refCount == Incremented(old(base.refCount))
      ensures !ok ==> out == ppvObj && base.refCount == old(base.refCount)
    {
      if riid == PropQueryCustomToolTipHookTargetIID {
        out := this;
        var _ := base.AddRef();
        return true, out;
      }
      ok, out := base.QueryInterface(riid, ppvObj);
    }

    method AddRef() returns (count: uint32)
      modifies base`refCount
      ensures base.refCount == Incremented(old(base.refCount)) && count == base.refCount
    {
      count := base.AddRef();
    }

    method Release() returns (count: uint32)
      modifies base`refCount
      ensures base.refCount == Decremented(old(base.refCount)) && count == base.refCount
    {
      count := base.Release();
    }

    /**
     * ProcessToolTip: handles every debug query of an occupant (`holder` is
     * its properties, `None` for a null occupant). The title becomes the
     * display name, when one is found, and the text gains the exemplar name
     * line. Otherwise it returns false and changes nothing.
     */
    method ProcessToolTip(
      holder: Option<PropertyHolder>, debugQuery: bool, title: GZString, text: GZString,
      localized: (uint32, uint32) -> Option<string>)
      returns (result: bool)
      requires title != text
      modifies title, text
      ensures result <==> debugQuery && holder.Some?
      ensures result ==>
        var name := GetDisplayName(localized, holder);
        title.value == (if name.Some? then name.value else old(title.value))
        && text.value == old(text.value) + ExemplarNameLine(holder.value)
      ensures !result ==> title.value == old(title.value) && text.value == old(text.value)
    {
      result := false;
      if debugQuery && holder.Some? {
        var _ := SetDisplayName(localized, holder, title);
        ghost var named := title.value;
        AppendExemplarNameLine(holder.value, text);
        assert title.value == named;
        result := true;
      }
    }
  }
}
