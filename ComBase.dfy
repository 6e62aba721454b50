/**
 * DataProviderBase and QueryToolTipHandlerBase: the two base classes of the
 * plug-in's data providers and tooltip handlers. Their code is the same: a
 * reference count that starts at 0 and never drops below it, an object that
 * is never destroyed, a QueryInterface that answers only the unknown
 * interface, and application lifecycle hooks that do nothing. The derived
 * classes hold one of these and forward to it.
 */
module ComBase {
  import opened Types
  import opened GZCom

  class UnknownBase {
    var refCount: uint32

    constructor ()
      ensures refCount == 0
    {
      refCount := 0;
    }

    /**
     * QueryInterface: the unknown interface is answered with `this` and one
     * more reference; anything else returns false and leaves the caller's out
     * pointer as it was (`ppvObj`).
     */
    method QueryInterface(riid: InterfaceId, ppvObj: object?) returns (ok: bool, out: object?)
      modifies this`refCount
      ensures ok <==> riid == GZUnknown
      ensures ok ==> out == this && refCount == Incremented(old(refCount))
      ensures !ok ==> out == ppvObj && refCount == old(refCount)
    {
      out := ppvObj;
      ok := false;
      if riid == GZUnknown {
        out := this;
        var _ := AddRef();
        ok := true;
      }
    }

    /** AddRef: `++refCount`, returning the new count. */
    method AddRef() returns (count: uint32)
      modifies this`refCount
      ensures refCount == Incremented(old(refCount)) && count == refCount
    {
      refCount := Incremented(refCount);
      count := refCount;
    }

    /** Release: one less when positive, returning the count; the object is never deleted. */
    method Release() returns (count: uint32)
      modifies this`refCount
      ensures refCount == Decremented(old(refCount)) && count == refCount
    {
      if refCount > 0 {
        refCount := refCount - 1;
      }
      count := refCount;
    }

    /** The default PostAppInit and PreAppShutdown: nothing happens. */
    method PostAppInit()
      ensures unchanged(this)
    {
    }

    method PreAppShutdown()
      ensures unchanged(this)
    {
    }
  }
}
