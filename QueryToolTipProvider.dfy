/**
 * QueryToolTipProvider: the data provider that owns the three tooltip
 * handlers. It answers each handler's custom tooltip target interface with
 * that handler, the unknown interface itself, and passes every lifecycle
 * notification on to the flora, network and prop handlers, in that order.
 *
 * The order of the notifications is recorded in the ghost `lifecycle` log;
 * the handlers' host objects (the date object, the plumbing simulator, the
 * language manager and the hook servers' class objects) are parameters.
 */
module QueryToolTipProvider {
  import opened Types
  import opened Wrappers
  import opened GZCom
  import opened ComBase
  import opened Registry
  import opened ToolTipHookServers
  import FloraToolTipHandler
  import NetworkToolTipHandler
  import PropToolTipHandler

  datatype LifecycleEvent = AppInitialized | AppShuttingDown | CityInitialized | CityShuttingDown

  /** One lifecycle notification passed on to the handler for one kind of occupant. */
  datatype LifecycleCall = LifecycleCall(handler: OccupantKind, event: LifecycleEvent)

  /** The calls a provider notification makes: the flora handler first, then the network, then the prop handler. */
  function FanOut(event: LifecycleEvent): (calls: seq<LifecycleCall>)
    ensures |calls| == 3
    ensures forall i :: 0 <= i < |calls| ==> calls[i].event == event
    ensures calls[0].handler == Flora && calls[1].handler == Network && calls[2].handler == Prop
  {
    [LifecycleCall(Flora, event), LifecycleCall(Network, event), LifecycleCall(Prop, event)]
  }

  /** A server argument: `null` when its class object is unavailable, otherwise the server for `kind`, keeping its invariant. */
  ghost predicate ServerFor(server: QueryToolTipHookServer?, kind: OccupantKind)
    reads server
  {
    server != null ==> server.kind == kind && server.Valid()
  }

  /** The server's custom tooltip set with `target` added (or removed), and nothing else about the server changed. */
  twostate predicate Subscribed(server: QueryToolTipHookServer?, target: Pointer, add: bool)
    reads server
  {
    server != null ==>
      server.customToolTipHookSubscribers
        == (if add then Added(old(server.customToolTipHookSubscribers), target)
            else Removed(old(server.customToolTipHookSubscribers), target))
      && server.appendToolTipHookSubscribers == old(server.appendToolTipHookSubscribers)
      && server.refCount == old(server.refCount)
  }

  class QueryToolTipProvider {
    const base: UnknownBase
    const floraToolTipHandler: FloraToolTipHandler.FloraQueryToolTipHandler
    const networkToolTipHandler: NetworkToolTipHandler.NetworkQueryToolTipHandler
    const propToolTipHandler: PropToolTipHandler.PropQueryToolTipHandler
    ghost var lifecycle: seq<LifecycleCall>

    /** The provider and its three handlers each have a reference count of their own. */
    predicate Valid()
    {
      base != floraToolTipHandler.base && base != networkToolTipHandler.base && base != propToolTipHandler.base
      && floraToolTipHandler.base != networkToolTipHandler.base && floraToolTipHandler.base != propToolTipHandler.base
      && networkToolTipHandler.base != propToolTipHandler.base
    }

    /** The handlers are members of the provider; `flora`, `network` and `prop` are their addresses. */
    constructor (flora: Pointer, network: Pointer, prop: Pointer)
      ensures Valid() && fresh(base) && base.refCount == 0
      ensures floraToolTipHandler.self == flora && networkToolTipHandler.self == network && propToolTipHandler.self == prop
      ensures lifecycle == []
    {
      base := new UnknownBase();
      floraToolTipHandler := new FloraToolTipHandler.FloraQueryToolTipHandler(flora);
      networkToolTipHandler := new NetworkToolTipHandler.NetworkQueryToolTipHandler(network);
      propToolTipHandler := new PropToolTipHandler.PropQueryToolTipHandler(prop);
      lifecycle := [];
    }

    /**
     * QueryInterface: a handler's custom tooltip target interface is
     * answered by that handler, the unknown interface by the provider, and
     * nothing else. Only the object answering gains a reference.
     */
    method QueryInterface(riid: InterfaceId, ppvObj: object?) returns (ok: bool, out: object?)
      requires Valid()
      modifies base`refCount, floraToolTipHandler.base`refCount, networkToolTipHandler.base`refCount,
        propToolTipHandler.base`refCount
      ensures ok <==> riid in {NetworkQueryCustomToolTipHookTargetIID, FloraQueryCustomToolTipHookTargetIID,
        PropQueryCustomToolTipHookTargetIID, GZUnknown}
      ensures riid == NetworkQueryCustomToolTipHookTargetIID ==> out == networkToolTipHandler
      ensures riid == FloraQueryCustomToolTipHookTargetIID ==> out == floraToolTipHandler
      ensures riid == PropQueryCustomToolTipHookTargetIID ==> out == propToolTipHandler
      ensures riid == GZUnknown ==> out == base
      ensures !ok ==> out == ppvObj
      ensures base.refCount == if riid == GZUnknown then Incremented(old(base.refCount)) else old(base.refCount)
      ensures networkToolTipHandler.base.refCount == if riid == NetworkQueryCustomToolTipHookTargetIID
        then Incremented(old(networkToolTipHandler.base.refCount)) else old(networkToolTipHandler.base.refCount)
      ensures floraToolTipHandler.base.refCount == if riid == FloraQueryCustomToolTipHookTargetIID
        then Incremented(old(floraToolTipHandler.base.refCount)) else old(floraToolTipHandler.base.refCount)
      ensures propToolTipHandler.base.refCount == if riid == PropQueryCustomToolTipHookTargetIID
        then Incremented(old(propToolTipHandler.base.refCount)) else old(propToolTipHandler.base.refCount)
    {
      if riid == NetworkQueryCustomToolTipHookTargetIID {
        ok, out := networkToolTipHandler.QueryInterface(riid, ppvObj);
      } else if riid == FloraQueryCustomToolTipHookTargetIID {
        ok, out := floraToolTipHandler.QueryInterface(riid, ppvObj);
      } else if riid == PropQueryCustomToolTipHookTargetIID {
        ok, out := propToolTipHandler.QueryInterface(riid, ppvObj);
      } else {
        ok, out := base.QueryInterface(riid, ppvObj);
      }
    }

    /**
     * PostAppInit: the flora handler keeps the language manager; the network
     * and prop handlers have the base's empty PostAppInit.
     */
    method PostAppInit(languageManager: FloraToolTipHandler.LanguageManager)
      modifies floraToolTipHandler`pLM, this`lifecycle
      ensures floraToolTipHandler.pLM == Some(languageManager)
      ensures lifecycle == old(lifecycle) + FanOut(AppInitialized)
    {
      floraToolTipHandler.PostAppInit(languageManager);
      lifecycle := lifecycle + [LifecycleCall(Flora, AppInitialized)];
      networkToolTipHandler.base.PostAppInit();
      lifecycle := lifecycle + [LifecycleCall(Network, AppInitialized)];
      propToolTipHandler.base.PostAppInit();
      lifecycle := lifecycle + [LifecycleCall(Prop, AppInitialized)];
    }

    /** PreAppShutdown: the flora handler drops the language manager; the others do nothing. */
    method PreAppShutdown()
      modifies floraToolTipHandler`pLM, this`lifecycle
      ensures floraToolTipHandler.pLM.None?
      ensures lifecycle == old(lifecycle) + FanOut(AppShuttingDown)
    {
      floraToolTipHandler.PreAppShutdown();
      lifecycle := lifecycle + [LifecycleCall(Flora, AppShuttingDown)];
      networkToolTipHandler.base.PreAppShutdown();
      lifecycle := lifecycle + [LifecycleCall(Network, AppShuttingDown)];
      propToolTipHandler.base.PreAppShutdown();
      lifecycle := lifecycle + [LifecycleCall(Prop, AppShuttingDown)];
    }

    /**
     * PostCityInit: the flora handler keeps the city's date, the network
     * handler its plumbing simulator, and each handler subscribes to its own
     * server's custom tooltips.
     */
    method PostCityInit(
      cityDate: FloraToolTipHandler.SimDate, plumbing: Option<NetworkToolTipHandler.PlumbingSimulator>,
      floraServer: QueryToolTipHookServer?, networkServer: QueryToolTipHookServer?, propServer: QueryToolTipHookServer?)
      requires ServerFor(floraServer, Flora) && ServerFor(networkServer, Network) && ServerFor(propServer, Prop)
      modifies floraToolTipHandler`pDate, networkToolTipHandler`pPlumbingSim, floraServer, networkServer, propServer,
        this`lifecycle
      ensures floraToolTipHandler.pDate == Some(cityDate) && networkToolTipHandler.pPlumbingSim == plumbing
      ensures Subscribed(floraServer, floraToolTipHandler.self, true)
      ensures Subscribed(networkServer, networkToolTipHandler.self, true)
      ensures Subscribed(propServer, propToolTipHandler.self, true)
      ensures ServerFor(floraServer, Flora) && ServerFor(networkServer, Network) && ServerFor(propServer, Prop)
      ensures lifecycle == old(lifecycle) + FanOut(CityInitialized)
    {
      floraToolTipHandler.PostCityInit(cityDate, floraServer);
      lifecycle := lifecycle + [LifecycleCall(Flora, CityInitialized)];
      networkToolTipHandler.PostCityInit(plumbing, networkServer);
      lifecycle := lifecycle + [LifecycleCall(Network, CityInitialized)];
      propToolTipHandler.PostCityInit(propServer);
      lifecycle := lifecycle + [LifecycleCall(Prop, CityInitialized)];
    }

    /** PreCityShutdown: the handlers drop their city objects and unsubscribe. */
    method PreCityShutdown(
      floraServer: QueryToolTipHookServer?, networkServer: QueryToolTipHookServer?, propServer: QueryToolTipHookServer?)
      requires ServerFor(floraServer, Flora) && ServerFor(networkServer, Network) && ServerFor(propServer, Prop)
      modifies floraToolTipHandler`pDate, networkToolTipHandler`pPlumbingSim, floraServer, networkServer, propServer,
        this`lifecycle
      ensures floraToolTipHandler.pDate.None? && networkToolTipHandler.pPlumbingSim.None?
      ensures Subscribed(floraServer, floraToolTipHandler.self, false)
      ensures Subscribed(networkServer, networkToolTipHandler.self, false)
      ensures Subscribed(propServer, propToolTipHandler.self, false)
      ensures ServerFor(floraServer, Flora) && ServerFor(networkServer, Network) && ServerFor(propServer, Prop)
      ensures lifecycle == old(lifecycle) + FanOut(CityShuttingDown)
    {
      floraToolTipHandler.PreCityShutdown(floraServer);
      lifecycle := lifecycle + [LifecycleCall(Flora, CityShuttingDown)];
      networkToolTipHandler.PreCityShutdown(networkServer);
      lifecycle := lifecycle + [LifecycleCall(Network, CityShuttingDown)];
      propToolTipHandler.PreCityShutdown(propServer);
      lifecycle := lifecycle + [LifecycleCall(Prop, CityShuttingDown)];
    }
  }
}
