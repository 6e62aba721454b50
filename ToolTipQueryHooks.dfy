/**
 * The network, flora and prop tooltip hooks. Each first offers the tooltip
 * to its server's custom tooltip subscribers; a tooltip they handle is left
 * exactly as they set it. Otherwise the network hook lets the game build the
 * tooltip, while the flora and prop hooks, which replace a game function that
 * has nothing to add, set the title to the occupant's display name; then the
 * append subscribers extend the text.
 *
 * The network hook reads the debug keys once per step, the flora and prop
 * hooks once per call. The server pointer is `null` when the plug-in has none.
 */
module ToolTipQueryHooks {
  import opened Types
  import opened Wrappers
  import opened GZCom
  import opened GZStringUtil
  import opened HookDispatch
  import opened HostData
  import opened PropertyUtil
  import opened OccupantUtil
  import opened ToolTipHookServers
  import opened ShimTrace
  import opened Patcher

  /** Whether SetCustomToolTip reaches the server: it exists and has a custom tooltip subscriber. */
  predicate CustomDispatched(server: QueryToolTipHookServer?)
    reads server
  {
    server != null && server.HasCustomToolTipSubscribers()
  }

  /**
   * The text SetAppendedToolTipText adds: only a server with an append
   * subscriber is asked, and it broadcasts, as written, only while it also
   * has a custom tooltip subscriber.
   */
  function AppendStep(
    server: QueryToolTipHookServer?, order: seq<Pointer>, occupant: Pointer, debugQuery: bool,
    appendText: (Pointer, Pointer, bool) -> Reply<string>): string
    reads server
  {
    if server != null && server.HasAppendToolTipSubscribers() && server.customToolTipHookSubscribers != {} then
      AppendedText(order, occupant, debugQuery, appendText)
    else
      []
  }

  /** SetCustomToolTip: true exactly when the server was asked and a subscriber handled the tooltip. */
  method SetCustomToolTip(
    server: QueryToolTipHookServer?, order: seq<Pointer>, occupant: Pointer, debugQuery: bool,
    title: GZString, text: GZString,
    processToolTip: (Pointer, Pointer, bool, ToolTipText) -> Reply<ToolTipText>)
    returns (handled: bool)
    requires server != null ==> IsEnumeration(order, server.customToolTipHookSubscribers)
    requires title != text
    modifies title, text
    ensures var r := CustomToolTipStep(CustomDispatched(server), order, occupant, debugQuery,
        ToolTipText(old(title.value), old(text.value)), processToolTip);
      handled == r.handled && ToolTipText(title.value, text.value) == r.state
  {
    handled := false;
    if server != null && server.HasCustomToolTipSubscribers() {
      var sent := server.SendCustomToolTipMessage(order, occupant, debugQuery, title, text, processToolTip);
      if sent {
        handled := true;
      }
    }
  }

  /** SetAppendedToolTipText: the append broadcast, asked for only when the server has an append subscriber. */
  method SetAppendedToolTipText(
    server: QueryToolTipHookServer?, order: seq<Pointer>, occupant: Pointer, debugQuery: bool,
    destination: GZString, appendText: (Pointer, Pointer, bool) -> Reply<string>)
    requires server != null ==> IsEnumeration(order, server.appendToolTipHookSubscribers)
    modifies destination
    ensures destination.value == old(destination.value) + AppendStep(server, order, occupant, debugQuery, appendText)
  {
    if server != null && server.HasAppendToolTipSubscribers() {
      server.SendAppendToolTipMessage(order, occupant, debugQuery, destination, appendText);
    }
  }

  /**
   * HookedGetNetworkOccupantTipInfo: a handled tooltip is final and the game
   * is not called; otherwise the game builds the tooltip from what the
   * subscribers left, then the append step extends its text.
   */
  method HookedGetNetworkOccupantTipInfo(
    server: QueryToolTipHookServer?, customOrder: seq<Pointer>, appendOrder: seq<Pointer>, occupant: Pointer,
    debugAtCustom: bool, debugAtAppend: bool, title: GZString, text: GZString,
    processToolTip: (Pointer, Pointer, bool, ToolTipText) -> Reply<ToolTipText>,
    appendText: (Pointer, Pointer, bool) -> Reply<string>,
    realGetNetworkOccupantTipInfo: (Pointer, ToolTipText) -> ToolTipText,
    trace: Trace)
    requires server != null ==> IsEnumeration(customOrder, server.customToolTipHookSubscribers)
    requires server != null ==> IsEnumeration(appendOrder, server.appendToolTipHookSubscribers)
    requires title != text
    modifies title, text, trace
    ensures var custom := CustomToolTipStep(CustomDispatched(server), customOrder, occupant, debugAtCustom,
        ToolTipText(old(title.value), old(text.value)), processToolTip);
      if custom.handled then
        ToolTipText(title.value, text.value) == custom.state && trace.calls == old(trace.calls)
      else
        var game := realGetNetworkOccupantTipInfo(occupant, custom.state);
        title.value == game.title
        && text.value == game.text + AppendStep(server, appendOrder, occupant, debugAtAppend, appendText)
        && trace.calls == old(trace.calls) + [RealGetNetworkOccupantTipInfo(occupant)]
  {
    var handled := SetCustomToolTip(server, customOrder, occupant, debugAtCustom, title, text, processToolTip);
    if !handled {
      var game := realGetNetworkOccupantTipInfo(occupant, ToolTipText(title.value, text.value));
      trace.Record(RealGetNetworkOccupantTipInfo(occupant));
      title.Copy(game.title);
      text.Copy(game.text);
      SetAppendedToolTipText(server, appendOrder, occupant, debugAtAppend, text, appendText);
    }
  }

  /**
   * HookedGetFloraOccupantTipInfo and HookedGetPropOccupantTipInfo: the debug
   * keys and the occupant are read once and shared by both steps. A handled
   * tooltip is left as the subscribers set it; otherwise the title becomes
   * the display name, when one is found, and the append step extends the
   * text. `holder` is the occupant's property holder, `None` exactly when the
   * occupant pointer is null.
   */
  method HookedGetNamedOccupantTipInfo(
    server: QueryToolTipHookServer?, customOrder: seq<Pointer>, appendOrder: seq<Pointer>,
    occupant: Pointer, holder: Option<PropertyHolder>, localized: (uint32, uint32) -> Option<string>,
    debugQuery: bool, title: GZString, text: GZString,
    processToolTip: (Pointer, Pointer, bool, ToolTipText) -> Reply<ToolTipText>,
    appendText: (Pointer, Pointer, bool) -> Reply<string>)
    requires server != null ==> IsEnumeration(customOrder, server.customToolTipHookSubscribers)
    requires server != null ==> IsEnumeration(appendOrder, server.appendToolTipHookSubscribers)
    requires occupant == NULL <==> holder.None?
    requires title != text
    modifies title, text
    ensures var custom := CustomToolTipStep(CustomDispatched(server), customOrder, occupant, debugQuery,
        ToolTipText(old(title.value), old(text.value)), processToolTip);
      if custom.handled then
        ToolTipText(title.value, text.value) == custom.state
      else
        var name := GetDisplayName(localized, holder);
        title.value == (if name.Some? then name.value else custom.state.title)
        && text.value == custom.state.text + AppendStep(server, appendOrder, occupant, debugQuery, appendText)
  {
    var handled := SetCustomToolTip(server, customOrder, occupant, debugQuery, title, text, processToolTip);
    if !handled {
      var _ := SetDisplayName(localized, holder, title);
      SetAppendedToolTipText(server, appendOrder, occupant, debugQuery, text, appendText);
    }
  }

  /**
   * For a null occupant no display name exists, so an unhandled flora or prop
   * tooltip keeps the title the custom step left.
   */
  lemma NullOccupantKeepsTitle(localized: (uint32, uint32) -> Option<string>)
    ensures GetDisplayName(localized, None).None?
  {
  }

  /** As written, the append subscribers never extend a tooltip while the server has no custom tooltip subscriber. */
  lemma AppendNeedsCustomSubscriber(
    server: QueryToolTipHookServer?, order: seq<Pointer>, occupant: Pointer, debugQuery: bool,
    appendText: (Pointer, Pointer, bool) -> Reply<string>)
    requires server != null && server.customToolTipHookSubscribers == {}
    ensures !CustomDispatched(server)
    ensures AppendStep(server, order, occupant, debugQuery, appendText) == []
  {
  }

  /** The call sites of the three tooltip hooks. */
  const NETWORK_TIP_INFO_SITE: uint32 := 0x4D_74A8
  const FLORA_TIP_INFO_SITE: uint32 := 0x4D_747F
  const PROP_TIP_INFO_SITE: uint32 := 0x4D_74BF

  /** The site each kind's Install patches. */
  function TipInfoSite(kind: OccupantKind): uint32
  {
    match kind
    case Network => NETWORK_TIP_INFO_SITE
    case Flora => FLORA_TIP_INFO_SITE
    case Prop => PROP_TIP_INFO_SITE
  }

  /** NetworkQueryHooks::Install, FloraQueryHooks::Install and PropQueryHooks::Install: one CALL to the kind's hook. */
  method Install(memory: ProcessMemory, kind: OccupantKind, hook: uint32, protect: uint32 -> bool) returns (thrown: bool)
    modifies memory
    ensures Installation(thrown, memory.bytes) == InstallAll(old(memory.bytes), [CallHook(TipInfoSite(kind), hook)], protect)
  {
    var site := TipInfoSite(kind);
    thrown := memory.InstallCallHook(site, hook, protect(site));
    assert [CallHook(site, hook)][1..] == [];
  }

  /** The three hooks patch three non-overlapping sites, so installing all of them leaves each one's CALL intact. */
  lemma TipInfoSitesDisjoint(a: OccupantKind, b: OccupantKind)
    requires a != b
    ensures Disjoint(TipInfoSite(a), TipInfoSite(b))
  {
  }
}
