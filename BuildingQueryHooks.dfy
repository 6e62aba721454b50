/**
 * The building query hooks: the shims the plug-in patches into the game's
 * query tool. The query dialog is wrapped in the hook server's before and
 * after notifications; the building tooltip first offers itself to the custom
 * tooltip subscribers and, when none of them takes it, is built by the game
 * and then extended by the append subscribers; a Shift-click with the query
 * tool copies the lot or flora under the cursor.
 *
 * The server pointer is `null` when the plug-in has none. The game functions
 * are oracles whose calls go into a `Trace`; the occupant under the tool and
 * the state of the debug key combination are inputs.
 */
module BuildingQueryHooks {
  import opened Types
  import opened Wrappers
  import opened GZCom
  import opened GZStringUtil
  import opened HookDispatch
  import opened BuildingHookServer
  import opened ShimTrace
  import opened Patcher

  /** The calls one query dialog makes: with a server, the notifications before and after the game's dialog. */
  function DialogCalls(hasServer: bool, occupant: Pointer, notified: seq<Pointer>): seq<ShimCall>
  {
    (if hasServer then [SendBeforeQueryDialogNotifications(occupant, notified)] else [])
    + [RealDoQueryDialog(occupant)]
    + (if hasServer then [SendAfterQueryDialogNotifications(occupant, notified)] else [])
  }

  /**
   * HookedDoQueryDialog: the before notifications (when there is a server),
   * the game's dialog, the after notifications; the result is the dialog's.
   */
  method HookedDoQueryDialog(
    server: BuildingQueryHookServer?, order: seq<Pointer>, occupant: Pointer,
    realDoQueryDialog: Pointer -> bool, trace: Trace)
    returns (result: bool)
    requires server != null ==> IsEnumeration(order, server.dialogHookSubscribers)
    requires server != null ==> server.Valid()
    modifies trace
    ensures result == realDoQueryDialog(occupant)
    ensures trace.calls == old(trace.calls) + DialogCalls(server != null, occupant, NonNull(order))
  {
    result := false;
    if server != null {
      var notified := server.SendBeforeQueryDialogNotifications(order);
      trace.Record(SendBeforeQueryDialogNotifications(occupant, notified));
    }
    result := realDoQueryDialog(occupant);
    trace.Record(RealDoQueryDialog(occupant));
    if server != null {
      var notified := server.SendAfterQueryDialogNotifications(order);
      trace.Record(SendAfterQueryDialogNotifications(occupant, notified));
    }
  }

  /**
   * The game's dialog runs exactly once per query, between the two
   * notifications when there is a server and alone when there is none.
   */
  lemma DialogRunsOnceBetweenNotifications(hasServer: bool, occupant: Pointer, notified: seq<Pointer>)
    ensures Occurrences(DialogCalls(hasServer, occupant, notified), RealDoQueryDialog(occupant)) == 1
    ensures hasServer ==> DialogCalls(hasServer, occupant, notified)[0] == SendBeforeQueryDialogNotifications(occupant, notified)
    ensures hasServer ==> DialogCalls(hasServer, occupant, notified)[1] == RealDoQueryDialog(occupant)
    ensures hasServer ==> DialogCalls(hasServer, occupant, notified)[2] == SendAfterQueryDialogNotifications(occupant, notified)
    ensures !hasServer ==> DialogCalls(hasServer, occupant, notified) == [RealDoQueryDialog(occupant)]
  {
    var calls := DialogCalls(hasServer, occupant, notified);
    if hasServer {
      assert calls == [SendBeforeQueryDialogNotifications(occupant, notified), RealDoQueryDialog(occupant),
                       SendAfterQueryDialogNotifications(occupant, notified)];
      assert calls[1..] == [RealDoQueryDialog(occupant), SendAfterQueryDialogNotifications(occupant, notified)];
      assert calls[1..][1..] == [SendAfterQueryDialogNotifications(occupant, notified)];
      assert Occurrences(calls[1..][1..], RealDoQueryDialog(occupant)) == 0;
    } else {
      assert calls == [RealDoQueryDialog(occupant)];
      assert Occurrences(calls[1..], RealDoQueryDialog(occupant)) == 0;
    }
  }

  /** Whether SetCustomToolTip reaches the server: it exists and has a custom tooltip subscriber. */
  predicate CustomDispatched(server: BuildingQueryHookServer?)
    reads server
  {
    server != null && server.HasCustomToolTipSubscribers()
  }

  /**
   * The text SetAppendedToolTipText adds: the hook asks only a server with an
   * append subscriber, and the server, as written, broadcasts only while it
   * also has a custom tooltip subscriber.
   */
  function AppendStep(
    server: BuildingQueryHookServer?, order: seq<Pointer>, occupant: Pointer, debugQuery: bool,
    appendText: (Pointer, Pointer, bool) -> Reply<string>): string
    reads server
  {
    if server != null && server.HasAppendToolTipSubscribers() && server.customToolTipHookSubscribers != {} then
      AppendedText(order, occupant, debugQuery, appendText)
    else
      []
  }

  /**
   * SetCustomToolTip: offers the tooltip to the custom tooltip subscribers,
   * only when the server exists and has one. `debugQuery` and `occupant` are
   * what the hook reads from the keyboard and the query tool at that moment.
   */
  method SetCustomToolTip(
    server: BuildingQueryHookServer?, order: seq<Pointer>, occupant: Pointer, debugQuery: bool,
    title: GZString, text: GZString,
    backgroundImageIID: uint32, meterImageIID: uint32, meterPercentage: Float,
    processToolTip: (Pointer, Pointer, bool, BuildingToolTip) -> Reply<BuildingToolTip>)
    returns (result: bool, tip: BuildingToolTip)
    requires server != null ==> IsEnumeration(order, server.customToolTipHookSubscribers)
    requires title != text
    modifies title, text
    ensures var r := CustomToolTipStep(CustomDispatched(server), order, occupant, debugQuery,
        BuildingToolTip(old(title.value), old(text.value), backgroundImageIID, meterImageIID, meterPercentage),
        processToolTip);
      result == r.handled && tip == r.state
    ensures title.value == tip.title && text.value == tip.text
  {
    result := false;
    tip := BuildingToolTip(title.value, text.value, backgroundImageIID, meterImageIID, meterPercentage);
    if server != null && server.HasCustomToolTipSubscribers() {
      result, tip := server.SendCustomToolTipMessage(
        order, occupant, debugQuery, title, text, backgroundImageIID, meterImageIID, meterPercentage, processToolTip);
    }
  }

  /** SetAppendedToolTipText: the append broadcast, asked for only when the server has an append subscriber. */
  method SetAppendedToolTipText(
    server: BuildingQueryHookServer?, order: seq<Pointer>, occupant: Pointer, debugQuery: bool,
    destination: GZString, appendText: (Pointer, Pointer, bool) -> Reply<string>)
    requires server != null ==> IsEnumeration(order, server.appendToolTipHookSubscribers)
    modifies destination
    ensures destination.value == old(destination.value) + AppendStep(server, order, occupant, debugQuery, appendText)
  {
    if server != null && server.HasAppendToolTipSubscribers() {
      server.SendAppendToolTipMessage(order, occupant, debugQuery, destination, appendText);
    }
  }

  /**
   * HookedGetBuildingOccupantTipInfo. A tooltip a custom subscriber handled
   * is final: the game's tooltip function is not called and nothing is
   * appended. Otherwise the game builds the tooltip from the values the
   * subscribers left, and the append step extends its text. The debug keys are
   * read once per step (`debugAtCustom`, `debugAtAppend`).
   */
  method HookedGetBuildingOccupantTipInfo(
    server: BuildingQueryHookServer?, customOrder: seq<Pointer>, appendOrder: seq<Pointer>, occupant: Pointer,
    debugAtCustom: bool, debugAtAppend: bool,
    title: GZString, text: GZString,
    backgroundImageIID: uint32, meterImageIID: uint32, meterPercentage: Float,
    processToolTip: (Pointer, Pointer, bool, BuildingToolTip) -> Reply<BuildingToolTip>,
    appendText: (Pointer, Pointer, bool) -> Reply<string>,
    realGetBuildingOccupantTipInfo: (Pointer, BuildingToolTip) -> BuildingToolTip,
    trace: Trace)
    returns (tip: BuildingToolTip)
    requires server != null ==> IsEnumeration(customOrder, server.customToolTipHookSubscribers)
    requires server != null ==> IsEnumeration(appendOrder, server.appendToolTipHookSubscribers)
    requires title != text
    modifies title, text, trace
    ensures var custom := CustomToolTipStep(CustomDispatched(server), customOrder, occupant, debugAtCustom,
        BuildingToolTip(old(title.value), old(text.value), backgroundImageIID, meterImageIID, meterPercentage),
        processToolTip);
      if custom.handled then
        tip == custom.state && trace.calls == old(trace.calls)
      else
        var game := realGetBuildingOccupantTipInfo(occupant, custom.state);
        tip == game.(text := game.text + AppendStep(server, appendOrder, occupant, debugAtAppend, appendText))
        && trace.calls == old(trace.calls) + [RealGetBuildingOccupantTipInfo(occupant)]
    ensures title.value == tip.title && text.value == tip.text
  {
    var handled;
    handled, tip := SetCustomToolTip(
      server, customOrder, occupant, debugAtCustom, title, text,
      backgroundImageIID, meterImageIID, meterPercentage, processToolTip);
    if !handled {
      tip := realGetBuildingOccupantTipInfo(occupant, tip);
      trace.Record(RealGetBuildingOccupantTipInfo(occupant));
      title.Copy(tip.title);
      text.Copy(tip.text);
      SetAppendedToolTipText(server, appendOrder, occupant, debugAtAppend, text, appendText);
      tip := tip.(text := text.value);
    }
  }

  /**
   * As written, the append subscribers never extend a building tooltip while
   * the server has no custom tooltip subscriber, however many append
   * subscribers it has.
   */
  lemma AppendNeedsCustomSubscriber(
    server: BuildingQueryHookServer?, order: seq<Pointer>, occupant: Pointer, debugQuery: bool,
    appendText: (Pointer, Pointer, bool) -> Reply<string>)
    requires server != null && server.customToolTipHookSubscribers == {}
    ensures !CustomDispatched(server)
    ensures AppendStep(server, order, occupant, debugQuery, appendText) == []
  {
  }

  // Shift-click copying.

  /** The query tool's modifier key flags (ModifierKeysFlags). */
  const MODIFIER_KEY_SHIFT: bv32 := 0x1
  const MODIFIER_KEY_CONTROL: bv32 := 0x2
  const MODIFIER_KEY_ALT: bv32 := 0x4
  const MODIFIER_KEY_ALL: bv32 := 0x7

  /** The flora type of dead trees, which cannot be placed. */
  const DEAD_FLORA_OCCUPANT: uint32 := 0x29CF_F3CB

  /**
   * What the game offers a Shift-click: the application and its 3D view,
   * the lot configuration under the cursor (its ID), the flora type of the
   * picked occupant when it is a flora occupant, the window manager, whether
   * the place-lot and flora view input controls could be created, and what
   * the 3D view answers when the flora control is made current.
   */
  datatype ClickContext = ClickContext(
    hasApp: bool,
    hasView3D: bool,
    lotConfigurationID: Option<uint32>,
    floraType: Option<uint32>,
    hasWinMgr: bool,
    placeLotCreated: bool,
    floraControlCreated: bool,
    floraControlAccepted: bool)

  /** The view input control a click leaves current. */
  datatype CopyAction = NoCopy | PlaceLot(lotExemplarID: uint32) | PlaceFlora(floraType: uint32)

  /** Whether the click was consumed, and the control it installed. */
  datatype ClickOutcome = ClickOutcome(result: bool, action: CopyAction)

  /**
   * CopyLot: a place-lot control for a non-zero lot exemplar, when the window
   * manager exists and the control can be created; the click is then consumed.
   */
  function CopyLot(lotExemplarID: uint32, hasWinMgr: bool, placeLotCreated: bool): (r: ClickOutcome)
    ensures r.result <==> lotExemplarID != 0 && hasWinMgr && placeLotCreated
    ensures r.result ==> r.action == PlaceLot(lotExemplarID)
    ensures !r.result ==> r.action == NoCopy
  {
    if lotExemplarID != 0 && hasWinMgr && placeLotCreated then
      ClickOutcome(true, PlaceLot(lotExemplarID))
    else
      ClickOutcome(false, NoCopy)
  }

  /**
   * CopyFloraOccupant: a flora control for any type but 0 and dead flora,
   * when it can be created; the click is consumed when the 3D view accepts it.
   */
  function CopyFloraOccupant(floraType: uint32, floraControlCreated: bool, floraControlAccepted: bool): (r: ClickOutcome)
    ensures r.action != NoCopy <==> floraType != 0 && floraType != DEAD_FLORA_OCCUPANT && floraControlCreated
    ensures r.action != NoCopy ==> r.action == PlaceFlora(floraType)
    ensures r.result <==> r.action != NoCopy && floraControlAccepted
  {
    if floraType != 0 && floraType != DEAD_FLORA_OCCUPANT && floraControlCreated then
      ClickOutcome(floraControlAccepted, PlaceFlora(floraType))
    else
      ClickOutcome(false, NoCopy)
  }

  /**
   * ProcessQueryToolClick: acts only when Shift is the one modifier held of
   * Shift, Control and Alt. A lot configuration under the cursor is copied in
   * preference to the picked occupant, which is copied only when it is flora.
   */
  function ProcessQueryToolClick(modifierKeys: bv32, click: ClickContext): (r: ClickOutcome)
    ensures r.action != NoCopy ==> modifierKeys & MODIFIER_KEY_ALL == MODIFIER_KEY_SHIFT && click.hasApp && click.hasView3D
    ensures r.result ==> r.action != NoCopy
    ensures r.action.PlaceLot? ==> click.lotConfigurationID == Some(r.action.lotExemplarID)
    ensures r.action.PlaceFlora? ==> click.lotConfigurationID.None? && click.floraType == Some(r.action.floraType)
  {
    if modifierKeys & MODIFIER_KEY_ALL == MODIFIER_KEY_SHIFT && click.hasApp && click.hasView3D then
      if click.lotConfigurationID.Some? then
        CopyLot(click.lotConfigurationID.value, click.hasWinMgr, click.placeLotCreated)
      else if click.floraType.Some? then
        CopyFloraOccupant(click.floraType.value, click.floraControlCreated, click.floraControlAccepted)
      else
        ClickOutcome(false, NoCopy)
    else
      ClickOutcome(false, NoCopy)
  }

  /** The modifier test accepts exactly Shift without Control and Alt; any other flag bits are ignored. */
  lemma ShiftOnlyModifier(modifierKeys: bv32)
    ensures modifierKeys & MODIFIER_KEY_ALL == MODIFIER_KEY_SHIFT <==>
      modifierKeys & MODIFIER_KEY_SHIFT != 0 && modifierKeys & MODIFIER_KEY_CONTROL == 0 && modifierKeys & MODIFIER_KEY_ALT == 0
  {
  }

  /** A lot under the cursor wins even when the picked occupant is flora: the flora is never copied then. */
  lemma LotTakesPriority(modifierKeys: bv32, click: ClickContext)
    requires modifierKeys & MODIFIER_KEY_ALL == MODIFIER_KEY_SHIFT && click.hasApp && click.hasView3D
    requires click.lotConfigurationID.Some?
    ensures ProcessQueryToolClick(modifierKeys, click)
         == CopyLot(click.lotConfigurationID.value, click.hasWinMgr, click.placeLotCreated)
  {
  }

  /** Lot exemplar 0, flora type 0 and dead flora are never copied. */
  lemma CopyGuards(modifierKeys: bv32, click: ClickContext)
    requires click.lotConfigurationID == Some(0) ||
      (click.lotConfigurationID.None? && (click.floraType == Some(0) || click.floraType == Some(DEAD_FLORA_OCCUPANT)))
    ensures ProcessQueryToolClick(modifierKeys, click) == ClickOutcome(false, NoCopy)
  {
  }

  // Installation.

  /** The call sites the building hooks patch. */
  const DESCRIBE_PICK_DO_QUERY_DIALOG: uint32 := 0x4D_4494
  const LUA_WINDOW_QUERY_DO_QUERY_DIALOG: uint32 := 0x40_CA7A
  const DO_MESSAGE_GET_BUILDING_OCCUPANT_TIP_INFO: uint32 := 0x4D_7464
  const DESCRIBE_PICK_PLAY_OCCUPANT_QUERY_SOUND: uint32 := 0x4D_4406

  /** The addresses of the plug-in's hook functions. */
  datatype HookFunctions = HookFunctions(
    hookedDoQueryDialog: uint32,
    hookedGetBuildingOccupantTipInfo: uint32,
    hookedPlayOccupantQuerySound: uint32)

  /** The CALL sites Install patches, in order; the sound is silenced only when the settings disable query sounds. */
  function HookSites(enableOccupantQuerySounds: bool, hooks: HookFunctions): (sites: seq<CallHook>)
    ensures (exists i :: 0 <= i < |sites| && sites[i].address == DESCRIBE_PICK_PLAY_OCCUPANT_QUERY_SOUND)
        <==> !enableOccupantQuerySounds
  {
    var sites := [
      CallHook(DESCRIBE_PICK_DO_QUERY_DIALOG, hooks.hookedDoQueryDialog),
      CallHook(LUA_WINDOW_QUERY_DO_QUERY_DIALOG, hooks.hookedDoQueryDialog),
      CallHook(DO_MESSAGE_GET_BUILDING_OCCUPANT_TIP_INFO, hooks.hookedGetBuildingOccupantTipInfo)];
    if enableOccupantQuerySounds then sites
    else
      var all := sites + [CallHook(DESCRIBE_PICK_PLAY_OCCUPANT_QUERY_SOUND, hooks.hookedPlayOccupantQuerySound)];
      assert all[3].address == DESCRIBE_PICK_PLAY_OCCUPANT_QUERY_SOUND;
      all
  }

  /**
   * BuildingQueryHooks::Install: the dialog hook at its two call sites, the
   * tooltip hook and, unless query sounds are enabled, the silent sound hook.
   * An exception from one InstallCallHook ends the installation.
   */
  method Install(memory: ProcessMemory, enableOccupantQuerySounds: bool, hooks: HookFunctions, protect: uint32 -> bool)
    returns (thrown: bool)
    modifies memory
    ensures Installation(thrown, memory.bytes) == InstallAll(old(memory.bytes), HookSites(enableOccupantQuerySounds, hooks), protect)
  {
    var sites := HookSites(enableOccupantQuerySounds, hooks);
    ghost var initial := memory.bytes;
    thrown := memory.InstallCallHook(DESCRIBE_PICK_DO_QUERY_DIALOG, hooks.hookedDoQueryDialog, protect(DESCRIBE_PICK_DO_QUERY_DIALOG));
    if thrown {
      return;
    }
    assert InstallAll(initial, sites, protect) == InstallAll(memory.bytes, sites[1..], protect);
    ghost var afterFirst := memory.bytes;
    thrown := memory.InstallCallHook(LUA_WINDOW_QUERY_DO_QUERY_DIALOG, hooks.hookedDoQueryDialog, protect(LUA_WINDOW_QUERY_DO_QUERY_DIALOG));
    if thrown {
      return;
    }
    assert InstallAll(afterFirst, sites[1..], protect) == InstallAll(memory.bytes, sites[2..], protect);
    ghost var afterSecond := memory.bytes;
    thrown := memory.InstallCallHook(DO_MESSAGE_GET_BUILDING_OCCUPANT_TIP_INFO, hooks.hookedGetBuildingOccupantTipInfo,
      protect(DO_MESSAGE_GET_BUILDING_OCCUPANT_TIP_INFO));
    if thrown {
      return;
    }
    assert InstallAll(afterSecond, sites[2..], protect) == InstallAll(memory.bytes, sites[3..], protect);
    if !enableOccupantQuerySounds {
      ghost var afterThird := memory.bytes;
      thrown := memory.InstallCallHook(DESCRIBE_PICK_PLAY_OCCUPANT_QUERY_SOUND, hooks.hookedPlayOccupantQuerySound,
        protect(DESCRIBE_PICK_PLAY_OCCUPANT_QUERY_SOUND));
      if thrown {
        return;
      }
      assert InstallAll(afterThird, sites[3..], protect) == InstallAll(memory.bytes, sites[4..], protect);
    }
  }

  /** No two of the building hook sites share a byte. */
  lemma HookSitesDisjoint(enableOccupantQuerySounds: bool, hooks: HookFunctions)
    ensures var sites := HookSites(enableOccupantQuerySounds, hooks);
      forall j, l :: 0 <= j < l < |sites| ==> Disjoint(sites[j].address, sites[l].address)
  {
  }

  /** After a complete installation every site holds a CALL of its hook function. */
  lemma InstalledSitesCallHooks(
    memory: map<uint32, uint8>, enableOccupantQuerySounds: bool, hooks: HookFunctions, protect: uint32 -> bool, i: nat)
    requires !InstallAll(memory, HookSites(enableOccupantQuerySounds, hooks), protect).thrown
    requires i < |HookSites(enableOccupantQuerySounds, hooks)|
    ensures var sites := HookSites(enableOccupantQuerySounds, hooks);
      DecodeCall(InstallAll(memory, sites, protect).memory, sites[i].address) == Found(sites[i].hook)
  {
    HookSitesDisjoint(enableOccupantQuerySounds, hooks);
    InstallAllDecodes(memory, HookSites(enableOccupantQuerySounds, hooks), protect, i);
  }
}
