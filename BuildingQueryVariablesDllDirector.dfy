/**
 * BuildingQueryVariablesDllDirector: the older, smaller form of the building
 * query variables. Its unknown-token callback knows 30 tokens, matched
 * exactly, and a callback that cannot produce a value fails (leaving an empty
 * replacement) where the newer data provider writes a sentinel such as
 * "None", "Unknown" or a formatted 0.
 */
module QueryVariablesDirector {
  import opened Types
  import opened GZCom
  import opened Wrappers
  import opened HostData
  import opened TokenEngine
  import opened GZStringUtil
  import opened BuildingHookServer
  import opened StringDetokenizer
  import Provider = QueryVariablesProvider

  const POST_CITY_INIT_MESSAGE: uint32 := 0x26D3_1EC1
  const PRE_CITY_SHUTDOWN_MESSAGE: uint32 := 0x26D3_1EC2
  const BUILDING_QUERY_VARIABLES_DIRECTOR_ID: uint32 := 0x1317_A7E6

  /** The occupant and the city of a director context, as the lot and MySim lookups read them. */
  function CityContext(context: DirectorTokenContext): UnknownTokenContext
  {
    UnknownTokenContext(context.occupant, context.city)
  }

  /**
   * GetBuildingFullFundingToken: the money text of the first funded item's
   * non-zero cost (0 if none); fails without a city, an occupant, a budget
   * simulator or budget item information.
   */
  function FullFundingToken(context: DirectorTokenContext, framework: Framework, funding: FundingType): (w: Written)
    ensures Provider.BudgetItems(CityContext(context)).None? ==> w == Written(false, [])
    ensures Provider.BudgetItems(CityContext(context)).Some? ==>
      w == MakeNumberString(framework, FundedCost(Provider.BudgetItems(CityContext(context)).value, funding), Money)
  {
    var items := Provider.BudgetItems(CityContext(context));
    if items.Some? then MakeNumberString(framework, FundedCost(items.value, funding), Money) else Written(false, [])
  }

  method GetBuildingFullFundingToken(context: DirectorTokenContext, framework: Framework, funding: FundingType)
    returns (w: Written)
    ensures w == FullFundingToken(context, framework, funding)
  {
    w := Written(false, []);
    var items := Provider.BudgetItems(CityContext(context));
    if items.Some? {
      var value := FindFullFundingCost(items.value, funding);
      w := MakeNumberString(framework, value, Money);
    }
  }

  const STYLE_SEPARATOR: string := " | "

  /**
   * GetBuildingStylesToken: with the style DLL its result and text; otherwise
   * the matched Maxis styles joined by " | ", failing when none matched. It
   * fails without the COM pointer or an occupant.
   */
  function StylesToken(context: DirectorTokenContext, framework: Framework): (w: Written)
    ensures !context.hasCOM || context.occupant.None? ==> !w.result
    ensures context.hasCOM && context.occupant.Some? && framework.styleInfo.Some? ==>
      (w.result, w.text) == framework.styleInfo.value.styleNames(context.occupant.value, STYLE_SEPARATOR)
    ensures context.hasCOM && context.occupant.Some? && framework.styleInfo.None? ==>
      var names := MatchedStyleNames(MAXIS_BUILDING_STYLES, context.occupant.value.occupantGroups);
      (w.result <==> names != []) && w.text == JoinWith(names, STYLE_SEPARATOR)
  {
    if !context.hasCOM || context.occupant.None? then Written(false, [])
    else if framework.styleInfo.Some? then
      var (result, text) := framework.styleInfo.value.styleNames(context.occupant.value, STYLE_SEPARATOR);
      Written(result, text)
    else
      var names := MatchedStyleNames(MAXIS_BUILDING_STYLES, context.occupant.value.occupantGroups);
      Written(names != [], JoinWith(names, STYLE_SEPARATOR))
  }

  method GetBuildingStylesToken(context: DirectorTokenContext, framework: Framework) returns (w: Written)
    ensures w == StylesToken(context, framework)
  {
    w := Written(false, []);
    if context.hasCOM && context.occupant.Some? {
      if framework.styleInfo.Some? {
        var (result, text) := framework.styleInfo.value.styleNames(context.occupant.value, STYLE_SEPARATOR);
        w := Written(result, text);
      } else {
        var wroteAny, text := AppendMaxisStyleNames(context.occupant.value.occupantGroups, STYLE_SEPARATOR);
        w := Written(wroteAny, text);
      }
    }
  }

  /** GetBuildingWallToWallToken: the localized "yes" or "no"; fails without the COM pointer, an occupant or the style DLL. */
  function WallToWallToken(context: DirectorTokenContext, framework: Framework): (w: Written)
    ensures !context.hasCOM || context.occupant.None? || framework.styleInfo.None? ==> !w.result
    ensures context.hasCOM && context.occupant.Some? && framework.styleInfo.Some? ==>
      w == Provider.WallToWallToken(CityContext(context), framework)
  {
    if !context.hasCOM || context.occupant.None? || framework.styleInfo.None? then Written(false, [])
    else
      var instance := if framework.styleInfo.value.isWallToWall(context.occupant.value)
        then Provider.WALL_TO_WALL_YES else Provider.WALL_TO_WALL_NO;
      var text := framework.localized(Provider.LOCALIZED_GROUP, instance);
      if text.Some? then Written(true, text.value) else Written(false, [])
  }

  /** GetCapacityToken: the lot's capacity for the developer type; fails without a lot. */
  function CapacityToken(context: DirectorTokenContext, framework: Framework, d: DeveloperType): (w: Written)
    ensures GetOccupantLot(CityContext(context)).None? ==> !w.result
    ensures GetOccupantLot(CityContext(context)).Some? ==>
      w == MakeNumberString(framework, GetOccupantLot(CityContext(context)).value.capacity(d), Number)
  {
    var lot := GetOccupantLot(CityContext(context));
    if lot.Some? then MakeNumberString(framework, lot.value.capacity(d), Number) else Written(false, [])
  }

  /** GetOccupancyToken: the lot's population of the developer type; fails without a lot. */
  function OccupancyToken(context: DirectorTokenContext, framework: Framework, d: DeveloperType): (w: Written)
    ensures GetOccupantLot(CityContext(context)).None? ==> !w.result
    ensures GetOccupantLot(CityContext(context)).Some? ==>
      w == MakeNumberString(framework, GetOccupantLot(CityContext(context)).value.population(d), Number)
  {
    var lot := GetOccupantLot(CityContext(context));
    if lot.Some? then MakeNumberString(framework, lot.value.population(d), Number) else Written(false, [])
  }

  /** GetGrowthStageToken: the lot configuration's growth stage; fails without a lot or configuration. */
  function GrowthStageToken(context: DirectorTokenContext, framework: Framework): (w: Written)
    ensures GetOccupantLot(CityContext(context)).None? || GetOccupantLot(CityContext(context)).value.growthStage.None? ==> !w.result
    ensures GetOccupantLot(CityContext(context)).Some? && GetOccupantLot(CityContext(context)).value.growthStage.Some? ==>
      w == MakeNumberString(framework, GetOccupantLot(CityContext(context)).value.growthStage.value, Number)
  {
    var lot := GetOccupantLot(CityContext(context));
    if lot.Some? && lot.value.growthStage.Some? then MakeNumberString(framework, lot.value.growthStage.value, Number)
    else Written(false, [])
  }

  /** The director's callbacks, with the arguments its table binds. */
  datatype DirectorCallback =
    | FullFunding(funding: FundingType)
    | WallToWall
    | Styles
    | GrowthStage
    | MySimName
    | Occupancy(developer: DeveloperType)
    | Capacity(developer: DeveloperType)

  /** tokenDataCallbacks, in source order: the dialog texts ... */
  const DIALOG_TOKENS: map<string, DirectorCallback> := map[
    "building_full_funding_capacity" := FullFunding(CapacityFunding),
    "building_full_funding_coverage" := FullFunding(CoverageFunding),
    "building_is_w2w" := WallToWall,
    "building_styles" := Styles,
    "growth_stage" := GrowthStage,
    "mysim_name" := MySimName]

  /** ... and the occupancy and capacity of each developer type. */
  const DEVELOPER_TOKENS: map<string, DirectorCallback> := map[
    "r1_occupancy" := Occupancy(ResidentialLowWealth),
    "r1_capacity" := Capacity(ResidentialLowWealth),
    "r2_occupancy" := Occupancy(ResidentialMediumWealth),
    "r2_capacity" := Capacity(ResidentialMediumWealth),
    "r3_occupancy" := Occupancy(ResidentialHighWealth),
    "r3_capacity" := Capacity(ResidentialHighWealth),
    "cs1_occupancy" := Occupancy(CommercialServicesLowWealth),
    "cs1_capacity" := Capacity(CommercialServicesLowWealth),
    "cs2_occupancy" := Occupancy(CommercialServicesMediumWealth),
    "cs2_capacity" := Capacity(CommercialServicesMediumWealth),
    "cs3_occupancy" := Occupancy(CommercialServicesHighWealth),
    "cs3_capacity" := Capacity(CommercialServicesHighWealth),
    "co2_occupancy" := Occupancy(CommercialOfficeMediumWealth),
    "co2_capacity" := Capacity(CommercialOfficeMediumWealth),
    "co3_occupancy" := Occupancy(CommercialOfficeHighWealth),
    "co3_capacity" := Capacity(CommercialOfficeHighWealth),
    "ir_occupancy" := Occupancy(IndustrialAgriculture),
    "ir_capacity" := Capacity(IndustrialAgriculture),
    "id_occupancy" := Occupancy(IndustrialProcessing),
    "id_capacity" := Capacity(IndustrialProcessing),
    "im_occupancy" := Occupancy(IndustrialManufacturing),
    "im_capacity" := Capacity(IndustrialManufacturing),
    "iht_occupancy" := Occupancy(IndustrialHighTech),
    "iht_capacity" := Capacity(IndustrialHighTech)]

  /** tokenDataCallbacks: the 30 tokens the director knows. */
  const TOKEN_DATA_CALLBACKS: map<string, DirectorCallback> := DIALOG_TOKENS + DEVELOPER_TOKENS

  /** What a director callback returns and writes. */
  function TokenValue(callback: DirectorCallback, context: DirectorTokenContext, framework: Framework): Written
  {
    match callback
    case FullFunding(funding) => FullFundingToken(context, framework, funding)
    case WallToWall => WallToWallToken(context, framework)
    case Styles => StylesToken(context, framework)
    case GrowthStage => GrowthStageToken(context, framework)
    case MySimName => Provider.MySimNameToken(CityContext(context))
    case Occupancy(d) => OccupancyToken(context, framework, d)
    case Capacity(d) => CapacityToken(context, framework, d)
  }

  /** Calls a table entry's callback; the looping callbacks run as methods. */
  method RunTokenCallback(callback: DirectorCallback, context: DirectorTokenContext, framework: Framework) returns (w: Written)
    ensures w == TokenValue(callback, context, framework)
  {
    match callback {
      case FullFunding(funding) => w := GetBuildingFullFundingToken(context, framework, funding);
      case Styles => w := GetBuildingStylesToken(context, framework);
      case _ => w := TokenValue(callback, context, framework);
    }
  }

  /** What UnknownTokenCallback does with a token: None when it is not a table key, else the replacement text. */
  function Resolve(token: string, context: DirectorTokenContext, framework: Framework): (r: Option<string>)
    ensures r.Some? <==> token in TOKEN_DATA_CALLBACKS
  {
    if token in TOKEN_DATA_CALLBACKS then Some(Replacement(TokenValue(TOKEN_DATA_CALLBACKS[token], context, framework)))
    else None
  }

  /**
   * UnknownTokenCallback: an unknown token leaves the output as it was and
   * returns false; a known one clears the output, runs the callback, clears
   * it again if the callback failed, and returns true.
   */
  method UnknownTokenCallback(token: string, outReplacement: GZString, context: DirectorTokenContext, framework: Framework)
    returns (result: bool)
    modifies outReplacement
    ensures result <==> token in TOKEN_DATA_CALLBACKS
    ensures result ==> outReplacement.value == Resolve(token, context, framework).value
    ensures !result ==> outReplacement.value == old(outReplacement.value)
  {
    result := false;
    if token in TOKEN_DATA_CALLBACKS {
      outReplacement.Clear();
      var w := RunTokenCallback(TOKEN_DATA_CALLBACKS[token], context, framework);
      outReplacement.Append(w.text);
      if !w.result {
        outReplacement.Clear();
      }
      result := true;
    }
  }

  /** The director has no parameterised tokens: no key starts with the budget prefix, so such a token is unknown to it. */
  lemma BudgetTokensUnknown(token: string, context: DirectorTokenContext, framework: Framework)
    requires Provider.StartsWith(token, Provider.BUDGET_PURPOSE_TYPE_COST_PREFIX)
    ensures Resolve(token, context, framework).None?
  {
    if token in DIALOG_TOKENS {
      DialogTokenKeys(token);
      Provider.KeyShapeNotParameterized(token);
    } else if token in DEVELOPER_TOKENS {
      DeveloperTokenKeys(token);
      Provider.KeyShapeNotParameterized(token);
    }
  }

  lemma DialogTokenKeys(token: string)
    requires token in DIALOG_TOKENS
    ensures Provider.TableKeyShape(token)
  {
  }

  lemma DeveloperTokenKeys(token: string)
    requires token in DEVELOPER_TOKENS
    ensures Provider.TableKeyShape(token)
  {
  }

  /** The data provider's callback for the same token. */
  function ProviderCallback(callback: DirectorCallback): Provider.TokenCallback
  {
    match callback
    case FullFunding(funding) => Provider.FullFunding(funding)
    case WallToWall => Provider.WallToWall
    case Styles => Provider.Styles(Provider.Pipe)
    case GrowthStage => Provider.GrowthStage
    case MySimName => Provider.MySimName
    case Occupancy(d) => Provider.Occupancy(d)
    case Capacity(d) => Provider.Capacity(d)
  }

  /**
   * Where the director's callback succeeds, the data provider writes the
   * same text for the same occupant and city, with one exception: a style
   * list the DLL reports as empty, which the provider turns into "None".
   */
  lemma DirectorAgreesWithProvider(callback: DirectorCallback, context: DirectorTokenContext, framework: Framework)
    requires TokenValue(callback, context, framework).result
    requires callback == Styles && framework.styleInfo.Some? ==>
      TokenValue(callback, context, framework).text != []
    ensures Provider.TokenValue(ProviderCallback(callback), CityContext(context), framework) == TokenValue(callback, context, framework)
  {
    if callback == Styles && framework.styleInfo.None? {
      Provider.MaxisJoinNonEmpty(context.occupant.value.occupantGroups, STYLE_SEPARATOR);
    }
  }

  /**
   * Where the provider writes a sentinel for a missing lot the director
   * fails: without a lot, the growth stage, capacity and occupancy tokens all
   * leave an empty replacement.
   */
  lemma NoLotLeavesEmpty(context: DirectorTokenContext, framework: Framework, d: DeveloperType)
    requires GetOccupantLot(CityContext(context)).None?
    ensures Replacement(TokenValue(GrowthStage, context, framework)) == []
    ensures Replacement(TokenValue(Capacity(d), context, framework)) == []
    ensures Replacement(TokenValue(Occupancy(d), context, framework)) == []
    ensures Provider.TokenValue(Provider.GrowthStage, CityContext(context), framework) == Written(true, "Unknown")
  {
  }

  /**
   * The director: it keeps the current city and the game's string
   * detokenizer (`pStringDetokenizer`, set by PostAppInit), and `hasCOM`
   * records whether its COM pointer is set. `self` is the address the hook
   * server stores.
   */
  class BuildingQueryVariablesDllDirector {
    const self: Pointer
    const hasCOM: bool
    var pCity: Option<City>
    var pStringDetokenizer: StringDetokenizer?
    /** The messages the director asked the message server for, in the order of its AddNotification calls. */
    var messageNotifications: seq<uint32>

    constructor (self: Pointer, hasCOM: bool)
      ensures this.self == self && this.hasCOM == hasCOM
      ensures pCity.None? && pStringDetokenizer == null && messageNotifications == []
    {
      this.self := self;
      this.hasCOM := hasCOM;
      pCity := None;
      pStringDetokenizer := null;
      messageNotifications := [];
    }

    function GetDirectorID(): (id: uint32)
      ensures id == BUILDING_QUERY_VARIABLES_DIRECTOR_ID
    {
      BUILDING_QUERY_VARIABLES_DIRECTOR_ID
    }

    /**
     * PostAppInit: keeps the application's string detokenizer (null when
     * there is no application) and, when the message server is available
     * (`hasMessageServer`), subscribes to the city-init and city-shutdown
     * messages that DoMessage handles; always succeeds.
     */
    method PostAppInit(detokenizer: StringDetokenizer?, hasMessageServer: bool) returns (result: bool)
      modifies this`pStringDetokenizer, this`messageNotifications
      ensures result && pStringDetokenizer == detokenizer
      ensures hasMessageServer ==>
        messageNotifications == old(messageNotifications) + [POST_CITY_INIT_MESSAGE, PRE_CITY_SHUTDOWN_MESSAGE]
      ensures !hasMessageServer ==> messageNotifications == old(messageNotifications)
    {
      pStringDetokenizer := detokenizer;
      if hasMessageServer {
        var requiredNotifications := [POST_CITY_INIT_MESSAGE, PRE_CITY_SHUTDOWN_MESSAGE];
        var i := 0;
        while i < |requiredNotifications|
          invariant 0 <= i <= |requiredNotifications|
          invariant messageNotifications == old(messageNotifications) + requiredNotifications[..i]
          invariant pStringDetokenizer == detokenizer
        {
          messageNotifications := messageNotifications + [requiredNotifications[i]];
          i := i + 1;
        }
      }
      result := true;
    }

    /** PostCityInit: remembers the city, then subscribes to the dialog hooks when the hook server is available. */
    method PostCityInit(city: Option<City>, hookServer: BuildingQueryHookServer?)
      requires hookServer != null ==> hookServer.Valid()
      modifies this`pCity, hookServer
      ensures hookServer != null ==> hookServer.Valid()
      ensures pCity == city
      ensures hookServer != null ==>
        hookServer.dialogHookSubscribers == Registry.Added(old(hookServer.dialogHookSubscribers), self)
        && hookServer.customToolTipHookSubscribers == old(hookServer.customToolTipHookSubscribers)
        && hookServer.appendToolTipHookSubscribers == old(hookServer.appendToolTipHookSubscribers)
    {
      pCity := city;
      if hookServer != null {
        var _ := hookServer.AddDialogNotification(self);
      }
    }

    /** PreCityShutdown: forgets the city, then unsubscribes from the dialog hooks. */
    method PreCityShutdown(hookServer: BuildingQueryHookServer?)
      requires hookServer != null ==> hookServer.Valid()
      modifies this`pCity, hookServer
      ensures hookServer != null ==> hookServer.Valid()
      ensures pCity.None?
      ensures hookServer != null ==>
        hookServer.dialogHookSubscribers == Registry.Removed(old(hookServer.dialogHookSubscribers), self)
        && hookServer.customToolTipHookSubscribers == old(hookServer.customToolTipHookSubscribers)
        && hookServer.appendToolTipHookSubscribers == old(hookServer.appendToolTipHookSubscribers)
    {
      pCity := None;
      if hookServer != null {
        var _ := hookServer.RemoveDialogNotification(self);
      }
    }

    /**
     * DoMessage: the city-init message carries the new city; the two city
     * messages are dispatched, any other is ignored, and the message always
     * counts as handled.
     */
    method DoMessage(messageType: uint32, city: Option<City>, hookServer: BuildingQueryHookServer?) returns (handled: bool)
      requires hookServer != null ==> hookServer.Valid()
      modifies this`pCity, hookServer
      ensures hookServer != null ==> hookServer.Valid()
      ensures handled
      ensures messageType == POST_CITY_INIT_MESSAGE ==>
        pCity == city
        && (hookServer != null ==> hookServer.dialogHookSubscribers == Registry.Added(old(hookServer.dialogHookSubscribers), self))
      ensures messageType == PRE_CITY_SHUTDOWN_MESSAGE ==>
        pCity.None?
        && (hookServer != null ==> hookServer.dialogHookSubscribers == Registry.Removed(old(hookServer.dialogHookSubscribers), self))
      ensures messageType != POST_CITY_INIT_MESSAGE && messageType != PRE_CITY_SHUTDOWN_MESSAGE ==>
        pCity == old(pCity) && (hookServer != null ==> hookServer.dialogHookSubscribers == old(hookServer.dialogHookSubscribers))
    {
      if messageType == POST_CITY_INIT_MESSAGE {
        PostCityInit(city, hookServer);
      } else if messageType == PRE_CITY_SHUTDOWN_MESSAGE {
        PreCityShutdown(hookServer);
      }
      handled := true;
    }

    /** BeforeDialogShown: registers the callback with a context made of the COM pointer, the occupant and the city. */
    method BeforeDialogShown(occupant: Option<Occupant>)
      modifies pStringDetokenizer
      ensures pStringDetokenizer != null ==>
        pStringDetokenizer.calls == old(pStringDetokenizer.calls)
          + [Registration(DirectorUnknownTokenCallback, StackTokenContext(DirectorTokenContext(hasCOM, occupant, pCity)), true)]
    {
      if pStringDetokenizer != null {
        var context := DirectorTokenContext(hasCOM, occupant, pCity);
        pStringDetokenizer.AddUnknownTokenReplacementMethod(DirectorUnknownTokenCallback, StackTokenContext(context), true);
      }
    }

    /** AfterDialogShown: removes the callback, with a context built afresh from the same values. */
    method AfterDialogShown(occupant: Option<Occupant>)
      modifies pStringDetokenizer
      ensures pStringDetokenizer != null ==>
        pStringDetokenizer.calls == old(pStringDetokenizer.calls)
          + [Registration(DirectorUnknownTokenCallback, StackTokenContext(DirectorTokenContext(hasCOM, occupant, pCity)), false)]
    {
      if pStringDetokenizer != null {
        var context := DirectorTokenContext(hasCOM, occupant, pCity);
        pStringDetokenizer.AddUnknownTokenReplacementMethod(DirectorUnknownTokenCallback, StackTokenContext(context), false);
      }
    }
  }
}
