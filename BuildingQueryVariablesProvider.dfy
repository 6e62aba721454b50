/**
 * BuildingQueryVariablesProvider: the building query dialog's `#token#`
 * variables. While a dialog is shown, an unknown-token callback is registered
 * with the game's string detokenizer; it resolves a token by exact lookup in a
 * table of 53 callbacks, then by a case-sensitive prefix for the one
 * parameterised family (`budget_purpose_type_cost:<purpose ID>`), and
 * otherwise leaves the token unhandled.
 *
 * Each token callback is specified by a function giving its result and the
 * text it leaves in the cleared output string; the callbacks that loop (full
 * funding, building styles, cap relief) are also methods proved against those
 * functions.
 */
module QueryVariablesProvider {
  import opened Types
  import opened Wrappers
  import opened GZCom
  import opened HostData
  import opened Printf
  import opened StringViewUtil
  import opened TokenEngine
  import opened GZStringUtil
  import opened ComBase
  import opened BuildingHookServer
  import opened StringDetokenizer

  // ---------------------------------------------------------------------------
  // Separators
  // ---------------------------------------------------------------------------

  datatype SeparatorType = Pipe | NewLine

  /** GetTokenSeparator: " | " between list items, or a line feed. */
  function GetTokenSeparator(t: SeparatorType): (separator: string)
    ensures separator != []
  {
    match t
    case NewLine => "\n"
    case Pipe => " | "
  }

  // ---------------------------------------------------------------------------
  // building_full_funding_capacity / building_full_funding_coverage
  // ---------------------------------------------------------------------------

  /** The budget items GetBudgetItemInfo reports for the occupant, if the city, occupant and budget simulator exist and it succeeds. */
  function BudgetItems(context: UnknownTokenContext): Option<seq<BudgetItem>>
  {
    if context.city.Some? && context.occupant.Some? && context.city.value.budget.Some? then
      context.city.value.budget.value.itemInfo(context.occupant.value.properties)
    else None
  }

  /**
   * GetBuildingFullFundingToken: the money text of the first funded item's
   * non-zero cost; 0 when any of the data is missing or no item qualifies.
   */
  function FullFundingToken(context: UnknownTokenContext, framework: Framework, funding: FundingType): (w: Written)
    ensures BudgetItems(context).None? ==> w == MakeNumberString(framework, 0, Money)
    ensures BudgetItems(context).Some? ==> w == MakeNumberString(framework, FundedCost(BudgetItems(context).value, funding), Money)
  {
    var items := BudgetItems(context);
    MakeNumberString(framework, if items.Some? then FundedCost(items.value, funding) else 0, Money)
  }

  method GetBuildingFullFundingToken(context: UnknownTokenContext, framework: Framework, funding: FundingType)
    returns (w: Written)
    ensures w == FullFundingToken(context, framework, funding)
  {
    var value := 0;
    var items := BudgetItems(context);
    if items.Some? {
      value := FindFullFundingCost(items.value, funding);
    }
    w := MakeNumberString(framework, value, Money);
  }

  // ---------------------------------------------------------------------------
  // building_styles / building_style_lines
  // ---------------------------------------------------------------------------

  /** A joined list ends with its last name, so it is not empty when that name is not. */
  lemma JoinWithEndsWithLast(names: seq<string>, separator: string)
    requires names != []
    ensures |JoinWith(names, separator)| >= |names[|names| - 1]|
  {
  }

  /** Every name the Maxis fallback can match is non-empty. */
  lemma MaxisJoinNonEmpty(groups: set<uint32>, separator: string)
    ensures var names := MatchedStyleNames(MAXIS_BUILDING_STYLES, groups);
      names != [] ==> JoinWith(names, separator) != []
  {
    var names := MatchedStyleNames(MAXIS_BUILDING_STYLES, groups);
    if names != [] {
      assert names[|names| - 1] in names;
      JoinWithEndsWithLast(names, separator);
    }
  }

  /**
   * GetBuildingStylesToken: with the More Building Styles DLL its list of
   * style names; otherwise the matched Maxis styles joined by the separator.
   * An empty or failed list becomes "None", so the token always succeeds.
   */
  function StylesToken(context: UnknownTokenContext, framework: Framework, t: SeparatorType): (w: Written)
    ensures w.result && w.text != []
    ensures context.occupant.None? ==> w.text == "None"
    ensures context.occupant.Some? && framework.styleInfo.None? ==>
      var names := MatchedStyleNames(MAXIS_BUILDING_STYLES, context.occupant.value.occupantGroups);
      w.text == if names == [] then "None" else JoinWith(names, GetTokenSeparator(t))
    ensures context.occupant.Some? && framework.styleInfo.Some? ==>
      var (ok, text) := framework.styleInfo.value.styleNames(context.occupant.value, GetTokenSeparator(t));
      w.text == if ok && text != [] then text else "None"
  {
    var separator := GetTokenSeparator(t);
    if context.occupant.None? then Written(true, "None")
    else if framework.styleInfo.Some? then
      var (ok, text) := framework.styleInfo.value.styleNames(context.occupant.value, separator);
      if ok && text != [] then Written(true, text) else Written(true, "None")
    else
      var names := MatchedStyleNames(MAXIS_BUILDING_STYLES, context.occupant.value.occupantGroups);
      MaxisJoinNonEmpty(context.occupant.value.occupantGroups, separator);
      if names == [] then Written(true, "None") else Written(true, JoinWith(names, separator))
  }

  method GetBuildingStylesToken(context: UnknownTokenContext, framework: Framework, t: SeparatorType)
    returns (w: Written)
    ensures w == StylesToken(context, framework, t)
  {
    var result := false;
    var text: string := [];
    if context.occupant.Some? {
      var separator := GetTokenSeparator(t);
      if framework.styleInfo.Some? {
        var listed := framework.styleInfo.value.styleNames(context.occupant.value, separator);
        result, text := listed.0, listed.1;
      } else {
        result, text := AppendMaxisStyleNames(context.occupant.value.occupantGroups, separator);
      }
    }
    if !result || |text| == 0 {
      text := "None";
      result := true;
    }
    w := Written(result, text);
  }

  // ---------------------------------------------------------------------------
  // building_summary and building_is_w2w: localized strings
  // ---------------------------------------------------------------------------

  /** The string group of the provider's localized texts. */
  const LOCALIZED_GROUP: uint32 := 0xEA55_24EB

  /** The localized summary for a building's purpose and wealth; the purposes and wealth levels no summary names have none. */
  function SummaryInstance(profile: BuildingProfile): (instance: Option<uint32>)
    ensures profile.purpose in {Residence, Services} ==> (instance.Some? <==> profile.wealth in {Low, Medium, High})
    ensures profile.purpose == Office ==> (instance.Some? <==> profile.wealth in {Medium, High})
    ensures profile.purpose in {Agriculture, Processing, Manufacturing, HighTech} ==> instance.Some?
    ensures profile.purpose == NoPurpose || profile.purpose.OtherPurpose? ==> instance.None?
  {
    match profile.purpose
    case Residence =>
      (match profile.wealth
       case Low => Some(0xCA95_F27E)
       case Medium => Some(0x6A95_F2B0)
       case High => Some(0xCA95_F2B8)
       case _ => None)
    case Services =>
      (match profile.wealth
       case Low => Some(0x8A95_F2BF)
       case Medium => Some(0xAA95_F2DC)
       case High => Some(0x8A95_F2E4)
       case _ => None)
    case Office =>
      (match profile.wealth
       case Medium => Some(0x0A95_F39A)
       case High => Some(0x6A95_F3B3)
       case _ => None)
    case Agriculture => Some(0x4A95_F2EB)
    case Processing => Some(0x2A95_F324)
    case Manufacturing => Some(0x6A95_F313)
    case HighTech => Some(0xCA95_F31C)
    case _ => None
  }

  /**
   * No two summaries share a string: the instance determines the purpose,
   * and for residential, commercial services and office buildings also the
   * wealth.
   */
  lemma SummaryInstancesDistinct(a: BuildingProfile, b: BuildingProfile)
    requires SummaryInstance(a).Some? && SummaryInstance(a) == SummaryInstance(b)
    ensures a.purpose == b.purpose
    ensures a.purpose in {Residence, Services, Office} ==> a.wealth == b.wealth
  {
  }

  /**
   * GetBuildingSummaryToken: the localized summary of the building's purpose
   * and wealth; fails when there is no building occupant, no summary for its
   * profile, or no such string.
   */
  function SummaryToken(context: UnknownTokenContext, framework: Framework): (w: Written)
    ensures w.result <==>
      context.occupant.Some? && context.occupant.value.building.Some?
      && SummaryInstance(context.occupant.value.building.value).Some?
      && framework.localized(LOCALIZED_GROUP, SummaryInstance(context.occupant.value.building.value).value).Some?
    ensures w.result ==>
      w.text == framework.localized(LOCALIZED_GROUP, SummaryInstance(context.occupant.value.building.value).value).value
    ensures !w.result ==> w.text == []
  {
    if context.occupant.Some? && context.occupant.value.building.Some? then
      var instance := SummaryInstance(context.occupant.value.building.value);
      if instance.Some? then
        var text := framework.localized(LOCALIZED_GROUP, instance.value);
        if text.Some? then Written(true, text.value) else Written(false, [])
      else Written(false, [])
    else Written(false, [])
  }

  const WALL_TO_WALL_YES: uint32 := 0xCA5D_4F33
  const WALL_TO_WALL_NO: uint32 := 0x6A5D_4F37

  /**
   * GetBuildingWallToWallToken: the localized "yes" or "no" from the style
   * DLL's wall-to-wall test, "Unknown" without the DLL, and failure without
   * an occupant.
   */
  function WallToWallToken(context: UnknownTokenContext, framework: Framework): (w: Written)
    ensures context.occupant.None? ==> !w.result
    ensures context.occupant.Some? && framework.styleInfo.None? ==> w == Written(true, "Unknown")
    ensures context.occupant.Some? && framework.styleInfo.Some? ==>
      var instance := if framework.styleInfo.value.isWallToWall(context.occupant.value) then WALL_TO_WALL_YES else WALL_TO_WALL_NO;
      (w.result <==> framework.localized(LOCALIZED_GROUP, instance).Some?)
      && (w.result ==> w.text == framework.localized(LOCALIZED_GROUP, instance).value)
  {
    if context.occupant.None? then Written(false, [])
    else if framework.styleInfo.None? then Written(true, "Unknown")
    else
      var instance := if framework.styleInfo.value.isWallToWall(context.occupant.value) then WALL_TO_WALL_YES else WALL_TO_WALL_NO;
      var text := framework.localized(LOCALIZED_GROUP, instance);
      if text.Some? then Written(true, text.value) else Written(false, [])
  }

  // ---------------------------------------------------------------------------
  // Lot tokens: occupancy, capacity, growth stage, jobs, travel jobs, wealth
  // ---------------------------------------------------------------------------

  /** GetCapacityToken: the lot's capacity for the developer type, 0 without a lot. */
  function CapacityToken(context: UnknownTokenContext, framework: Framework, d: DeveloperType): (w: Written)
    ensures GetOccupantLot(context).None? ==> w == MakeNumberString(framework, 0, Number)
    ensures GetOccupantLot(context).Some? ==> w == MakeNumberString(framework, GetOccupantLot(context).value.capacity(d), Number)
  {
    var lot := GetOccupantLot(context);
    MakeNumberString(framework, if lot.Some? then lot.value.capacity(d) else 0, Number)
  }

  /** GetOccupancyToken: the lot's population of the developer type, 0 without a lot. */
  function OccupancyToken(context: UnknownTokenContext, framework: Framework, d: DeveloperType): (w: Written)
    ensures GetOccupantLot(context).None? ==> w == MakeNumberString(framework, 0, Number)
    ensures GetOccupantLot(context).Some? ==> w == MakeNumberString(framework, GetOccupantLot(context).value.population(d), Number)
  {
    var lot := GetOccupantLot(context);
    MakeNumberString(framework, if lot.Some? then lot.value.population(d) else 0, Number)
  }

  /** GetGrowthStageToken: the lot configuration's growth stage, or "Unknown" (and success) without a lot or configuration. */
  function GrowthStageToken(context: UnknownTokenContext, framework: Framework): (w: Written)
    ensures GetOccupantLot(context).None? || GetOccupantLot(context).value.growthStage.None? ==> w == Written(true, "Unknown")
    ensures GetOccupantLot(context).Some? && GetOccupantLot(context).value.growthStage.Some? ==>
      w == MakeNumberString(framework, GetOccupantLot(context).value.growthStage.value, Number)
  {
    var lot := GetOccupantLot(context);
    if lot.Some? && lot.value.growthStage.Some? then MakeNumberString(framework, lot.value.growthStage.value, Number)
    else Written(true, "Unknown")
  }

  datatype JobType = LowWealthJobs | MediumWealthJobs | HighWealthJobs

  /** The wealth index a job type asks the traffic simulator about (0, 1, 2). */
  function WealthIndex(job: JobType): uint8
  {
    match job
    case LowWealthJobs => 0
    case MediumWealthJobs => 1
    case HighWealthJobs => 2
  }

  /** The job count GetJobs reports for the wealth level (elements 1 to 3 of its array). */
  function JobsOf(jobs: JobCounts, job: JobType): Float
  {
    match job
    case LowWealthJobs => jobs.low
    case MediumWealthJobs => jobs.medium
    case HighWealthJobs => jobs.high
  }

  /** GetLotJobCount: the rounded job count of the wealth level; 0 without a lot or when GetJobs fails. */
  function JobsToken(context: UnknownTokenContext, framework: Framework, job: JobType): (w: Written)
    ensures GetOccupantLot(context).None? || GetOccupantLot(context).value.jobs.None? ==> w == MakeNumberString(framework, 0, Number)
    ensures GetOccupantLot(context).Some? && GetOccupantLot(context).value.jobs.Some? ==>
      w == MakeNumberString(framework, LRound(framework, JobsOf(GetOccupantLot(context).value.jobs.value, job)), Number)
  {
    var lot := GetOccupantLot(context);
    var jobCount := if lot.Some? && lot.value.jobs.Some? then JobsOf(lot.value.jobs.value, job) else Float(0);
    MakeNumberString(framework, LRound(framework, jobCount), Number)
  }

  /**
   * GetLotTravelJobCount: the traffic simulator's trip capacity for the
   * wealth level; 0 without a lot or traffic simulator, and 0 for a lot with a
   * travel designate (an industrial lot served through an anchor lot).
   */
  function TravelJobsToken(context: UnknownTokenContext, framework: Framework, job: JobType): (w: Written)
    ensures GetOccupantLot(context).None? || GetOccupantLot(context).value.hasTravelDesignate || context.city.value.traffic.None?
      ==> w == MakeNumberString(framework, 0, Number)
    ensures GetOccupantLot(context).Some? && !GetOccupantLot(context).value.hasTravelDesignate && context.city.value.traffic.Some? ==>
      w == MakeNumberString(framework, context.city.value.traffic.value.maxTripCapacity(GetOccupantLot(context).value, WealthIndex(job)), Number)
  {
    var lot := GetOccupantLot(context);
    var travelJobs :=
      if lot.Some? && !lot.value.hasTravelDesignate && context.city.value.traffic.Some? then
        context.city.value.traffic.value.maxTripCapacity(lot.value, WealthIndex(job))
      else 0;
    MakeNumberString(framework, travelJobs, Number)
  }

  /** The wealth of the lot's building: the lot's occupant wealth for building type 0, else the building profile's, if any. */
  function LotWealth(lot: Lot): (wealth: WealthType)
    ensures lot.buildingType == 0 ==> wealth == lot.occupantWealth
    ensures lot.buildingType != 0 && lot.building.None? ==> wealth == NoWealth
    ensures lot.buildingType != 0 && lot.building.Some? ==> wealth == lot.building.value.wealth
  {
    if lot.buildingType == 0 then lot.occupantWealth
    else if lot.building.Some? then lot.building.value.wealth
    else NoWealth
  }

  /** The wealth names; a code outside the enumeration reads as "None". */
  function WealthName(wealth: WealthType): (name: string)
    ensures name == "None" <==> wealth == NoWealth || wealth.UnlistedWealth?
  {
    match wealth
    case Low => "Low Wealth"
    case Medium => "Medium Wealth"
    case High => "High Wealth"
    case _ => "None"
  }

  /** GetBuildingWealthToken: always succeeds; "None" unless the lot reports a listed wealth. */
  function WealthToken(context: UnknownTokenContext): (w: Written)
    ensures w.result
    ensures GetOccupantLot(context).None? ==> w.text == "None"
    ensures GetOccupantLot(context).Some? ==> w.text == WealthName(LotWealth(GetOccupantLot(context).value))
  {
    var lot := GetOccupantLot(context);
    if lot.Some? then Written(true, WealthName(LotWealth(lot.value))) else Written(true, "None")
  }

  // ---------------------------------------------------------------------------
  // mysim_name
  // ---------------------------------------------------------------------------

  /**
   * GetMySimResidentName: the personal name of the MySim living in the
   * building. It fails when a step of the lookup is missing; a null name
   * still succeeds, with an empty text.
   */
  function MySimNameToken(context: UnknownTokenContext): (w: Written)
    ensures w.result <==>
      context.occupant.Some? && context.city.Some? && context.occupant.value.building.Some?
      && context.city.value.mySim.Some? && context.city.value.mySim.value.residentName(context.occupant.value).Some?
    ensures w.result ==>
      var name := context.city.value.mySim.value.residentName(context.occupant.value).value;
      w.text == if name.Some? then name.value else []
  {
    if context.occupant.Some? && context.city.Some? && context.occupant.value.building.Some? && context.city.value.mySim.Some? then
      var resident := context.city.value.mySim.value.residentName(context.occupant.value);
      if resident.Some? then CopySC4StringValue(resident.value, []) else Written(false, [])
    else Written(false, [])
  }

  // ---------------------------------------------------------------------------
  // water_building_source
  // ---------------------------------------------------------------------------

  const WATER_SOURCE_PROPERTY: uint32 := 0x48F2_3A7E

  function WaterSourceName(code: uint8): (name: string)
    ensures name == "Unknown" <==> code > 2
  {
    if code == 0 then "Fresh Water"
    else if code == 1 then "Salt Water"
    else if code == 2 then "Aquifer"
    else "Unknown"
  }

  /** GetWaterBuildingSource: the source's name, "None" without the property; fails only without an occupant. */
  function WaterSourceToken(context: UnknownTokenContext): (w: Written)
    ensures w.result <==> context.occupant.Some?
    ensures context.occupant.Some? && ReadUint8(context.occupant.value.properties, WATER_SOURCE_PROPERTY).None? ==> w.text == "None"
    ensures context.occupant.Some? && ReadUint8(context.occupant.value.properties, WATER_SOURCE_PROPERTY).Some? ==>
      w.text == WaterSourceName(ReadUint8(context.occupant.value.properties, WATER_SOURCE_PROPERTY).value)
  {
    if context.occupant.None? then Written(false, [])
    else
      var code := ReadUint8(context.occupant.value.properties, WATER_SOURCE_PROPERTY);
      if code.Some? then Written(true, WaterSourceName(code.value)) else Written(true, "None")
  }

  // ---------------------------------------------------------------------------
  // budget_purpose_type_cost:<purpose ID>
  // ---------------------------------------------------------------------------

  const BUDGET_PURPOSE_TYPE_COST_PREFIX: string := "budget_purpose_type_cost:"

  /**
   * The cost GetBudgetPurposeTypeCost formats: the budget item's cost for the
   * purpose ID that follows the prefix, or 0 when the suffix is empty or not
   * a number, or a lookup fails.
   */
  function PurposeCost(token: string, prefix: string, context: UnknownTokenContext): (cost: int)
    ensures cost != 0 ==>
      context.occupant.Some? && context.city.Some? && context.city.value.budget.Some?
      && TryParseUInt32(RemoveLeft(token, |prefix|)).ok
      && context.city.value.budget.value.itemForPurpose(context.occupant.value.properties, TryParseUInt32(RemoveLeft(token, |prefix|)).value).Some?
  {
    if context.occupant.Some? && context.city.Some? then
      var purposeIDHexString := RemoveLeft(token, |prefix|);
      if purposeIDHexString != [] then
        var purposeID := TryParseUInt32(purposeIDHexString);
        if purposeID.ok && context.city.value.budget.Some? then
          var item := context.city.value.budget.value.itemForPurpose(context.occupant.value.properties, purposeID.value);
          if item.Some? then item.value.cost else 0
        else 0
      else 0
    else 0
  }

  /**
   * GetBudgetPurposeTypeCost: the money text of the budget item's cost for the
   * purpose ID after the prefix, when the ID parses and the budget simulator
   * has an item for it; the money text of 0 in every other case.
   */
  function BudgetPurposeTypeCost(token: string, prefix: string, context: UnknownTokenContext, framework: Framework): (w: Written)
    ensures var purposeID := TryParseUInt32(RemoveLeft(token, |prefix|));
      if context.occupant.Some? && context.city.Some? && context.city.value.budget.Some? && purposeID.ok
        && context.city.value.budget.value.itemForPurpose(context.occupant.value.properties, purposeID.value).Some?
      then w == MakeNumberString(framework, context.city.value.budget.value.itemForPurpose(context.occupant.value.properties, purposeID.value).value.cost, Money)
      else w == MakeNumberString(framework, 0, Money)
  {
    MakeNumberString(framework, PurposeCost(token, prefix, context), Money)
  }

  /** The token for a purpose ID written in hexadecimal finds that purpose's budget item. */
  lemma PurposeCostOfHexID(id: uint32, context: UnknownTokenContext, item: BudgetItem)
    requires context.occupant.Some? && context.city.Some? && context.city.value.budget.Some?
    requires context.city.value.budget.value.itemForPurpose(context.occupant.value.properties, id) == Some(item)
    ensures PurposeCost(BUDGET_PURPOSE_TYPE_COST_PREFIX + "0x" + Hex(id), BUDGET_PURPOSE_TYPE_COST_PREFIX, context) == item.cost
  {
    var suffix := "0x" + Hex(id);
    assert BUDGET_PURPOSE_TYPE_COST_PREFIX + "0x" + Hex(id) == BUDGET_PURPOSE_TYPE_COST_PREFIX + suffix;
    RemoveLeftOfConcat(BUDGET_PURPOSE_TYPE_COST_PREFIX, suffix);
    ParseHexRoundTrip(id);
  }

  /** The bare prefix, and a suffix that is not a number, give the cost 0. */
  lemma PurposeCostSentinels(context: UnknownTokenContext)
    ensures PurposeCost(BUDGET_PURPOSE_TYPE_COST_PREFIX, BUDGET_PURPOSE_TYPE_COST_PREFIX, context) == 0
    ensures PurposeCost(BUDGET_PURPOSE_TYPE_COST_PREFIX + "12abc", BUDGET_PURPOSE_TYPE_COST_PREFIX, context) == 0
  {
    RemoveLeftOfConcat(BUDGET_PURPOSE_TYPE_COST_PREFIX, "12abc");
    ParseRejectsExamples();
  }

  // ---------------------------------------------------------------------------
  // cap_relief / cap_relief_lines
  // ---------------------------------------------------------------------------

  const DEMAND_SATISFIED_PROPERTY: uint32 := 0x2781_2840
  const DEMAND_SATISFIED_FLOAT_PROPERTY: uint32 := 0x2781_2842

  /** The section sign in UTF-8, the game's string encoding: the bytes C2 A7, one `char` per byte of the C string. */
  const SECTION_SIGN: string := "\U{C2}\U{A7}"

  /** The names of the nine demand IDs the token knows. */
  const CAP_RELIEF_NAMES: map<uint32, string> := map[
    0x0000_1810 := "R" + SECTION_SIGN,
    0x0000_1820 := "R" + SECTION_SIGN + SECTION_SIGN,
    0x0000_1830 := "R" + SECTION_SIGN + SECTION_SIGN + SECTION_SIGN,
    0x0000_3B20 := "Co" + SECTION_SIGN + SECTION_SIGN,
    0x0000_3B30 := "Co" + SECTION_SIGN + SECTION_SIGN + SECTION_SIGN,
    0x0000_4900 := "I-R",
    0x0000_4A00 := "I-D",
    0x0000_4B00 := "I-M",
    0x0000_4C00 := "I-HT"]

  /** Element `k` of the demand-satisfied property as the unchecked `RefUint32()` read finds it. */
  function DemandWord(framework: Framework, v: Variant, k: nat): uint32
  {
    RefRead(framework, DEMAND_SATISFIED_PROPERTY, v, Uint32Element, k) % UINT32_LIMIT
  }

  /** One (ID, value) pair: `name=value` for a known ID whose value formats, otherwise `0x%08x=%u`. */
  function CapReliefEntry(framework: Framework, demandID: uint32, demandValue: uint32): (entry: string)
    ensures entry != []
    ensures demandID in CAP_RELIEF_NAMES && framework.makeNumber(demandValue).Some? ==>
      entry == CAP_RELIEF_NAMES[demandID] + "=" + framework.makeNumber(demandValue).value
    ensures demandID !in CAP_RELIEF_NAMES || framework.makeNumber(demandValue).None? ==>
      entry == "0x" + Hex8(demandID) + "=" + Decimal(demandValue)
  {
    var formatted := framework.makeNumber(demandValue);
    if demandID in CAP_RELIEF_NAMES && formatted.Some? then CAP_RELIEF_NAMES[demandID] + "=" + formatted.value
    else "0x" + Hex8(demandID) + "=" + Decimal(demandValue)
  }

  /** The number of pairs the integer loop visits: `i` runs over 0, 2, 4, ... below the element count. */
  function PairCount(v: Variant): nat
  {
    (Count(v) + 1) / 2
  }

  /** The text of the first `n` pairs, separated by `separator`. */
  function CapReliefPairs(framework: Framework, v: Variant, separator: string, n: nat): (text: string)
    ensures n == 0 <==> text == []
  {
    if n == 0 then []
    else
      CapReliefPairs(framework, v, separator, n - 1) + (if n > 1 then separator else [])
      + CapReliefEntry(framework, DemandWord(framework, v, 2 * (n - 1)), DemandWord(framework, v, 2 * (n - 1) + 1))
  }

  /** One more pair appends the separator (after the first pair) and the pair's entry. */
  lemma CapReliefPairsStep(framework: Framework, v: Variant, separator: string, n: nat, demandID: uint32, demandValue: uint32)
    requires demandID == DemandWord(framework, v, 2 * n) && demandValue == DemandWord(framework, v, 2 * n + 1)
    ensures CapReliefPairs(framework, v, separator, n + 1)
      == CapReliefPairs(framework, v, separator, n) + (if n > 0 then separator else []) + CapReliefEntry(framework, demandID, demandValue)
  {
  }

  /** One turn of the pair loop: the text after the turn is the text of one more pair. */
  lemma CapReliefLoopStep(framework: Framework, v: Variant, separator: string, pairs: nat, i: nat, before: string, after: string)
    requires i == 2 * pairs && before == CapReliefPairs(framework, v, separator, pairs)
    requires after == before + (if i > 0 then separator else [])
      + CapReliefEntry(framework, DemandWord(framework, v, i), DemandWord(framework, v, i + 1))
    ensures after == CapReliefPairs(framework, v, separator, pairs + 1)
  {
    CapReliefPairsStep(framework, v, separator, pairs, DemandWord(framework, v, i), DemandWord(framework, v, i + 1));
  }

  /** The loop stops after `(count + 1) / 2` turns. */
  lemma PairLoopEnds(v: Variant, pairs: nat)
    requires Count(v) <= 2 * pairs <= Count(v) + 1
    ensures pairs == PairCount(v)
  {
  }

  /** The integer branch's loop over the (ID, value) pairs of the demand-satisfied property. */
  method FormatCapReliefPairs(framework: Framework, v: Variant, separator: string) returns (text: string)
    ensures text == CapReliefPairs(framework, v, separator, PairCount(v))
  {
    text := [];
    var count := Count(v);
    var i := 0;
    ghost var pairs := 0;
    while i < count
      invariant i == 2 * pairs && i <= count + 1
      invariant text == CapReliefPairs(framework, v, separator, pairs)
    {
      var demandID := DemandWord(framework, v, i);
      var demandValue := DemandWord(framework, v, i + 1);
      var entry := CapReliefEntry(framework, demandID, demandValue);
      ghost var before := text;
      if i > 0 {
        text := text + separator;
      }
      text := text + entry;
      CapReliefLoopStep(framework, v, separator, pairs, i, before, text);
      i := i + 2;
      pairs := pairs + 1;
    }
    PairLoopEnds(v, pairs);
  }

  /**
   * GetCapReliefToken: the demand-satisfied pairs of the occupant's
   * exemplar, or "None" without the property. When the float property
   * exists the float branch writes the text. Succeeds exactly when the text
   * is not empty.
   */
  function CapReliefToken(context: UnknownTokenContext, framework: Framework, t: SeparatorType): (w: Written)
    ensures w.result <==> w.text != []
    ensures context.occupant.None? ==> !w.result
    ensures context.occupant.Some? && DEMAND_SATISFIED_PROPERTY !in context.occupant.value.properties ==> w.text == "None"
    ensures (context.occupant.Some? && DEMAND_SATISFIED_PROPERTY in context.occupant.value.properties
      && DEMAND_SATISFIED_FLOAT_PROPERTY !in context.occupant.value.properties) ==>
      var v := context.occupant.value.properties[DEMAND_SATISFIED_PROPERTY];
      w.text == CapReliefPairs(framework, v, GetTokenSeparator(t), PairCount(v))
  {
    if context.occupant.None? then Written(false, [])
    else
      var properties := context.occupant.value.properties;
      if DEMAND_SATISFIED_PROPERTY !in properties then Written(true, "None")
      else
        var separator := GetTokenSeparator(t);
        var v := properties[DEMAND_SATISFIED_PROPERTY];
        var text :=
          if DEMAND_SATISFIED_FLOAT_PROPERTY in properties then
            framework.floatCapRelief(v, properties[DEMAND_SATISFIED_FLOAT_PROPERTY], separator)
          else CapReliefPairs(framework, v, separator, PairCount(v));
        Written(text != [], text)
  }

  method GetCapReliefToken(context: UnknownTokenContext, framework: Framework, t: SeparatorType) returns (w: Written)
    ensures w == CapReliefToken(context, framework, t)
  {
    var text: string := [];
    if context.occupant.Some? {
      var properties := context.occupant.value.properties;
      if DEMAND_SATISFIED_PROPERTY in properties {
        var separator := GetTokenSeparator(t);
        var v := properties[DEMAND_SATISFIED_PROPERTY];
        if DEMAND_SATISFIED_FLOAT_PROPERTY in properties {
          text := framework.floatCapRelief(v, properties[DEMAND_SATISFIED_FLOAT_PROPERTY], separator);
        } else {
          text := FormatCapReliefPairs(framework, v, separator);
        }
      } else {
        text := "None";
      }
    }
    w := Written(|text| > 0, text);
  }

  /**
   * In the integer branch the token fails exactly when the property holds no
   * values: each pair writes a non-empty entry.
   */
  lemma CapReliefFailsOnlyWhenEmpty(context: UnknownTokenContext, framework: Framework, t: SeparatorType)
    requires context.occupant.Some?
    requires DEMAND_SATISFIED_PROPERTY in context.occupant.value.properties
    requires DEMAND_SATISFIED_FLOAT_PROPERTY !in context.occupant.value.properties
    ensures CapReliefToken(context, framework, t).result <==> Count(context.occupant.value.properties[DEMAND_SATISFIED_PROPERTY]) > 0
  {
  }

  /** A known demand ID with a formatted value reads as its name, `=` and the value; an unknown one as `0x%08x=%u`. */
  lemma CapReliefSinglePair(framework: Framework, demandID: uint32, demandValue: uint32)
    ensures var v := Uint32Values([demandID, demandValue]);
      CapReliefPairs(framework, v, " | ", PairCount(v)) ==
        if demandID in CAP_RELIEF_NAMES && framework.makeNumber(demandValue).Some?
        then CAP_RELIEF_NAMES[demandID] + "=" + framework.makeNumber(demandValue).value
        else "0x" + Hex8(demandID) + "=" + Decimal(demandValue)
  {
    var v := Uint32Values([demandID, demandValue]);
    assert PairCount(v) == 1;
    assert DemandWord(framework, v, 0) == demandID && DemandWord(framework, v, 1) == demandValue;
  }

  // ---------------------------------------------------------------------------
  // Effect and pollution tokens
  // ---------------------------------------------------------------------------

  datatype EffectType = CrimeEffect | LandmarkEffect | MayorRatingEffect | ParkEffect

  /** The exemplar property of each effect. */
  function EffectProperty(effect: EffectType): uint32
  {
    match effect
    case CrimeEffect => 0xCA5B_9306
    case LandmarkEffect => 0x2781_284F
    case MayorRatingEffect => 0xCA5B_9305
    case ParkEffect => 0x2781_2850
  }

  /** The crime effect is read as bytes, the others as signed 32-bit values. */
  function EffectElement(effect: EffectType): ElementType
  {
    if effect == CrimeEffect then Uint8Element else Sint32Element
  }

  /**
   * GetBuildingEffectToken: "Magnitude=<m> | Radius=<r>" from a property of
   * exactly two values; "None" without the property; failure without an
   * occupant, with another value count, or when a number does not format.
   */
  function EffectToken(context: UnknownTokenContext, framework: Framework, effect: EffectType): (w: Written)
    ensures context.occupant.None? ==> !w.result
    ensures context.occupant.Some? && EffectProperty(effect) !in context.occupant.value.properties ==> w == Written(true, "None")
    ensures (context.occupant.Some? && EffectProperty(effect) in context.occupant.value.properties
      && Count(context.occupant.value.properties[EffectProperty(effect)]) != 2) ==> !w.result
    ensures w.result && context.occupant.Some? && EffectProperty(effect) in context.occupant.value.properties ==>
      var v := context.occupant.value.properties[EffectProperty(effect)];
      var magnitude := framework.makeNumber(RefRead(framework, EffectProperty(effect), v, EffectElement(effect), 0));
      var radius := framework.makeNumber(RefRead(framework, EffectProperty(effect), v, EffectElement(effect), 1));
      magnitude.Some? && radius.Some? && w.text == "Magnitude=" + magnitude.value + " | Radius=" + radius.value
  {
    if context.occupant.None? then Written(false, [])
    else
      var id := EffectProperty(effect);
      var properties := context.occupant.value.properties;
      if id !in properties then Written(true, "None")
      else if Count(properties[id]) != 2 then Written(false, [])
      else
        var magnitude := framework.makeNumber(RefRead(framework, id, properties[id], EffectElement(effect), 0));
        var radius := framework.makeNumber(RefRead(framework, id, properties[id], EffectElement(effect), 1));
        if magnitude.Some? && radius.Some? then Written(true, "Magnitude=" + magnitude.value + " | Radius=" + radius.value)
        else Written(false, [])
  }

  /** A park effect of magnitude m and radius r reads back those two numbers. */
  lemma ParkEffectOfTwoValues(context: UnknownTokenContext, framework: Framework, m: int32, r: int32)
    requires context.occupant.Some?
    requires context.occupant.value.properties == map[EffectProperty(ParkEffect) := Sint32Values([m, r])]
    requires framework.makeNumber(m).Some? && framework.makeNumber(r).Some?
    ensures EffectToken(context, framework, ParkEffect)
      == Written(true, "Magnitude=" + framework.makeNumber(m).value + " | Radius=" + framework.makeNumber(r).value)
  {
    var v := Sint32Values([m, r]);
    assert RefRead(framework, EffectProperty(ParkEffect), v, Sint32Element, 0) == m;
    assert RefRead(framework, EffectProperty(ParkEffect), v, Sint32Element, 1) == r;
  }

  datatype PollutionType = PollutionAtCenter | PollutionRadii

  function PollutionProperty(pollution: PollutionType): uint32
  {
    match pollution
    case PollutionAtCenter => 0x2781_2851
    case PollutionRadii => 0x68EE_9764
  }

  /** The pollution at the center is read as signed 32-bit values, the radii as floats rounded with `lroundf`. */
  function PollutionElement(pollution: PollutionType): ElementType
  {
    if pollution == PollutionRadii then Float32Element else Sint32Element
  }

  /** The four numbers of a pollution property (air, water, garbage, radiation), read without a count check. */
  function PollutionNumbers(framework: Framework, pollution: PollutionType, v: Variant): seq<int>
  {
    seq(4, k requires 0 <= k < 4 => RefRead(framework, PollutionProperty(pollution), v, PollutionElement(pollution), k))
  }

  /** The text of four formatted numbers, or None if one does not format. */
  function PollutionText(framework: Framework, numbers: seq<int>): (text: Option<string>)
    requires |numbers| == 4
    ensures text.Some? <==> forall k :: 0 <= k < 4 ==> framework.makeNumber(numbers[k]).Some?
  {
    var air := framework.makeNumber(numbers[0]);
    var water := framework.makeNumber(numbers[1]);
    var garbage := framework.makeNumber(numbers[2]);
    var radiation := framework.makeNumber(numbers[3]);
    if air.Some? && water.Some? && garbage.Some? && radiation.Some? then
      Some("Air: " + air.value + " Water: " + water.value + " Garbage: " + garbage.value + " Radiation: " + radiation.value)
    else None
  }

  /**
   * GetBuildingPollutionToken: the four pollution numbers, "None" without the
   * property, failure without an occupant or when a number does not format.
   */
  function PollutionToken(context: UnknownTokenContext, framework: Framework, pollution: PollutionType): (w: Written)
    ensures context.occupant.None? ==> !w.result
    ensures context.occupant.Some? && PollutionProperty(pollution) !in context.occupant.value.properties ==> w == Written(true, "None")
    ensures context.occupant.Some? && PollutionProperty(pollution) in context.occupant.value.properties ==>
      var text := PollutionText(framework, PollutionNumbers(framework, pollution, context.occupant.value.properties[PollutionProperty(pollution)]));
      (w.result <==> text.Some?) && (w.result ==> w.text == text.value)
  {
    if context.occupant.None? then Written(false, [])
    else
      var id := PollutionProperty(pollution);
      var properties := context.occupant.value.properties;
      if id !in properties then Written(true, "None")
      else
        var text := PollutionText(framework, PollutionNumbers(framework, pollution, properties[id]));
        if text.Some? then Written(true, text.value) else Written(false, [])
  }

  /** Four pollution values at the center read back in the order air, water, garbage, radiation. */
  lemma PollutionAtCenterOfFourValues(framework: Framework, a: int32, w: int32, g: int32, r: int32)
    ensures PollutionNumbers(framework, PollutionAtCenter, Sint32Values([a, w, g, r])) == [a, w, g, r]
  {
    var v := Sint32Values([a, w, g, r]);
    var numbers := PollutionNumbers(framework, PollutionAtCenter, v);
    assert numbers[0] == a && numbers[1] == w && numbers[2] == g && numbers[3] == r;
  }

  // ---------------------------------------------------------------------------
  // Single-value property tokens
  // ---------------------------------------------------------------------------

  const BULLDOZE_COST_PROPERTY: uint32 := 0x099A_FACD

  /** The property read behind a number token, or nothing without an occupant. */
  function OccupantProperty<T>(context: UnknownTokenContext, read: (PropertyHolder, uint32) -> Option<T>, id: uint32): Option<T>
  {
    if context.occupant.Some? then read(context.occupant.value.properties, id) else None
  }

  /** GetBulldozeCostToken: the money text of the 64-bit bulldoze cost, 0 when it cannot be read. */
  function BulldozeCostToken(context: UnknownTokenContext, framework: Framework): (w: Written)
    ensures OccupantProperty(context, ReadSint64, BULLDOZE_COST_PROPERTY).None? ==> w == MakeNumberString(framework, 0, Money)
    ensures OccupantProperty(context, ReadSint64, BULLDOZE_COST_PROPERTY).Some? ==>
      w == MakeNumberString(framework, OccupantProperty(context, ReadSint64, BULLDOZE_COST_PROPERTY).value, Money)
  {
    var cost := OccupantProperty(context, ReadSint64, BULLDOZE_COST_PROPERTY);
    MakeNumberString(framework, if cost.Some? then cost.value else 0, Money)
  }

  /** GetUint8NumberToken: the number text of a single-byte property, 0 when it cannot be read. */
  function Uint8NumberToken(context: UnknownTokenContext, framework: Framework, id: uint32): (w: Written)
    ensures OccupantProperty(context, ReadUint8, id).None? ==> w == MakeNumberString(framework, 0, Number)
    ensures OccupantProperty(context, ReadUint8, id).Some? ==> w == MakeNumberString(framework, OccupantProperty(context, ReadUint8, id).value, Number)
  {
    var value := OccupantProperty(context, ReadUint8, id);
    MakeNumberString(framework, if value.Some? then value.value else 0, Number)
  }

  /**
   * GetUint32NumberToken as written: the test is inverted, so a value that
   * was read is reset to 0, and one that was not read was 0 already. The
   * token always formats 0.
   */
  function Uint32NumberTokenAsWritten(context: UnknownTokenContext, framework: Framework, id: uint32): (w: Written)
    ensures w == MakeNumberString(framework, 0, Number)
  {
    var read := OccupantProperty(context, ReadUint32, id);
    var value := if read.Some? then 0 else 0;
    MakeNumberString(framework, value, Number)
  }

  /** GetUint32NumberToken as intended, like GetUint8NumberToken: the value read, 0 when it cannot be read. */
  function Uint32NumberToken(context: UnknownTokenContext, framework: Framework, id: uint32): (w: Written)
    ensures OccupantProperty(context, ReadUint32, id).None? ==> w == MakeNumberString(framework, 0, Number)
    ensures OccupantProperty(context, ReadUint32, id).Some? ==> w == MakeNumberString(framework, OccupantProperty(context, ReadUint32, id).value, Number)
  {
    var value := OccupantProperty(context, ReadUint32, id);
    MakeNumberString(framework, if value.Some? then value.value else 0, Number)
  }

  const POWER_CONSUMED_PROPERTY: uint32 := 0x2781_2854

  /** A framework whose number formatting is `%d`; the other services are absent. */
  function DecimalFramework(): Framework
  {
    Framework(
      n => Some(SignedDecimal(n)), n => None, (g, i) => None, None,
      f => 0, (a, b, s) => [], (id, t, k) => 0)
  }

  /**
   * The inverted test shows for a building consuming 250 units of power: the
   * as-written token reads "0", the intended one "250".
   */
  lemma PowerConsumedReadsZero()
    ensures var context := UnknownTokenContext(Some(Occupant(map[POWER_CONSUMED_PROPERTY := Uint32Values([250])], {}, None, None)), None);
      Uint32NumberTokenAsWritten(context, DecimalFramework(), POWER_CONSUMED_PROPERTY) == Written(true, "0")
      && Uint32NumberToken(context, DecimalFramework(), POWER_CONSUMED_PROPERTY) == Written(true, "250")
  {
    assert Decimal(250) == Numeral(25, 10) + [DigitChar(0)];
    assert Numeral(25, 10) == Numeral(2, 10) + [DigitChar(5)];
  }

  // ---------------------------------------------------------------------------
  // The token table and the unknown-token callback
  // ---------------------------------------------------------------------------

  /** The table's callbacks, with the arguments the table binds. */
  datatype TokenCallback =
    | FullFunding(funding: FundingType)
    | WallToWall
    | Styles(separator: SeparatorType)
    | Summary
    | GrowthStage
    | MySimName
    | Jobs(job: JobType)
    | TravelJobs(job: JobType)
    | Occupancy(developer: DeveloperType)
    | Capacity(developer: DeveloperType)
    | WaterSource
    | CapRelief(separator: SeparatorType)
    | Effect(effect: EffectType)
    | Pollution(pollution: PollutionType)
    | Wealth
    | BulldozeCost
    | Uint8Number(id: uint32)
    | Uint32Number(id: uint32)

  /** tokenDataCallbacks, in source order: the dialog and lot texts ... */
  const DIALOG_TOKENS: map<string, TokenCallback> := map[
    "building_full_funding_capacity" := FullFunding(CapacityFunding),
    "building_full_funding_coverage" := FullFunding(CoverageFunding),
    "building_is_w2w" := WallToWall,
    "building_styles" := Styles(Pipe),
    "building_style_lines" := Styles(NewLine),
    "building_summary" := Summary,
    "growth_stage" := GrowthStage,
    "mysim_name" := MySimName,
    "jobs_low_wealth" := Jobs(LowWealthJobs),
    "jobs_medium_wealth" := Jobs(MediumWealthJobs),
    "jobs_high_wealth" := Jobs(HighWealthJobs),
    "travel_jobs_low_wealth" := TravelJobs(LowWealthJobs),
    "travel_jobs_medium_wealth" := TravelJobs(MediumWealthJobs),
    "travel_jobs_high_wealth" := TravelJobs(HighWealthJobs)]

  /** ... the occupancy and capacity of each developer type ... */
  const DEVELOPER_TOKENS: map<string, TokenCallback> := map[
    "r1_occupancy" := Occupancy(ResidentialLowWealth),
    "r1_capacity" := Capacity(ResidentialLowWealth),
    "r2_occupancy" := Occupancy(ResidentialMediumWealth),
    "r2_capacity" := Capacity(ResidentialMediumWealth),
    "r3_occupancy" := Occupancy(ResidentialHighWealth),
    "r3_capacity" := Capacity(ResidentialHighWealth),
    "cs1_occupancy" := Occupancy(CommercialServicesLowWealth),
    "cs1_capacity" := Capacity(CommercialServicesLowWealth),
    "cs2_occupancy" := Occupancy(CommercialServicesMediumWealth),
    "cs2_capacity" := Capacity(CommercialServicesMediumWealth),
    "cs3_occupancy" := Occupancy(CommercialServicesHighWealth),
    "cs3_capacity" := Capacity(CommercialServicesHighWealth),
    "co2_occupancy" := Occupancy(CommercialOfficeMediumWealth),
    "co2_capacity" := Capacity(CommercialOfficeMediumWealth),
    "co3_occupancy" := Occupancy(CommercialOfficeHighWealth),
    "co3_capacity" := Capacity(CommercialOfficeHighWealth),
    "ir_occupancy" := Occupancy(IndustrialAgriculture),
    "ir_capacity" := Capacity(IndustrialAgriculture),
    "id_occupancy" := Occupancy(IndustrialProcessing),
    "id_capacity" := Capacity(IndustrialProcessing),
    "im_occupancy" := Occupancy(IndustrialManufacturing),
    "im_capacity" := Capacity(IndustrialManufacturing),
    "iht_occupancy" := Occupancy(IndustrialHighTech),
    "iht_capacity" := Capacity(IndustrialHighTech)]

  /** ... and the exemplar properties. */
  const PROPERTY_TOKENS: map<string, TokenCallback> := map[
    "water_building_source" := WaterSource,
    "cap_relief" := CapRelief(Pipe),
    "cap_relief_lines" := CapRelief(NewLine),
    "crime_effect" := Effect(CrimeEffect),
    "landmark_effect" := Effect(LandmarkEffect),
    "park_effect" := Effect(ParkEffect),
    "mayor_rating_effect" := Effect(MayorRatingEffect),
    "pollution_at_center" := Pollution(PollutionAtCenter),
    "pollution_radii" := Pollution(PollutionRadii),
    "building_wealth" := Wealth,
    "bulldoze_cost" := BulldozeCost,
    "flammability" := Uint8Number(0x2924_4DB5),
    "max_fire_stage" := Uint8Number(0x49BE_DA31),
    "power_consumed" := Uint32Number(POWER_CONSUMED_PROPERTY),
    "water_consumed" := Uint32Number(0xC8ED_2D84)]

  /** tokenDataCallbacks: the 53 exact-match tokens (the three parts have no key in common). */
  const TOKEN_DATA_CALLBACKS: map<string, TokenCallback> := DIALOG_TOKENS + DEVELOPER_TOKENS + PROPERTY_TOKENS

  /** What a table callback returns and writes. The power and water tokens use the corrected GetUint32NumberToken. */
  function TokenValue(callback: TokenCallback, context: UnknownTokenContext, framework: Framework): Written
  {
    match callback
    case FullFunding(funding) => FullFundingToken(context, framework, funding)
    case WallToWall => WallToWallToken(context, framework)
    case Styles(t) => StylesToken(context, framework, t)
    case Summary => SummaryToken(context, framework)
    case GrowthStage => GrowthStageToken(context, framework)
    case MySimName => MySimNameToken(context)
    case Jobs(job) => JobsToken(context, framework, job)
    case TravelJobs(job) => TravelJobsToken(context, framework, job)
    case Occupancy(d) => OccupancyToken(context, framework, d)
    case Capacity(d) => CapacityToken(context, framework, d)
    case WaterSource => WaterSourceToken(context)
    case CapRelief(t) => CapReliefToken(context, framework, t)
    case Effect(effect) => EffectToken(context, framework, effect)
    case Pollution(pollution) => PollutionToken(context, framework, pollution)
    case Wealth => WealthToken(context)
    case BulldozeCost => BulldozeCostToken(context, framework)
    case Uint8Number(id) => Uint8NumberToken(context, framework, id)
    case Uint32Number(id) => Uint32NumberToken(context, framework, id)
  }

  /** Calls a table entry's callback; the looping callbacks run as methods. */
  method RunTokenCallback(callback: TokenCallback, context: UnknownTokenContext, framework: Framework) returns (w: Written)
    ensures w == TokenValue(callback, context, framework)
  {
    match callback {
      case FullFunding(funding) => w := GetBuildingFullFundingToken(context, framework, funding);
      case Styles(t) => w := GetBuildingStylesToken(context, framework, t);
      case CapRelief(t) => w := GetCapReliefToken(context, framework, t);
      case _ => w := TokenValue(callback, context, framework);
    }
  }

  /** A case-sensitive `starts_with`. */
  predicate StartsWith(s: string, prefix: string)
  {
    |prefix| <= |s| && s[..|prefix|] == prefix
  }

  /** parameterizedTokenCallbacks: the prefixes of the parameterised tokens (each handled by GetBudgetPurposeTypeCost). */
  const PARAMETERIZED_TOKEN_PREFIXES: seq<string> := [BUDGET_PURPOSE_TYPE_COST_PREFIX]

  /** The first prefix in `prefixes` that the token starts with. */
  function MatchingPrefix(prefixes: seq<string>, token: string): Option<string>
  {
    if prefixes == [] then None
    else if StartsWith(token, prefixes[0]) then Some(prefixes[0])
    else MatchingPrefix(prefixes[1..], token)
  }

  /** A prefix matches exactly when the token starts with one of them, and then it is the first such. */
  lemma {:induction false} MatchingPrefixIsFirst(prefixes: seq<string>, token: string)
    ensures MatchingPrefix(prefixes, token).Some? <==> exists k :: 0 <= k < |prefixes| && StartsWith(token, prefixes[k])
    ensures MatchingPrefix(prefixes, token).Some? ==>
      exists k :: 0 <= k < |prefixes| && MatchingPrefix(prefixes, token).value == prefixes[k] && StartsWith(token, prefixes[k])
        && forall j :: 0 <= j < k ==> !StartsWith(token, prefixes[j])
  {
    if prefixes != [] && !StartsWith(token, prefixes[0]) {
      MatchingPrefixIsFirst(prefixes[1..], token);
      if exists k :: 0 <= k < |prefixes| && StartsWith(token, prefixes[k]) {
        var k :| 0 <= k < |prefixes| && StartsWith(token, prefixes[k]);
        assert k > 0 && prefixes[1..][k - 1] == prefixes[k];
      }
      if MatchingPrefix(prefixes, token).Some? {
        var k :| 0 <= k < |prefixes[1..]| && MatchingPrefix(prefixes[1..], token).value == prefixes[1..][k]
          && StartsWith(token, prefixes[1..][k]) && forall j :: 0 <= j < k ==> !StartsWith(token, prefixes[1..][j]);
        assert forall j :: 1 <= j < k + 1 ==> prefixes[j] == prefixes[1..][j - 1];
        assert prefixes[k + 1] == prefixes[1..][k];
      }
    }
  }

  /** GetParameterizedTokenCallback: the loop over the parameterised entries, stopping at the first prefix that matches. */
  method GetParameterizedTokenCallback(token: string) returns (found: bool, prefix: string)
    ensures found <==> MatchingPrefix(PARAMETERIZED_TOKEN_PREFIXES, token).Some?
    ensures found ==> prefix == MatchingPrefix(PARAMETERIZED_TOKEN_PREFIXES, token).value
  {
    var entries := PARAMETERIZED_TOKEN_PREFIXES;
    var i := 0;
    while i < |entries|
      invariant 0 <= i <= |entries|
      invariant MatchingPrefix(entries, token) == MatchingPrefix(entries[i..], token)
    {
      assert entries[i..][1..] == entries[i + 1..];
      if StartsWith(token, entries[i]) {
        return true, entries[i];
      }
      i := i + 1;
    }
    return false, [];
  }

  /**
   * What UnknownTokenCallback does with a token: None when it is not handled;
   * otherwise the replacement text (empty when the callback failed).
   */
  function Resolve(token: string, context: UnknownTokenContext, framework: Framework): Option<string>
  {
    if token in TOKEN_DATA_CALLBACKS then Some(Replacement(TokenValue(TOKEN_DATA_CALLBACKS[token], context, framework)))
    else
      var prefix := MatchingPrefix(PARAMETERIZED_TOKEN_PREFIXES, token);
      if prefix.Some? then Some(Replacement(BudgetPurposeTypeCost(token, prefix.value, context, framework)))
      else None
  }

  /**
   * UnknownTokenCallback: an unhandled token leaves the output as it was and
   * returns false; a handled one clears the output, runs the callback, clears
   * it again if the callback failed, and returns true.
   */
  method UnknownTokenCallback(token: string, outReplacement: GZString, context: UnknownTokenContext, framework: Framework)
    returns (result: bool)
    modifies outReplacement
    ensures result <==> Resolve(token, context, framework).Some?
    ensures result ==> outReplacement.value == Resolve(token, context, framework).value
    ensures !result ==> outReplacement.value == old(outReplacement.value)
  {
    result := false;
    if token in TOKEN_DATA_CALLBACKS {
      outReplacement.Clear();
      var w := RunTokenCallback(TOKEN_DATA_CALLBACKS[token], context, framework);
      outReplacement.Append(w.text);
      if !w.result {
        outReplacement.Clear();
      }
      result := true;
    } else {
      var found, prefix := GetParameterizedTokenCallback(token);
      if found {
        outReplacement.Clear();
        var w := BudgetPurposeTypeCost(token, prefix, context, framework);
        outReplacement.Append(w.text);
        if !w.result {
          outReplacement.Clear();
        }
        result := true;
      }
    }
  }

  /** The single parameterised entry matches exactly the tokens that start with the budget prefix. */
  lemma ParameterizedPrefixMatch(token: string)
    ensures MatchingPrefix(PARAMETERIZED_TOKEN_PREFIXES, token)
      == if StartsWith(token, BUDGET_PURPOSE_TYPE_COST_PREFIX) then Some(BUDGET_PURPOSE_TYPE_COST_PREFIX) else None
  {
    assert PARAMETERIZED_TOKEN_PREFIXES[0] == BUDGET_PURPOSE_TYPE_COST_PREFIX;
    assert PARAMETERIZED_TOKEN_PREFIXES[1..] == [];
  }

  /** A token is handled exactly when it is a table key or starts with the budget prefix (case-sensitively). */
  lemma ResolveHandledIff(token: string, context: UnknownTokenContext, framework: Framework)
    ensures Resolve(token, context, framework).Some? <==>
      token in TOKEN_DATA_CALLBACKS || StartsWith(token, BUDGET_PURPOSE_TYPE_COST_PREFIX)
  {
    ParameterizedPrefixMatch(token);
  }

  /** The shape of every table key: it starts with a lower-case letter, and its third character is not the `d` of "budget". */
  predicate TableKeyShape(token: string)
  {
    |token| > 2 && 'a' <= token[0] <= 'z' && token[2] != 'd'
  }

  lemma DialogTokenKeys(token: string)
    requires token in DIALOG_TOKENS
    ensures TableKeyShape(token)
  {
  }

  lemma DeveloperTokenKeys(token: string)
    requires token in DEVELOPER_TOKENS
    ensures TableKeyShape(token)
  {
  }

  lemma PropertyTokenKeys(token: string)
    requires token in PROPERTY_TOKENS
    ensures TableKeyShape(token)
  {
  }

  /** A token of the table keys' shape does not start with "budget_purpose_type_cost:". */
  lemma KeyShapeNotParameterized(token: string)
    requires TableKeyShape(token)
    ensures !StartsWith(token, BUDGET_PURPOSE_TYPE_COST_PREFIX)
  {
  }

  /** No table key starts with the budget prefix, so the exact lookup never hides a parameterised token. */
  lemma TableKeysAreNotParameterized(token: string)
    requires token in TOKEN_DATA_CALLBACKS
    ensures !StartsWith(token, BUDGET_PURPOSE_TYPE_COST_PREFIX)
  {
    if token in DIALOG_TOKENS {
      DialogTokenKeys(token);
    } else if token in DEVELOPER_TOKENS {
      DeveloperTokenKeys(token);
    } else {
      PropertyTokenKeys(token);
    }
    KeyShapeNotParameterized(token);
  }

  /** A budget token with a purpose ID in hexadecimal resolves to the money text of that purpose's cost. */
  lemma BudgetTokenResolves(id: uint32, context: UnknownTokenContext, framework: Framework, item: BudgetItem)
    requires context.occupant.Some? && context.city.Some? && context.city.value.budget.Some?
    requires context.city.value.budget.value.itemForPurpose(context.occupant.value.properties, id) == Some(item)
    ensures Resolve(BUDGET_PURPOSE_TYPE_COST_PREFIX + "0x" + Hex(id), context, framework)
      == Some(Replacement(MakeNumberString(framework, item.cost, Money)))
  {
    var token := BUDGET_PURPOSE_TYPE_COST_PREFIX + "0x" + Hex(id);
    assert StartsWith(token, BUDGET_PURPOSE_TYPE_COST_PREFIX) by {
      assert token[..|BUDGET_PURPOSE_TYPE_COST_PREFIX|] == BUDGET_PURPOSE_TYPE_COST_PREFIX;
    }
    if token in TOKEN_DATA_CALLBACKS {
      TableKeysAreNotParameterized(token);
    }
    ParameterizedPrefixMatch(token);
    PurposeCostOfHexID(id, context, item);
  }

  /** The prefix is case-sensitive: a budget token with a capital first letter is not handled. */
  lemma CapitalisedBudgetTokenUnhandled(suffix: string, context: UnknownTokenContext, framework: Framework)
    ensures Resolve("B" + BUDGET_PURPOSE_TYPE_COST_PREFIX[1..] + suffix, context, framework).None?
  {
    var token := "B" + BUDGET_PURPOSE_TYPE_COST_PREFIX[1..] + suffix;
    assert token[0] == 'B';
    assert !StartsWith(token, BUDGET_PURPOSE_TYPE_COST_PREFIX) by {
      if |BUDGET_PURPOSE_TYPE_COST_PREFIX| <= |token| {
        assert token[..|BUDGET_PURPOSE_TYPE_COST_PREFIX|][0] == 'B' != BUDGET_PURPOSE_TYPE_COST_PREFIX[0];
      }
    }
    assert token !in TOKEN_DATA_CALLBACKS by {
      if token in DIALOG_TOKENS {
        DialogTokenKeys(token);
      } else if token in DEVELOPER_TOKENS {
        DeveloperTokenKeys(token);
      } else if token in PROPERTY_TOKENS {
        PropertyTokenKeys(token);
      }
    }
    ParameterizedPrefixMatch(token);
  }

  /** The power and water tokens resolve through the corrected GetUint32NumberToken. */
  lemma PowerConsumedResolves(context: UnknownTokenContext, framework: Framework)
    ensures Resolve("power_consumed", context, framework)
      == Some(Replacement(Uint32NumberToken(context, framework, POWER_CONSUMED_PROPERTY)))
  {
    assert PROPERTY_TOKENS["power_consumed"] == Uint32Number(POWER_CONSUMED_PROPERTY);
  }

  /** Handled with an empty text is not unhandled: with an empty context the MySim name is handled and empty. */
  lemma MySimNameWithEmptyContext(framework: Framework)
    ensures Replacement(TokenValue(MySimName, UnknownTokenContext(None, None), framework)) == []
  {
  }

  /** Without a lot: the growth stage reads "Unknown", the wealth "None", and the capacities and occupancies format 0. */
  lemma NoLotSentinels(context: UnknownTokenContext, framework: Framework, d: DeveloperType)
    requires GetOccupantLot(context).None?
    ensures TokenValue(GrowthStage, context, framework) == Written(true, "Unknown")
    ensures TokenValue(Wealth, context, framework) == Written(true, "None")
    ensures TokenValue(Capacity(d), context, framework) == MakeNumberString(framework, 0, Number)
    ensures TokenValue(Occupancy(d), context, framework) == MakeNumberString(framework, 0, Number)
  {
  }

  // ---------------------------------------------------------------------------
  // The provider object
  // ---------------------------------------------------------------------------

  /**
   * The provider: a data provider (its reference count lives in `base`) that
   * subscribes to the building query dialog hooks. `self` is the address the
   * hook server stores, `pCity` the current city. `currentTokenContext` is the
   * file-static context whose address the detokenizer receives.
   */
  class BuildingQueryVariablesProvider {
    const self: Pointer
    const base: UnknownBase
    var pCity: Option<City>
    var currentTokenContext: UnknownTokenContext

    constructor (self: Pointer)
      ensures this.self == self && fresh(base) && base.refCount == 0
      ensures pCity.None? && currentTokenContext == UnknownTokenContext(None, None)
    {
      this.self := self;
      base := new UnknownBase();
      pCity := None;
      currentTokenContext := UnknownTokenContext(None, None);
    }

    /** QueryInterface: the dialog hook target interface is answered here; anything else by the base. */
    method QueryInterface(riid: InterfaceId, ppvObj: object?) returns (ok: bool, out: object?)
      modifies base`refCount
      ensures ok <==> riid == BuildingQueryHookTargetIID || riid == GZUnknown
      ensures riid == BuildingQueryHookTargetIID ==> out == this
      ensures riid == GZUnknown ==> out == base
      ensures ok ==> base.refCount == Incremented(old(base.refCount))
      ensures !ok ==> out == ppvObj && base.refCount == old(base.refCount)
    {
      if riid == BuildingQueryHookTargetIID {
        out := this;
        var _ := base.AddRef();
        return true, out;
      }
      ok, out := base.QueryInterface(riid, ppvObj);
    }

    method AddRef() returns (count: uint32)
      modifies base`refCount
      ensures base.refCount == Incremented(old(base.refCount)) && count == base.refCount
    {
      count := base.AddRef();
    }

    method Release() returns (count: uint32)
      modifies base`refCount
      ensures base.refCount == Decremented(old(base.refCount)) && count == base.refCount
    {
      count := base.Release();
    }

    /**
     * PostCityInit: remembers the city, then subscribes to the dialog hooks
     * when the hook server's class object is available (`hookServer`).
     */
    method PostCityInit(city: Option<City>, hookServer: BuildingQueryHookServer?)
      requires hookServer != null ==> hookServer.Valid()
      modifies this`pCity, hookServer
      ensures hookServer != null ==> hookServer.Valid()
      ensures pCity == city
      ensures hookServer != null ==>
        hookServer.dialogHookSubscribers == Registry.Added(old(hookServer.dialogHookSubscribers), self)
        && hookServer.customToolTipHookSubscribers == old(hookServer.customToolTipHookSubscribers)
        && hookServer.appendToolTipHookSubscribers == old(hookServer.appendToolTipHookSubscribers)
        && hookServer.refCount == old(hookServer.refCount)
    {
      pCity := city;
      if hookServer != null {
        var _ := hookServer.AddDialogNotification(self);
      }
    }

    /** PreCityShutdown: forgets the city, then unsubscribes from the dialog hooks. */
    method PreCityShutdown(hookServer: BuildingQueryHookServer?)
      requires hookServer != null ==> hookServer.Valid()
      modifies this`pCity, hookServer
      ensures hookServer != null ==> hookServer.Valid()
      ensures pCity.None?
      ensures hookServer != null ==>
        hookServer.dialogHookSubscribers == Registry.Removed(old(hookServer.dialogHookSubscribers), self)
        && hookServer.customToolTipHookSubscribers == old(hookServer.customToolTipHookSubscribers)
        && hookServer.appendToolTipHookSubscribers == old(hookServer.appendToolTipHookSubscribers)
        && hookServer.refCount == old(hookServer.refCount)
    {
      pCity := None;
      if hookServer != null {
        var _ := hookServer.RemoveDialogNotification(self);
      }
    }

    /**
     * BeforeDialogShown: when the game has a detokenizer, stores the occupant
     * and the city in the static context and registers the callback with it.
     */
    method BeforeDialogShown(occupant: Option<Occupant>, detokenizer: StringDetokenizer?)
      modifies this`currentTokenContext, detokenizer
      ensures detokenizer != null ==>
        currentTokenContext == UnknownTokenContext(occupant, pCity)
        && detokenizer.calls == old(detokenizer.calls) + [Registration(ProviderUnknownTokenCallback, StaticTokenContext, true)]
      ensures detokenizer == null ==> currentTokenContext == old(currentTokenContext)
    {
      if detokenizer != null {
        currentTokenContext := UnknownTokenContext(occupant, pCity);
        detokenizer.AddUnknownTokenReplacementMethod(ProviderUnknownTokenCallback, StaticTokenContext, true);
      }
    }

    /** AfterDialogShown: removes the same callback and static context. */
    method AfterDialogShown(detokenizer: StringDetokenizer?)
      modifies detokenizer
      ensures detokenizer != null ==>
        detokenizer.calls == old(detokenizer.calls) + [Registration(ProviderUnknownTokenCallback, StaticTokenContext, false)]
    {
      if detokenizer != null {
        detokenizer.AddUnknownTokenReplacementMethod(ProviderUnknownTokenCallback, StaticTokenContext, false);
      }
    }
  }
}
