/**
 * The game-side data the token callbacks, property helpers and tooltip
 * handlers read: exemplar properties, occupants, lots, the city's simulators
 * and the framework services (number formatting, localized strings, the
 * optional building-style DLL). Every host object the plug-in reaches through
 * a pointer is an `Option`, `None` standing for the null pointer; every host
 * computation the plug-in calls is a function field (an oracle).
 */
module HostData {
  import opened Types
  import opened Wrappers
  import opened GZCom

  /** A property value (cIGZVariant): its element type and its elements. */
  datatype Variant =
    | Uint8Values(u8: seq<uint8>)
    | Uint32Values(u32: seq<uint32>)
    | Sint32Values(s32: seq<int32>)
    | Sint64Values(s64: seq<int64>)
    | Float32Values(f32: seq<Float>)
    | StringValue(text: string)

  /** An exemplar's properties (cISCPropertyHolder), by property ID. */
  type PropertyHolder = map<uint32, Variant>

  /** `GetCount()` of a variant. */
  function Count(v: Variant): nat
  {
    match v
    case Uint8Values(a) => |a|
    case Uint32Values(a) => |a|
    case Sint32Values(a) => |a|
    case Sint64Values(a) => |a|
    case Float32Values(a) => |a|
    case StringValue(s) => |s|
  }

  /**
   * The typed single-value reads of SCPropertyUtil::GetPropertyValue: they
   * succeed when the property exists and holds exactly one value of the
   * requested type.
   */
  function ReadUint8(holder: PropertyHolder, id: uint32): (r: Option<uint8>)
    ensures r.Some? <==> id in holder && holder[id].Uint8Values? && |holder[id].u8| == 1
  {
    if id in holder && holder[id].Uint8Values? && |holder[id].u8| == 1 then Some(holder[id].u8[0]) else None
  }

  function ReadUint32(holder: PropertyHolder, id: uint32): (r: Option<uint32>)
    ensures r.Some? <==> id in holder && holder[id].Uint32Values? && |holder[id].u32| == 1
  {
    if id in holder && holder[id].Uint32Values? && |holder[id].u32| == 1 then Some(holder[id].u32[0]) else None
  }

  function ReadSint64(holder: PropertyHolder, id: uint32): (r: Option<int64>)
    ensures r.Some? <==> id in holder && holder[id].Sint64Values? && |holder[id].s64| == 1
  {
    if id in holder && holder[id].Sint64Values? && |holder[id].s64| == 1 then Some(holder[id].s64[0]) else None
  }

  /** The string read: the property exists and holds text. */
  function ReadString(holder: PropertyHolder, id: uint32): (r: Option<string>)
    ensures r.Some? <==> id in holder && holder[id].StringValue?
  {
    if id in holder && holder[id].StringValue? then Some(holder[id].text) else None
  }

  /** cISC4BuildingOccupant::WealthType; `UnlistedWealth` is any other code a lot reports. */
  datatype WealthType = NoWealth | Low | Medium | High | UnlistedWealth(code: int)

  /** cISC4BuildingOccupant::PurposeType; `OtherPurpose` covers the purposes no token names. */
  datatype PurposeType =
    | NoPurpose | Residence | Services | Office | Agriculture | Processing | Manufacturing | HighTech
    | OtherPurpose(code: int)

  datatype BuildingProfile = BuildingProfile(purpose: PurposeType, wealth: WealthType)

  /** The developer types the occupancy and capacity tokens ask about. */
  datatype DeveloperType =
    | ResidentialLowWealth | ResidentialMediumWealth | ResidentialHighWealth
    | CommercialServicesLowWealth | CommercialServicesMediumWealth | CommercialServicesHighWealth
    | CommercialOfficeMediumWealth | CommercialOfficeHighWealth
    | IndustrialAgriculture | IndustrialProcessing | IndustrialManufacturing | IndustrialHighTech

  /** A job count as reported by `GetJobs`, one float per wealth level (index 1, 2, 3 of its array). */
  datatype JobCounts = JobCounts(low: Float, medium: Float, high: Float)

  /** A lot (cISC4Lot) and what the token callbacks ask of it. */
  datatype Lot = Lot(
    capacity: DeveloperType -> uint16,       // GetCapacity(type, true)
    population: DeveloperType -> uint16,     // GetPopulation(type)
    growthStage: Option<uint8>,              // GetLotConfiguration()->GetGrowthStage(); None: no configuration
    jobs: Option<JobCounts>,                 // GetJobs; None when it fails
    hasTravelDesignate: bool,                // GetTravelDesignate() != nullptr
    buildingType: uint32,                    // GetBuildingType(false)
    occupantWealth: WealthType,              // GetOccupantWealth()
    building: Option<BuildingProfile>)       // GetBuilding()->GetBuildingProfile()

  /** An occupant (cISC4Occupant): its properties, its occupant groups and, for a building, its profile. */
  datatype Occupant = Occupant(
    properties: PropertyHolder,
    occupantGroups: set<uint32>,
    building: Option<BuildingProfile>,       // QueryInterface(cISC4BuildingOccupant)
    lot: Option<Lot>)                        // the lot manager's GetOccupantLot

  /** cISC4BudgetSimulator::BudgetItem. */
  datatype BudgetItem = BudgetItem(purpose: uint32, cost: int)

  datatype BudgetSimulator = BudgetSimulator(
    itemInfo: PropertyHolder -> Option<seq<BudgetItem>>,          // GetBudgetItemInfo
    itemForPurpose: (PropertyHolder, uint32) -> Option<BudgetItem>)  // GetBudgetItemForPurpose

  datatype TrafficSimulator = TrafficSimulator(maxTripCapacity: (Lot, uint8) -> uint32)

  /**
   * The MySim lookup for a building: `None` when no MySim lives there or it
   * has no advisor; otherwise the advisor's personal name, itself `None` for a
   * null string.
   */
  datatype MySimAgentSimulator = MySimAgentSimulator(residentName: Occupant -> Option<Option<string>>)

  datatype City = City(
    hasLotManager: bool,
    budget: Option<BudgetSimulator>,
    traffic: Option<TrafficSimulator>,
    mySim: Option<MySimAgentSimulator>)

  /**
   * What the token callbacks receive as their context pointer: the queried
   * occupant and the current city, either of which may be null.
   */
  datatype UnknownTokenContext = UnknownTokenContext(occupant: Option<Occupant>, city: Option<City>)

  /** The More Building Styles DLL (cIBuildingStyleInfo2). */
  datatype StyleInfo = StyleInfo(
    styleNames: (Occupant, string) -> (bool, string),   // GetBuildingStyleNamesEx: result and written text
    isWallToWall: Occupant -> bool)

  /** The element types an unchecked `Ref*()` read asks a property for. */
  datatype ElementType = Uint8Element | Uint32Element | Sint32Element | Float32Element

  /**
   * Framework services. `makeNumber` and `makeMoney` are the language
   * utility's formatting (None when there is no language utility or it
   * fails); `localized` is the string resource lookup by (group, instance);
   * `round` is `lroundf`; `floatCapRelief` is the text of the float branch of
   * the cap-relief token, given the integer and the float properties and the
   * separator; `unchecked` is what an unchecked `Ref*()` read of element `k`
   * finds when the property holds no value of that type there (past its end,
   * or of another type), by property ID, element type and index.
   */
  datatype Framework = Framework(
    makeNumber: int -> Option<string>,
    makeMoney: int -> Option<string>,
    localized: (uint32, uint32) -> Option<string>,
    styleInfo: Option<StyleInfo>,
    round: Float -> int,
    floatCapRelief: (Variant, Variant, string) -> string,
    unchecked: (uint32, ElementType, nat) -> int)

  /** `lroundf`: a float whose bits are all zero is 0.0 and rounds to 0. */
  function LRound(framework: Framework, f: Float): (r: int)
    ensures f.bits == 0 ==> r == 0
  {
    if f.bits == 0 then 0 else framework.round(f)
  }

  /** Whether the property holds an element of type `t` at index `k`. */
  predicate HoldsElement(v: Variant, t: ElementType, k: nat)
  {
    match t
    case Uint8Element => v.Uint8Values? && k < |v.u8|
    case Uint32Element => v.Uint32Values? && k < |v.u32|
    case Sint32Element => v.Sint32Values? && k < |v.s32|
    case Float32Element => v.Float32Values? && k < |v.f32|
  }

  /**
   * The number an unchecked `Ref*()` read of element `k` finds (a float is
   * rounded with `lroundf`): the element itself when the property holds one of
   * that type there, otherwise whatever the memory past it holds.
   */
  function RefRead(framework: Framework, id: uint32, v: Variant, t: ElementType, k: nat): (r: int)
    ensures t == Uint8Element && HoldsElement(v, t, k) ==> r == v.u8[k]
    ensures t == Uint32Element && HoldsElement(v, t, k) ==> r == v.u32[k]
    ensures t == Sint32Element && HoldsElement(v, t, k) ==> r == v.s32[k]
    ensures t == Float32Element && HoldsElement(v, t, k) ==> r == LRound(framework, v.f32[k])
    ensures !HoldsElement(v, t, k) ==> r == framework.unchecked(id, t, k)
  {
    if !HoldsElement(v, t, k) then framework.unchecked(id, t, k)
    else
      match t
      case Uint8Element => v.u8[k]
      case Uint32Element => v.u32[k]
      case Sint32Element => v.s32[k]
      case Float32Element => LRound(framework, v.f32[k])
  }
}
