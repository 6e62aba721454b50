/**
 * The terrain query hook. It takes the place of the game's sprintf call that
 * formats the terrain query text, and, depending on the modifier keys held,
 * adds the cell's moisture, its humidity and wind, or its flammability, land
 * value and pollution. Without the four simulators it writes the game's own
 * position and cell text.
 *
 * Positions, humidity and wind are floats, carried through as opaque values;
 * the simulators are oracles; the key states are inputs; `sprintf` stands for
 * the game's formatting call and returns what it returns.
 */
module TerrainQueryHooks {
  import opened Types
  import opened Wrappers
  import opened GZCom
  import opened Patcher

  /** The hook's ModifierKeys flags (an order different from the query tool's). */
  const MODIFIER_CONTROL: bv32 := 0x1
  const MODIFIER_ALT: bv32 := 0x2
  const MODIFIER_SHIFT: bv32 := 0x4
  const MODIFIER_CONTROL_ALT_SHIFT: bv32 := 0x7

  /**
   * GetActiveModifierKeys: one flag for each key held down, set
   * independently of the others; no other bit is set.
   */
  method GetActiveModifierKeys(controlDown: bool, altDown: bool, shiftDown: bool) returns (modifiers: bv32)
    ensures (modifiers & MODIFIER_CONTROL != 0) == controlDown
    ensures (modifiers & MODIFIER_ALT != 0) == altDown
    ensures (modifiers & MODIFIER_SHIFT != 0) == shiftDown
    ensures modifiers & !MODIFIER_CONTROL_ALT_SHIFT == 0
  {
    modifiers := 0;
    if controlDown {
      modifiers := modifiers | MODIFIER_CONTROL;
    }
    if altDown {
      modifiers := modifiers | MODIFIER_ALT;
    }
    if shiftDown {
      modifiers := modifiers | MODIFIER_SHIFT;
    }
  }

  /** The four kinds of text the hook can produce; `NoText` writes nothing. */
  datatype Branch = MoistureText | HumidityWindText | FlammabilityLandPollutionText | NoText

  /**
   * The branch for a modifier word: none or all three keys give the moisture
   * text, Alt alone the humidity and wind, Control alone the flammability,
   * land value and pollution, any other combination nothing.
   */
  function SelectBranch(modifiers: bv32): Branch
  {
    if modifiers == 0 || modifiers & MODIFIER_CONTROL_ALT_SHIFT == MODIFIER_CONTROL_ALT_SHIFT then MoistureText
    else if modifiers & MODIFIER_CONTROL_ALT_SHIFT == MODIFIER_ALT then HumidityWindText
    else if modifiers & MODIFIER_CONTROL_ALT_SHIFT == MODIFIER_CONTROL then FlammabilityLandPollutionText
    else NoText
  }

  /**
   * The branch as a table over the keys held: none or all three give the
   * moisture text, Alt alone the humidity and wind, Control alone the
   * flammability, land value and pollution; Shift alone or any two keys give
   * nothing.
   */
  function KeyBranch(controlDown: bool, altDown: bool, shiftDown: bool): Branch
  {
    match (controlDown, altDown, shiftDown)
    case (false, false, false) => MoistureText
    case (true, true, true) => MoistureText
    case (false, true, false) => HumidityWindText
    case (true, false, false) => FlammabilityLandPollutionText
    case (false, false, true) => NoText
    case (true, true, false) => NoText
    case (true, false, true) => NoText
    case (false, true, true) => NoText
  }

  /** The bit tests on the modifier word pick the branch the table gives for the keys it encodes. */
  lemma BranchForKeys(controlDown: bool, altDown: bool, shiftDown: bool, modifiers: bv32)
    requires (modifiers & MODIFIER_CONTROL != 0) == controlDown
    requires (modifiers & MODIFIER_ALT != 0) == altDown
    requires (modifiers & MODIFIER_SHIFT != 0) == shiftDown
    requires modifiers & !MODIFIER_CONTROL_ALT_SHIFT == 0
    ensures SelectBranch(modifiers) == KeyBranch(controlDown, altDown, shiftDown)
  {
    assert modifiers == modifiers & MODIFIER_CONTROL_ALT_SHIFT;
    assert modifiers & MODIFIER_CONTROL_ALT_SHIFT
        == (modifiers & MODIFIER_CONTROL) | (modifiers & MODIFIER_ALT) | (modifiers & MODIFIER_SHIFT);
  }

  /** cISC4LandValueSimulator::LandValueType; `OtherLandValue` is any other code. */
  datatype LandValueType = LowLandValue | MediumLandValue | HighLandValue | OtherLandValue(code: int)

  /** The land value description the Control text shows. */
  function LandValueDescription(t: LandValueType): (description: string)
    ensures t.LowLandValue? <==> description == "Low"
    ensures t.MediumLandValue? <==> description == "Medium"
    ensures t.HighLandValue? <==> description == "High"
    ensures t.OtherLandValue? <==> description == "Unknown"
  {
    match t
    case LowLandValue => "Low"
    case MediumLandValue => "Medium"
    case HighLandValue => "High"
    case OtherLandValue(_) => "Unknown"
  }

  /** The simulators the hook asks, by cell or by position. */
  datatype WeatherSimulator = WeatherSimulator(
    moisture: (Float, Float) -> uint8,
    humidity: (Float, Float) -> Float,
    windAtCell: (int32, int32) -> (Float, Float, Float))   // speed, direction x, direction y
  datatype FlammabilitySimulator = FlammabilitySimulator(flammability: (int32, int32) -> uint8)
  datatype LandValueSimulator = LandValueSimulator(
    intrinsicLandValue: (int32, int32) -> uint8,
    landValue: (int32, int32) -> uint8,
    landValueType: (int32, int32) -> LandValueType)
  datatype PollutionSimulator = PollutionSimulator(
    air: (int32, int32) -> int32,
    water: (int32, int32) -> int32,
    garbage: (int32, int32) -> int32,
    radioactive: (int32, int32) -> bool)

  datatype Simulators = Simulators(
    flammability: Option<FlammabilitySimulator>,
    landValue: Option<LandValueSimulator>,
    pollution: Option<PollutionSimulator>,
    weather: Option<WeatherSimulator>)

  predicate AllSimulators(sims: Simulators)
  {
    sims.flammability.Some? && sims.landValue.Some? && sims.pollution.Some? && sims.weather.Some?
  }

  /** The position and cell every text starts with. */
  datatype Location = Location(x: Float, y: Float, z: Float, cellX: int32, cellZ: int32)

  /** The values each format is given, one alternative per format. */
  datatype QueryText =
    | PositionText(at: Location)
    | CellMoistureText(at: Location, moisture: uint8)
    | HumidityAndWindText(at: Location, humidity: Float, windSpeed: Float, windX: Float, windY: Float)
    | CellDetailText(
        at: Location, flammability: uint8, intrinsicLandValue: uint8, totalLandValue: uint8,
        landValueDescription: string, air: int32, water: int32, garbage: int32, radioactive: bool)

  /** The text a branch writes for a location, given all four simulators. */
  function BranchText(branch: Branch, at: Location, sims: Simulators): (text: Option<QueryText>)
    requires AllSimulators(sims)
    ensures text.None? <==> branch == NoText
    ensures text.Some? ==> text.value.at == at
  {
    var weather, land, pollution := sims.weather.value, sims.landValue.value, sims.pollution.value;
    match branch
    case MoistureText => Some(CellMoistureText(at, weather.moisture(at.x, at.z)))
    case HumidityWindText =>
      var (speed, dx, dy) := weather.windAtCell(at.cellX, at.cellZ);
      Some(HumidityAndWindText(at, weather.humidity(at.x, at.z), speed, dx, dy))
    case FlammabilityLandPollutionText =>
      Some(CellDetailText(
        at, sims.flammability.value.flammability(at.cellX, at.cellZ),
        land.intrinsicLandValue(at.cellX, at.cellZ), land.landValue(at.cellX, at.cellZ),
        LandValueDescription(land.landValueType(at.cellX, at.cellZ)),
        pollution.air(at.cellX, at.cellZ), pollution.water(at.cellX, at.cellZ),
        pollution.garbage(at.cellX, at.cellZ), pollution.radioactive(at.cellX, at.cellZ)))
    case NoText => None
  }

  /**
   * HookedTerrainQuerySprintf: with all four simulators, the keys choose the
   * text, and a combination that chooses none writes nothing and returns 0;
   * without them, the plain position and cell text is written whatever the
   * keys. Whatever is written is what the game's sprintf returns.
   */
  method HookedTerrainQuerySprintf(
    at: Location, sims: Simulators, controlDown: bool, altDown: bool, shiftDown: bool,
    sprintf: QueryText -> int32)
    returns (result: int32, written: Option<QueryText>)
    ensures !AllSimulators(sims) ==> written == Some(PositionText(at))
    ensures AllSimulators(sims) ==> written == BranchText(KeyBranch(controlDown, altDown, shiftDown), at, sims)
    ensures result == if written.Some? then sprintf(written.value) else 0
  {
    result := 0;
    written := None;
    if AllSimulators(sims) {
      var modifiers := GetActiveModifierKeys(controlDown, altDown, shiftDown);
      BranchForKeys(controlDown, altDown, shiftDown, modifiers);
      written := BranchText(SelectBranch(modifiers), at, sims);
      if written.Some? {
        result := sprintf(written.value);
      }
    } else {
      written := Some(PositionText(at));
      result := sprintf(written.value);
    }
  }

  const TERRAIN_QUERY_SPRINTF_SITE: uint32 := 0x4D_7335

  /** TerrainQueryHooks::Install: one CALL to the hook in place of the game's sprintf. */
  method Install(memory: ProcessMemory, hook: uint32, protect: uint32 -> bool) returns (thrown: bool)
    modifies memory
    ensures Installation(thrown, memory.bytes) == InstallAll(old(memory.bytes), [CallHook(TERRAIN_QUERY_SPRINTF_SITE, hook)], protect)
  {
    thrown := memory.InstallCallHook(TERRAIN_QUERY_SPRINTF_SITE, hook, protect(TERRAIN_QUERY_SPRINTF_SITE));
    assert [CallHook(TERRAIN_QUERY_SPRINTF_SITE, hook)][1..] == [];
  }
}
