/**
 * ClickToCopyOccupantFilter: the filter handed to the renderer's pick when
 * the query tool copies the occupant under the cursor. It lets buildings,
 * flora and props through and no property holder.
 */
module ClickToCopyOccupantFilter {
  import opened Types
  import opened Wrappers
  import opened HostData

  /** Occupant type IDs. */
  const BUILDING_TYPE: uint32 := 0x2781_28A0
  const FLORA_TYPE: uint32 := 0x7475_8926
  const PROP_TYPE: uint32 := 0xA823_821E

  /** The occupant types the pick may return. */
  const COPYABLE_TYPES: set<uint32> := {BUILDING_TYPE, FLORA_TYPE, PROP_TYPE}

  function IsOccupantTypeIncluded(occupantType: uint32): (r: bool)
  {
    match occupantType
    case 0x2781_28A0 => true
    case 0x7475_8926 => true
    case 0xA823_821E => true
    case _ => false
  }

  /** The filter accepts exactly the three copyable occupant types. */
  lemma IncludedTypes(occupantType: uint32)
    ensures IsOccupantTypeIncluded(occupantType) <==> occupantType in COPYABLE_TYPES
  {
  }

  /** The filter rejects every property holder, whatever its properties. */
  function IsPropertyHolderIncluded(holder: Option<PropertyHolder>): (r: bool)
    ensures !r
  {
    false
  }
}
