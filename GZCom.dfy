/**
 * The parts of the game's COM layer (GZCOM) that the plug-in's objects
 * implement: interface identifiers, pointers, and the saturating reference
 * count every object keeps.
 */
module GZCom {
  import opened Types

  /** A raw pointer as a 32-bit address; 0 is the null pointer. */
  type Pointer = uint32

  const NULL: Pointer := 0

  /** A 32-bit float, kept as its bit pattern: the plug-in only passes such values along. */
  datatype Float = Float(bits: uint32)

  /**
   * The interface identifiers the plug-in compares against. The numeric
   * values of most of them live in headers that are not part of this model,
   * so they are named rather than numbered; `OtherInterface` is any other
   * identifier a caller may ask for.
   */
  datatype InterfaceId =
    | GZUnknown
    | BuildingQueryHookServerIID
    | BuildingQueryHookTargetIID
    | FloraQueryToolTipHookServerIID     // 0x7AD86A4B
    | NetworkQueryToolTipHookServerIID
    | PropQueryToolTipHookServerIID      // 0x8D73886F
    | NetworkQueryCustomToolTipHookTargetIID
    | FloraQueryCustomToolTipHookTargetIID  // 0xA63B032A
    | PropQueryCustomToolTipHookTargetIID
    | OtherInterface(id: uint32)

  const MAX_COUNT: uint32 := 0xFFFF_FFFF

  /** `++refCount` on a uint32: one more, wrapping to 0 after the largest count. */
  function Incremented(count: uint32): (r: uint32)
    ensures count < MAX_COUNT ==> r == count + 1
    ensures count == MAX_COUNT ==> r == 0
  {
    (count + 1) % UINT32_LIMIT
  }

  /** `if (refCount > 0) --refCount`: one less, but never below zero. */
  function Decremented(count: uint32): (r: uint32)
    ensures r <= count
    ensures r == count <==> count == 0
    ensures count > 0 ==> r + 1 == count
  {
    if count > 0 then count - 1 else 0
  }

  /** A Release undoes an AddRef (short of the wrap-around), and a Release at zero changes nothing. */
  lemma ReleaseUndoesAddRef(count: uint32)
    ensures count < MAX_COUNT ==> Decremented(Incremented(count)) == count
    ensures Decremented(0) == 0
  {
  }
}
