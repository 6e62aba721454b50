/**
 * Display names of exemplars: the item-name property, then the localized
 * user-visible name, then the exemplar name. A null property holder is
 * `None`; each lookup either finds a name or does not, and the first one
 * found is what the caller's string receives.
 */
module PropertyUtil {
  import opened Types
  import opened Wrappers
  import opened HostData

  const USER_VISIBLE_NAME_PROPERTY: uint32 := 0x8A41_6A99
  const EXEMPLAR_NAME_PROPERTY: uint32 := 0x0000_0020
  const ITEM_NAME_PROPERTY: uint32 := 0x899A_FBAD

  /** A localized string's resource key (the type ID is not used). */
  datatype StringResourceKey = StringResourceKey(groupID: uint32, instanceID: uint32)

  /** The user-visible-name key: a Uint32 array of exactly three values, read as (type, group, instance). */
  function GetUserVisibleNameKey(holder: Option<PropertyHolder>): (key: Option<StringResourceKey>)
    ensures key.Some? <==>
      holder.Some? && USER_VISIBLE_NAME_PROPERTY in holder.value
      && holder.value[USER_VISIBLE_NAME_PROPERTY].Uint32Values?
      && |holder.value[USER_VISIBLE_NAME_PROPERTY].u32| == 3
    ensures key.Some? ==>
      var tgi := holder.value[USER_VISIBLE_NAME_PROPERTY].u32;
      key.value.groupID == tgi[1] && key.value.instanceID == tgi[2]
  {
    if holder.Some? && USER_VISIBLE_NAME_PROPERTY in holder.value then
      var value := holder.value[USER_VISIBLE_NAME_PROPERTY];
      if value.Uint32Values? && |value.u32| == 3 then
        Some(StringResourceKey(value.u32[1], value.u32[2]))
      else
        None
    else
      None
  }

  /** TryGetUserVisibleName (and GetUserVisibleName): the localized string the key names, if both exist. */
  function GetUserVisibleName(localized: (uint32, uint32) -> Option<string>, holder: Option<PropertyHolder>): (name: Option<string>)
    ensures name.Some? <==>
      (GetUserVisibleNameKey(holder).Some?
       && localized(GetUserVisibleNameKey(holder).value.groupID, GetUserVisibleNameKey(holder).value.instanceID).Some?)
  {
    var key := GetUserVisibleNameKey(holder);
    if key.Some? then localized(key.value.groupID, key.value.instanceID) else None
  }

  /** GetExemplarName: the string property 0x20. */
  function GetExemplarName(holder: Option<PropertyHolder>): (name: Option<string>)
    ensures name.Some? <==> holder.Some? && ReadString(holder.value, EXEMPLAR_NAME_PROPERTY).Some?
  {
    if holder.Some? then ReadString(holder.value, EXEMPLAR_NAME_PROPERTY) else None
  }

  /** The item-name property 0x899AFBAD. */
  function GetItemName(holder: Option<PropertyHolder>): Option<string>
  {
    if holder.Some? then ReadString(holder.value, ITEM_NAME_PROPERTY) else None
  }

  /**
   * GetDisplayName: the first of the item name, the user-visible name and the
   * exemplar name that exists. It fails only when all three are missing, and
   * always for a null holder.
   */
  function GetDisplayName(localized: (uint32, uint32) -> Option<string>, holder: Option<PropertyHolder>): (name: Option<string>)
    ensures holder.None? ==> name.None?
    ensures name.None? <==>
      GetItemName(holder).None? && GetUserVisibleName(localized, holder).None? && GetExemplarName(holder).None?
    ensures GetItemName(holder).Some? ==> name == GetItemName(holder)
    ensures GetItemName(holder).None? && GetUserVisibleName(localized, holder).Some? ==>
      name == GetUserVisibleName(localized, holder)
  {
    if holder.None? then None
    else
      var itemName := GetItemName(holder);
      if itemName.Some? then itemName
      else
        var userVisibleName := GetUserVisibleName(localized, holder);
        if userVisibleName.Some? then userVisibleName else GetExemplarName(holder)
  }

  /**
   * A user-visible-name property of the wrong type or length yields no key,
   * so, without an item name, the display name is the exemplar name.
   */
  lemma MalformedKeyFallsThroughToExemplarName(localized: (uint32, uint32) -> Option<string>, holder: PropertyHolder)
    requires ITEM_NAME_PROPERTY !in holder || !holder[ITEM_NAME_PROPERTY].StringValue?
    requires USER_VISIBLE_NAME_PROPERTY in holder
    requires !holder[USER_VISIBLE_NAME_PROPERTY].Uint32Values? || |holder[USER_VISIBLE_NAME_PROPERTY].u32| != 3
    ensures GetDisplayName(localized, Some(holder)) == GetExemplarName(Some(holder))
  {
    assert GetItemName(Some(holder)).None?;
    assert GetUserVisibleNameKey(Some(holder)).None?;
  }

  /** Whatever the display name is, it is one of the three candidates. */
  lemma DisplayNameIsACandidate(localized: (uint32, uint32) -> Option<string>, holder: Option<PropertyHolder>)
    requires GetDisplayName(localized, holder).Some?
    ensures GetDisplayName(localized, holder) in
      {GetItemName(holder), GetUserVisibleName(localized, holder), GetExemplarName(holder)}
  {
  }
}
