/**
 * NetworkQueryToolTipHandler: the plug-in's own custom tooltip subscriber for
 * network pieces. In a debug query it titles the tooltip with the localized
 * name of the piece's network type and replaces or extends the text with the
 * piece's debug details: pipe distress for water pipes, nothing for power
 * poles, and for every other network its types, piece and texture IDs,
 * wealth, orientation, cell and edge connections.
 *
 * The network occupant is a value read from the game; its edge connection
 * store is the game's structure read through a pointer.
 */
module NetworkToolTipHandler {
  import opened Types
  import opened Wrappers
  import opened SeqUtil
  import opened GZCom
  import opened Printf
  import opened GZStringUtil
  import opened TokenEngine
  import opened ComBase
  import opened Registry
  import opened ToolTipHookServers

  // ---------------------------------------------------------------------------
  // Network types
  // ---------------------------------------------------------------------------

  /** cISC4NetworkOccupant::eNetworkType */
  datatype NetworkType =
    | Road | Rail | Highway | Street | WaterPipe | PowerPole | Avenue
    | Subway | LightRail | Monorail | OneWayRoad | DirtRoad | GroundHighway

  /** The enumeration value of each type. */
  function Code(t: NetworkType): (c: nat)
    ensures c < 13
  {
    match t
    case Road => 0
    case Rail => 1
    case Highway => 2
    case Street => 3
    case WaterPipe => 4
    case PowerPole => 5
    case Avenue => 6
    case Subway => 7
    case LightRail => 8
    case Monorail => 9
    case OneWayRoad => 0xA
    case DirtRoad => 0xB
    case GroundHighway => 0xC
  }

  /** The type an enumeration value names, if any: a value cast from a byte may name none. */
  function OfCode(c: int): (t: Option<NetworkType>)
    ensures t.Some? <==> 0 <= c < 13
    ensures t.Some? ==> Code(t.value) == c
  {
    if c == 0 then Some(Road)
    else if c == 1 then Some(Rail)
    else if c == 2 then Some(Highway)
    else if c == 3 then Some(Street)
    else if c == 4 then Some(WaterPipe)
    else if c == 5 then Some(PowerPole)
    else if c == 6 then Some(Avenue)
    else if c == 7 then Some(Subway)
    else if c == 8 then Some(LightRail)
    else if c == 9 then Some(Monorail)
    else if c == 0xA then Some(OneWayRoad)
    else if c == 0xB then Some(DirtRoad)
    else if c == 0xC then Some(GroundHighway)
    else None
  }

  /** Every type's value reads back as that type, so distinct types have distinct values. */
  lemma CodeRoundTrip(t: NetworkType)
    ensures OfCode(Code(t)) == Some(t)
  {
  }

  /** MakeListEntry: the type paired with the network flag bit its value selects. */
  function MakeListEntry(t: NetworkType): (entry: (NetworkType, bv32))
    ensures entry.0 == t && entry.1 == (1 as bv32) << Code(t)
  {
    (t, (1 as bv32) << Code(t))
  }

  /**
   * NetworkTypeList: the types in the order the game's query tool tests
   * them, power poles last, each with its flag bit written out.
   */
  const NETWORK_TYPE_LIST: seq<(NetworkType, bv32)> := [
    (Highway, 0x4), (LightRail, 0x100), (GroundHighway, 0x1000), (Road, 0x1),
    (Rail, 0x2), (OneWayRoad, 0x400), (DirtRoad, 0x800), (Monorail, 0x200),
    (Street, 0x8), (WaterPipe, 0x10), (Subway, 0x80), (Avenue, 0x40),
    (PowerPole, 0x20)]

  /** Every entry of the list is the one MakeListEntry builds for its type. */
  lemma ListEntriesAreMade(k: nat)
    requires k < |NETWORK_TYPE_LIST|
    ensures NETWORK_TYPE_LIST[k] == MakeListEntry(NETWORK_TYPE_LIST[k].0)
  {
    var one: bv32 := 1;
    if k == 0 { assert one << 2 == 0x4; }
    else if k == 1 { assert one << 8 == 0x100; }
    else if k == 2 { assert one << 12 == 0x1000; }
    else if k == 3 { assert one << 0 == 0x1; }
    else if k == 4 { assert one << 1 == 0x2; }
    else if k == 5 { assert one << 10 == 0x400; }
    else if k == 6 { assert one << 11 == 0x800; }
    else if k == 7 { assert one << 9 == 0x200; }
    else if k == 8 { assert one << 3 == 0x8; }
    else if k == 9 { assert one << 4 == 0x10; }
    else if k == 10 { assert one << 7 == 0x80; }
    else if k == 11 { assert one << 6 == 0x40; }
    else { assert one << 5 == 0x20; }
  }

  /** The list names every type exactly once. */
  lemma ListCoversEveryType(t: NetworkType)
    ensures exists k :: 0 <= k < |NETWORK_TYPE_LIST| && NETWORK_TYPE_LIST[k].0 == t
    ensures forall j, k :: 0 <= j < k < |NETWORK_TYPE_LIST| ==> NETWORK_TYPE_LIST[j].0 != NETWORK_TYPE_LIST[k].0
  {
    var k := match t
      case Highway => 0 case LightRail => 1 case GroundHighway => 2 case Road => 3
      case Rail => 4 case OneWayRoad => 5 case DirtRoad => 6 case Monorail => 7
      case Street => 8 case WaterPipe => 9 case Subway => 10 case Avenue => 11
      case PowerPole => 12;
    assert NETWORK_TYPE_LIST[k].0 == t;
  }

  /** Whether the flags have an entry's bit (the bit test is kept behind a name: inside a quantifier it is costly). */
  predicate Matches(flags: bv32, entry: (NetworkType, bv32))
  {
    flags & entry.1 != 0
  }

  /** The type of the first entry whose bit the flags have; `None` when no entry matches. */
  function FirstSetTypeIn(flags: bv32, entries: seq<(NetworkType, bv32)>): (r: Option<NetworkType>)
    ensures r.None? <==> forall k :: 0 <= k < |entries| ==> !Matches(flags, entries[k])
    ensures r.Some? ==> exists k :: (0 <= k < |entries| && entries[k].0 == r.value
      && Matches(flags, entries[k]) && forall j :: 0 <= j < k ==> !Matches(flags, entries[j]))
  {
    if entries == [] then None
    else if Matches(flags, entries[0]) then Some(entries[0].0)
    else
      var r := FirstSetTypeIn(flags, entries[1..]);
      assert forall k :: 1 <= k < |entries| ==> entries[k] == entries[1..][k - 1];
      r
  }

  /** The type GetNetworkType reports for a network occupant's flags. */
  function FirstSetType(flags: bv32): Option<NetworkType>
  {
    FirstSetTypeIn(flags, NETWORK_TYPE_LIST)
  }

  /** The search from entry `i` on: entry `i` when its bit is set, otherwise the search from the next entry. */
  lemma FirstSetTypeStep(flags: bv32, entries: seq<(NetworkType, bv32)>, i: nat)
    requires i < |entries|
    ensures FirstSetTypeIn(flags, entries[i..])
      == if Matches(flags, entries[i]) then Some(entries[i].0) else FirstSetTypeIn(flags, entries[i + 1..])
  {
    assert entries[i..][0] == entries[i];
    assert entries[i..][1..] == entries[i + 1..];
  }

  /** The search loop of GetNetworkType: the first entry whose bit the flags have. */
  method FindFirstSetType(flags: bv32, entries: seq<(NetworkType, bv32)>) returns (found: bool, networkType: NetworkType)
    ensures found <==> FirstSetTypeIn(flags, entries).Some?
    ensures found ==> networkType == FirstSetTypeIn(flags, entries).value
  {
    found := false;
    networkType := Road;
    var i := 0;
    assert entries[0..] == entries;
    while i < |entries|
      invariant 0 <= i <= |entries|
      invariant FirstSetTypeIn(flags, entries[i..]) == FirstSetTypeIn(flags, entries)
    {
      var item := entries[i];
      FirstSetTypeStep(flags, entries, i);
      if Matches(flags, item) {
        networkType := item.0;
        found := true;
        return;
      }
      i := i + 1;
    }
    assert entries[i..] == [];
  }

  /**
   * GetNetworkType: walks the list and stops at the first entry whose bit is
   * set. A null occupant (`None`) and flags with no type bit report false
   * and leave `networkType` as it was.
   */
  method GetNetworkType(networkFlags: Option<bv32>, networkTypeIn: NetworkType) returns (result: bool, networkType: NetworkType)
    ensures result <==> networkFlags.Some? && FirstSetType(networkFlags.value).Some?
    ensures networkType == if result then FirstSetType(networkFlags.value).value else networkTypeIn
  {
    result := false;
    networkType := networkTypeIn;
    if networkFlags.Some? {
      var found, t := FindFirstSetType(networkFlags.value, NETWORK_TYPE_LIST);
      if found {
        result := true;
        networkType := t;
      }
    }
  }

  /** An entry whose bit is one of the low thirteen. */
  predicate LowBit(entry: (NetworkType, bv32))
  {
    entry.1 & 0x1FFF == entry.1
  }

  lemma ListBitsLow(k: nat)
    requires k < |NETWORK_TYPE_LIST|
    ensures LowBit(NETWORK_TYPE_LIST[k])
  {
  }

  /** Flags without any of the low thirteen bits match no entry with a low bit. */
  lemma {:induction false} NoLowBitsNoMatch(flags: bv32, entries: seq<(NetworkType, bv32)>)
    requires forall k :: 0 <= k < |entries| ==> LowBit(entries[k])
    requires flags & 0x1FFF == 0
    ensures FirstSetTypeIn(flags, entries).None?
  {
    forall k | 0 <= k < |entries|
      ensures !Matches(flags, entries[k])
    {
      var bit := entries[k].1;
      assert LowBit(entries[k]);
      assert flags & bit == (flags & 0x1FFF) & bit;
    }
  }

  /** Thirteen clear bits make the low thirteen clear. */
  lemma LowBitsClear(flags: bv32)
    requires flags & 0x1 == 0 && flags & 0x2 == 0 && flags & 0x4 == 0 && flags & 0x8 == 0
    requires flags & 0x10 == 0 && flags & 0x20 == 0 && flags & 0x40 == 0 && flags & 0x80 == 0
    requires flags & 0x100 == 0 && flags & 0x200 == 0 && flags & 0x400 == 0 && flags & 0x800 == 0
    requires flags & 0x1000 == 0
    ensures flags & 0x1FFF == 0
  {
    assert flags & 0x1FFF == (flags & 0x1) | (flags & 0x2) | (flags & 0x4) | (flags & 0x8) | (flags & 0x10)
      | (flags & 0x20) | (flags & 0x40) | (flags & 0x80) | (flags & 0x100) | (flags & 0x200)
      | (flags & 0x400) | (flags & 0x800) | (flags & 0x1000);
  }

  /** Flags that match no entry have none of the low thirteen bits. */
  lemma NoTypeNoLowBits(flags: bv32)
    requires FirstSetType(flags).None?
    ensures flags & 0x1FFF == 0
  {
    var list := NETWORK_TYPE_LIST;
    assert !Matches(flags, list[0]) && !Matches(flags, list[1]) && !Matches(flags, list[2]) && !Matches(flags, list[3]);
    assert !Matches(flags, list[4]) && !Matches(flags, list[5]) && !Matches(flags, list[6]) && !Matches(flags, list[7]);
    assert !Matches(flags, list[8]) && !Matches(flags, list[9]) && !Matches(flags, list[10]) && !Matches(flags, list[11]);
    assert !Matches(flags, list[12]);
    LowBitsClear(flags);
  }

  /** Flags without any of the low thirteen bits have no type. */
  lemma NoLowBitsNoType(flags: bv32)
    requires flags & 0x1FFF == 0
    ensures FirstSetType(flags).None?
  {
    forall k | 0 <= k < |NETWORK_TYPE_LIST|
      ensures LowBit(NETWORK_TYPE_LIST[k])
    {
      ListBitsLow(k);
    }
    NoLowBitsNoMatch(flags, NETWORK_TYPE_LIST);
  }

  /** The list's bits are the low thirteen: flags have a type exactly when one of those bits is set. */
  lemma TypeIffLowBits(flags: bv32)
    ensures FirstSetType(flags).None? <==> flags & 0x1FFF == 0
  {
    if flags & 0x1FFF == 0 {
      NoLowBitsNoType(flags);
    }
    if FirstSetType(flags).None? {
      NoTypeNoLowBits(flags);
    }
  }

  /** A piece on a highway and a road is titled a highway: the list order decides, not the type values. */
  lemma HighwayBeforeRoad()
    ensures FirstSetType(0x5) == Some(Highway)
  {
  }

  // ---------------------------------------------------------------------------
  // Names
  // ---------------------------------------------------------------------------

  /** The localized title strings' group, and each type's instance in it. */
  const NETWORK_TITLE_GROUP: uint32 := 0xEA55_24EB

  function TitleInstance(t: NetworkType): uint32
  {
    match t
    case Road => 0x6A55_89D4
    case Rail => 0x4A55_89F3
    case Highway => 0xAA55_89FB
    case Street => 0x8A55_8A04
    case WaterPipe => 0x0A55_8A0A
    case PowerPole => 0x0A5B_B9FD
    case Avenue => 0x8B8C_5CD0
    case Subway => 0x8A55_8A10
    case LightRail => 0x8B8C_5CBD
    case Monorail => 0x0BE0_9CA2
    case OneWayRoad => 0x4BD9_FDD8
    case DirtRoad => 0xCBE0_9C9B
    case GroundHighway => 0x2BE0_9C9E
  }

  /** Each type has its own title string. */
  lemma TitleInstancesDistinct(a: NetworkType, b: NetworkType)
    requires a != b
    ensures TitleInstance(a) != TitleInstance(b)
  {
  }

  /**
   * SetNetworkTitle: the title becomes the type's localized name; false,
   * with the title unchanged, when the string is missing.
   */
  method SetNetworkTitle(t: NetworkType, title: GZString, localized: (uint32, uint32) -> Option<string>) returns (result: bool)
    modifies title
    ensures result <==> localized(NETWORK_TITLE_GROUP, TitleInstance(t)).Some?
    ensures title.value == if result then localized(NETWORK_TITLE_GROUP, TitleInstance(t)).value else old(title.value)
  {
    result := SetLocalizedStringValue(localized, NETWORK_TITLE_GROUP, TitleInstance(t), title);
  }

  /** The English name the debug text uses for each type (water pipes are "Pipe"; the one-way road's spelling is the source's). */
  function EnglishName(t: NetworkType): (name: string)
    ensures name != [] && '\0' !in name && '/' !in name
  {
    match t
    case Road => "Road"
    case Rail => "Rail"
    case Highway => "Highway"
    case Street => "Street"
    case WaterPipe => "Pipe"
    case PowerPole => "PowerPole"
    case Avenue => "Avenue"
    case Subway => "Subway"
    case LightRail => "LightRail"
    case Monorail => "Monorail"
    case OneWayRoad => "OneWayRaod"
    case DirtRoad => "DirtRoad"
    case GroundHighway => "GroundHighway"
  }

  /** GetNetworkEnglishName on an enumeration value: empty exactly when the value names no type. */
  function GetNetworkEnglishName(code: int): (name: string)
    ensures name == [] <==> !(0 <= code < 13)
    ensures '\0' !in name
  {
    match OfCode(code)
    case Some(t) => EnglishName(t)
    case None => ""
  }

  /** The names of the types in `entries` whose bits the flags have, in list order. */
  function SetTypeNames(flags: bv32, entries: seq<(NetworkType, bv32)>): (names: seq<string>)
    ensures |names| <= |entries|
  {
    if entries == [] then []
    else (if Matches(flags, entries[0]) then [EnglishName(entries[0].0)] else []) + SetTypeNames(flags, entries[1..])
  }


  lemma {:induction false} SetTypeNamesAppend(flags: bv32, a: seq<(NetworkType, bv32)>, b: seq<(NetworkType, bv32)>)
    ensures SetTypeNames(flags, a + b) == SetTypeNames(flags, a) + SetTypeNames(flags, b)
  {
    if a == [] {
      assert a + b == b;
    } else {
      assert (a + b)[0] == a[0];
      assert (a + b)[1..] == a[1..] + b;
      SetTypeNamesAppend(flags, a[1..], b);
      var first := if Matches(flags, a[0]) then [EnglishName(a[0].0)] else [];
      ConcatAssoc(first, SetTypeNames(flags, a[1..]), SetTypeNames(flags, b));
    }
  }

  /** One more entry adds its name after the earlier ones when its bit is set, and nothing otherwise. */
  lemma SetTypeNamesStep(flags: bv32, entries: seq<(NetworkType, bv32)>, i: nat)
    requires i < |entries|
    ensures SetTypeNames(flags, entries[..i + 1]) == SetTypeNames(flags, entries[..i])
      + if Matches(flags, entries[i]) then [EnglishName(entries[i].0)] else []
  {
    assert entries[..i + 1] == entries[..i] + [entries[i]];
    SetTypeNamesAppend(flags, entries[..i], [entries[i]]);
    assert [entries[i]][1..] == [];
  }

  /** The first name listed is the name of the type the tooltip is titled with, and none is listed when it has no type. */
  lemma {:induction false} FirstNameIsTitleType(flags: bv32, entries: seq<(NetworkType, bv32)>)
    ensures FirstSetTypeIn(flags, entries).None? <==> SetTypeNames(flags, entries) == []
    ensures FirstSetTypeIn(flags, entries).Some? ==>
      SetTypeNames(flags, entries)[0] == EnglishName(FirstSetTypeIn(flags, entries).value)
  {
    if entries != [] {
      FirstNameIsTitleType(flags, entries[1..]);
    }
  }

  const NETWORK_TYPES_PREFIX: string := "Network Types: "

  /** GetNetworkTypesString's result: the set types' names joined by '/', as one line. */
  function NetworkTypesString(flags: bv32): string
  {
    NETWORK_TYPES_PREFIX + JoinWith(SetTypeNames(flags, NETWORK_TYPE_LIST), "/") + "\n"
  }

  /** Adding one more name to a join: the name alone after none, otherwise after a separator. */
  lemma JoinWithSnoc(names: seq<string>, name: string, separator: string)
    ensures JoinWith(names + [name], separator) == if names == [] then name else JoinWith(names, separator) + separator + name
  {
    assert (names + [name])[..|names|] == names;
  }

  /** The name loop of GetNetworkTypesString: the names of the set entries, '/' before every name but the first. */
  method JoinSetTypeNames(flags: bv32, entries: seq<(NetworkType, bv32)>, prefix: string) returns (networkTypes: string)
    ensures networkTypes == prefix + JoinWith(SetTypeNames(flags, entries), "/")
  {
    networkTypes := prefix;
    var firstItem := true;
    var i := 0;
    while i < |entries|
      invariant 0 <= i <= |entries|
      invariant firstItem <==> SetTypeNames(flags, entries[..i]) == []
      invariant networkTypes == prefix + JoinWith(SetTypeNames(flags, entries[..i]), "/")
    {
      var item := entries[i];
      JoinLoopStep(prefix, flags, entries, i, firstItem, networkTypes);
      if Matches(flags, item) {
        if !firstItem {
          networkTypes := networkTypes + "/";
        }
        networkTypes := networkTypes + EnglishName(item.0);
        firstItem := false;
      }
      i := i + 1;
    }
    assert entries[..i] == entries;
  }

  /** GetNetworkTypesString: the prefix, the set types' names joined by '/', and a line feed. */
  method GetNetworkTypesString(flags: bv32) returns (networkTypes: string)
    ensures networkTypes == NetworkTypesString(flags)
  {
    networkTypes := JoinSetTypeNames(flags, NETWORK_TYPE_LIST, NETWORK_TYPES_PREFIX);
    networkTypes := networkTypes + "\n";
  }

  /** One iteration of the name loop keeps its two invariants. */
  lemma JoinLoopStep(
    prefix: string, flags: bv32, entries: seq<(NetworkType, bv32)>, i: nat, firstItem: bool, networkTypes: string)
    requires i < |entries|
    requires firstItem <==> SetTypeNames(flags, entries[..i]) == []
    requires networkTypes == prefix + JoinWith(SetTypeNames(flags, entries[..i]), "/")
    ensures Matches(flags, entries[i]) ==>
      SetTypeNames(flags, entries[..i + 1]) != []
      && (if firstItem then networkTypes else networkTypes + "/") + EnglishName(entries[i].0)
        == prefix + JoinWith(SetTypeNames(flags, entries[..i + 1]), "/")
    ensures !Matches(flags, entries[i]) ==> SetTypeNames(flags, entries[..i + 1]) == SetTypeNames(flags, entries[..i])
  {
    var names := SetTypeNames(flags, entries[..i]);
    SetTypeNamesStep(flags, entries, i);
    if Matches(flags, entries[i]) {
      JoinStep(prefix, names, EnglishName(entries[i].0), firstItem, networkTypes);
    } else {
      assert names + [] == names;
    }
  }

  /** One iteration of the name loop that finds a name keeps the text equal to the prefix and the join. */
  lemma JoinStep(prefix: string, names: seq<string>, name: string, firstItem: bool, networkTypes: string)
    requires firstItem <==> names == []
    requires networkTypes == prefix + JoinWith(names, "/")
    ensures (if firstItem then networkTypes else networkTypes + "/") + name
      == prefix + JoinWith(names + [name], "/")
  {
    JoinWithSnoc(names, name, "/");
    if firstItem {
      assert JoinWith(names, "/") == [];
      assert networkTypes == prefix;
    } else {
      var joined := JoinWith(names, "/");
      ConcatAssoc(prefix, joined, "/");
      ConcatAssoc(prefix, joined + "/", name);
    }
  }

  /** The names of one entry followed by more entries. */
  lemma SetTypeNamesCons(flags: bv32, entry: (NetworkType, bv32), rest: seq<(NetworkType, bv32)>)
    ensures SetTypeNames(flags, [entry] + rest)
      == (if Matches(flags, entry) then [EnglishName(entry.0)] else []) + SetTypeNames(flags, rest)
  {
    assert ([entry] + rest)[1..] == rest;
  }

  /** Of the first four entries, flags 0x5 set the highway's and the road's bits. */
  lemma HighwayRoadFrontNames()
    ensures SetTypeNames(0x5, NETWORK_TYPE_LIST[..4]) == ["Highway", "Road"]
  {
    var e0, e1, e2, e3 := (Highway, 0x4 as bv32), (LightRail, 0x100 as bv32), (GroundHighway, 0x1000 as bv32), (Road, 0x1 as bv32);
    assert NETWORK_TYPE_LIST[..4] == [e0] + ([e1] + ([e2] + [e3]));
    assert Matches(0x5, e0) && !Matches(0x5, e1) && !Matches(0x5, e2) && Matches(0x5, e3);
    SetTypeNamesCons(0x5, e3, []);
    SetTypeNamesCons(0x5, e2, [e3]);
    SetTypeNamesCons(0x5, e1, [e2] + [e3]);
    SetTypeNamesCons(0x5, e0, [e1] + ([e2] + [e3]));
  }

  /** Flags 0x5 set none of the bits of the other nine entries. */
  lemma HighwayRoadTailNames()
    ensures SetTypeNames(0x5, NETWORK_TYPE_LIST[4..]) == []
  {
    var tail := NETWORK_TYPE_LIST[4..];
    forall k | 0 <= k < |tail|
      ensures !Matches(0x5, tail[k])
    {
      assert tail[k] == NETWORK_TYPE_LIST[k + 4];
    }
    FirstNameIsTitleType(0x5, tail);
  }

  /** Flags 0x5 list the highway and the road, in list order. */
  lemma HighwayRoadNames()
    ensures SetTypeNames(0x5, NETWORK_TYPE_LIST) == ["Highway", "Road"]
  {
    var list := NETWORK_TYPE_LIST;
    assert list == list[..4] + list[4..];
    SetTypeNamesAppend(0x5, list[..4], list[4..]);
    HighwayRoadFrontNames();
    HighwayRoadTailNames();
  }

  lemma HighwayRoadJoined()
    ensures JoinWith(["Highway", "Road"], "/") == "Highway/Road"
  {
    JoinWithSnoc(["Highway"], "Road", "/");
    assert ["Highway"] + ["Road"] == ["Highway", "Road"];
  }

  lemma HighwayRoadLine()
    ensures NETWORK_TYPES_PREFIX + "Highway/Road" + "\n" == "Network Types: Highway/Road\n"
  {
  }

  /** A highway that is also a road lists both, highway first. */
  lemma HighwayRoadTypesString()
    ensures NetworkTypesString(0x5) == "Network Types: Highway/Road\n"
  {
    HighwayRoadNames();
    HighwayRoadJoined();
    HighwayRoadLine();
  }

  const NETWORK_ORIENTATION_PREFIX: string := "Network Orientation: "

  /**
   * GetNetworkOrientation: the prefix followed by the rotation and flip as a
   * compass direction and a line feed; an unknown value adds nothing.
   */
  function NetworkOrientation(rotationAndFlip: uint8): (s: string)
    ensures |NETWORK_ORIENTATION_PREFIX| <= |s| && s[..|NETWORK_ORIENTATION_PREFIX|] == NETWORK_ORIENTATION_PREFIX
    ensures s == NETWORK_ORIENTATION_PREFIX <==> rotationAndFlip !in {0, 1, 2, 3, 0x80, 0x81, 0x82, 0x83}
    ensures s != NETWORK_ORIENTATION_PREFIX ==> EndsWithNewLine(s)
  {
    NETWORK_ORIENTATION_PREFIX +
      match rotationAndFlip
      case 0 => "North = 0,0\n"
      case 1 => "East = 1,0\n"
      case 2 => "South = 2,0\n"
      case 3 => "West = 3,0\n"
      case 0x80 => "North, mirrored = 0,1\n"
      case 0x81 => "East, mirrored = 1,1\n"
      case 0x82 => "South, mirrored = 2,1\n"
      case 0x83 => "West, mirrored = 3,1\n"
      case _ => ""
  }

  // ---------------------------------------------------------------------------
  // Edge connections
  // ---------------------------------------------------------------------------

  /** EdgeConnection: a network type value and the four edge codes, west, north, east and south. */
  datatype EdgeConnection = EdgeConnection(networkType: uint32, west: uint8, north: uint8, east: uint8, south: uint8)

  /**
   * cSC4EdgeConnectionStore: the first network's connection, a count of the
   * others whose upper three bytes may be garbage, and their array, which
   * the game may leave unallocated (`None`).
   */
  datatype EdgeConnectionStore = EdgeConnectionStore(
    firstNetwork: EdgeConnection, additionalNetworkCount: uint32, additionalNetworkArray: Option<seq<EdgeConnection>>)

  /** The number of additional networks the game uses: the count's low byte. */
  function AdditionalNetworkCount(store: EdgeConnectionStore): (n: nat)
    ensures n < 256
  {
    store.additionalNetworkCount % 256
  }

  /** The array, when there is one, holds at least as many entries as the count's low byte says. */
  predicate Readable(store: EdgeConnectionStore)
  {
    store.additionalNetworkArray.Some? ==> AdditionalNetworkCount(store) <= |store.additionalNetworkArray.value|
  }

  function NetworkHeading(networkNumber: int, data: EdgeConnection): string
  {
    "  Network " + SignedDecimal(networkNumber) + " (" + GetNetworkEnglishName(data.networkType % 256) + ")"
  }

  function EdgeCodes(data: EdgeConnection): string
  {
    "    WNES = " + Octal2(data.west) + "," + Octal2(data.north) + "," + Octal2(data.east) + "," + Octal2(data.south)
  }

  /** What AppendEdgeConnectionData adds: a heading line and an edge code line, each ended by one line feed. */
  function EdgeConnectionData(networkNumber: int, data: EdgeConnection): string
  {
    (NetworkHeading(networkNumber, data) + "\n") + (EdgeCodes(data) + "\n")
  }

  /** A numeral is made of digits, never NUL or a line feed. */
  lemma {:induction false} NumeralIsPlain(n: nat, base: nat)
    requires 2 <= base <= 16
    ensures '\0' !in Numeral(n, base) && '\n' !in Numeral(n, base)
    decreases n
  {
    if n < base {
      DigitIsPlain(n);
    } else {
      NumeralStep(n, base);
      NumeralIsPlain(n / base, base);
      DigitIsPlain(n % base);
      NotInConcat(Numeral(n / base, base), [DigitChar(n % base)], '\0');
      NotInConcat(Numeral(n / base, base), [DigitChar(n % base)], '\n');
    }
  }

  lemma DigitIsPlain(d: nat)
    requires d < 16
    ensures DigitChar(d) != '\0' && DigitChar(d) != '\n'
  {
  }

  lemma SignedDecimalIsPlain(i: int)
    ensures '\0' !in SignedDecimal(i) && '\n' !in SignedDecimal(i)
  {
    if i < 0 {
      NumeralIsPlain(-i, 10);
    } else {
      NumeralIsPlain(i, 10);
    }
  }

  lemma PaddedNumeralIsPlain(n: nat, base: nat, width: nat)
    requires 2 <= base <= 16
    ensures '\0' !in ZeroPadded(Numeral(n, base), width) && '\n' !in ZeroPadded(Numeral(n, base), width)
  {
    var s := Numeral(n, base);
    var r := ZeroPadded(s, width);
    ZeroPaddedSuffix(s, width);
    NumeralIsPlain(n, base);
    forall i | 0 <= i < |r|
      ensures r[i] != '\0' && r[i] != '\n'
    {
      if i >= |r| - |s| {
        assert r[i] == r[|r| - |s|..][i - (|r| - |s|)];
      } else {
        ZeroPaddedZeros(s, width, i);
      }
    }
  }




  /** The heading line reads back whole and gets one line feed. */
  lemma HeadingLineEnded(networkNumber: int, data: EdgeConnection)
    ensures FormattedLine(Some(NetworkHeading(networkNumber, data))) == NetworkHeading(networkNumber, data) + "\n"
  {
    var heading := NetworkHeading(networkNumber, data);
    SignedDecimalIsPlain(networkNumber);
    assert '\0' !in heading;
    PlainLine(heading);
    assert heading[|heading| - 1] == ')';
    LineFeedAdded(heading);
  }

  /** The edge code line reads back whole and gets one line feed. */
  lemma CodesLineEnded(data: EdgeConnection)
    ensures FormattedLine(Some(EdgeCodes(data))) == EdgeCodes(data) + "\n"
  {
    var w, n, e, s := Octal2(data.west), Octal2(data.north), Octal2(data.east), Octal2(data.south);
    PaddedNumeralIsPlain(data.west, 8, 2);
    PaddedNumeralIsPlain(data.north, 8, 2);
    PaddedNumeralIsPlain(data.east, 8, 2);
    PaddedNumeralIsPlain(data.south, 8, 2);
    CodesFrontPlain(w, n, e);
    PlainTail("    WNES = " + w + "," + n + "," + e + ",", s);
  }

  /** The edge code line up to its last code has no NUL when the codes have none. */
  lemma CodesFrontPlain(w: string, n: string, e: string)
    requires '\0' !in w && '\0' !in n && '\0' !in e
    ensures '\0' !in "    WNES = " + w + "," + n + "," + e + ","
  {
    var head := "    WNES = ";
    var comma := ",";
    assert '\0' !in head && '\0' !in comma;
    PlainConcat(head, w);
    PlainConcat(head + w, comma);
    PlainConcat(head + w + comma, n);
    PlainConcat(head + w + comma + n, comma);
    PlainConcat(head + w + comma + n + comma, e);
    PlainConcat(head + w + comma + n + comma + e, comma);
  }

  /**
   * The two formatted lines of an edge connection read back whole (neither
   * holds a NUL) and each gets exactly one line feed.
   */
  lemma EdgeConnectionLines(networkNumber: int, data: EdgeConnection)
    ensures FormattedLine(Some(NetworkHeading(networkNumber, data))) + FormattedLine(Some(EdgeCodes(data)))
      == EdgeConnectionData(networkNumber, data)
  {
    HeadingLineEnded(networkNumber, data);
    CodesLineEnded(data);
  }

  /** AppendEdgeConnectionData */
  method AppendEdgeConnectionData(networkNumber: int, data: EdgeConnection, destination: GZString)
    modifies destination
    ensures destination.value == old(destination.value) + EdgeConnectionData(networkNumber, data)
  {
    ghost var before := destination.value;
    var heading, codes := NetworkHeading(networkNumber, data), EdgeCodes(data);
    AppendLineFormatted(destination, Some(heading));
    AppendLineFormatted(destination, Some(codes));
    ConcatAssoc(before, FormattedLine(Some(heading)), FormattedLine(Some(codes)));
    EdgeConnectionLines(networkNumber, data);
  }

  /** The additional networks 2, 3, ... for the first `count` array entries. */
  function AdditionalNetworks(networks: seq<EdgeConnection>, count: nat): string
    requires count <= |networks|
  {
    if count == 0 then [] else AdditionalNetworks(networks, count - 1) + EdgeConnectionData(2 + count - 1, networks[count - 1])
  }

  const EDGE_CONNECTIONS_HEADING: string := "Edge Connections:"

  /** The edge connection list's heading and first network. */
  function EdgeConnectionsHead(s: EdgeConnectionStore): string
  {
    Terminated(EDGE_CONNECTIONS_HEADING) + EdgeConnectionData(1, s.firstNetwork)
  }

  /**
   * What AppendEdgeConnections adds: nothing without a store; otherwise the
   * heading and network 1, then one entry per additional network in the
   * array, or, with no array and exactly one additional network, a network 2
   * of the first network's type with all edge codes 0.
   */
  function EdgeConnectionsText(store: Option<EdgeConnectionStore>): string
    requires store.Some? ==> Readable(store.value)
  {
    if store.None? then []
    else
      var s := store.value;
      var count := AdditionalNetworkCount(s);
      if count > 0 && s.additionalNetworkArray.Some? then
        EdgeConnectionsHead(s) + AdditionalNetworks(s.additionalNetworkArray.value, count)
      else if count == 1 then
        EdgeConnectionsHead(s) + EdgeConnectionData(2, EdgeConnection(s.firstNetwork.networkType % 256, 0, 0, 0, 0))
      else
        EdgeConnectionsHead(s)
  }

  /** Appending network `2 + i` after networks 2 to `1 + i` gives networks 2 to `2 + i`. */
  lemma AdditionalNetworksStep(start: string, networks: seq<EdgeConnection>, i: nat, before: string, after: string)
    requires i < |networks|
    requires before == start + AdditionalNetworks(networks, i)
    requires after == before + EdgeConnectionData(2 + i, networks[i])
    ensures after == start + AdditionalNetworks(networks, i + 1)
  {
    ConcatAssoc(start, AdditionalNetworks(networks, i), EdgeConnectionData(2 + i, networks[i]));
  }

  /** The loop of AppendEdgeConnections over the array: networks 2, 3, ... in array order. */
  method AppendAdditionalNetworks(networks: seq<EdgeConnection>, count: nat, destination: GZString)
    requires count <= |networks|
    modifies destination
    ensures destination.value == old(destination.value) + AdditionalNetworks(networks, count)
  {
    ghost var start := destination.value;
    var i: nat := 0;
    while i < count
      invariant i <= count
      invariant destination.value == start + AdditionalNetworks(networks, i)
    {
      AppendAdditionalNetwork(networks, i, start, destination);
      i := i + 1;
    }
  }

  /** One turn of AppendAdditionalNetworks: the entry for array element `i`, listed as network `2 + i`. */
  method AppendAdditionalNetwork(networks: seq<EdgeConnection>, i: nat, ghost start: string, destination: GZString)
    requires i < |networks| && destination.value == start + AdditionalNetworks(networks, i)
    modifies destination
    ensures destination.value == start + AdditionalNetworks(networks, i + 1)
  {
    ghost var before := destination.value;
    AppendEdgeConnectionData(2 + i, networks[i], destination);
    AdditionalNetworksStep(start, networks, i, before, destination.value);
  }

  /** AppendEdgeConnections */
  method AppendEdgeConnections(store: Option<EdgeConnectionStore>, destination: GZString)
    requires store.Some? ==> Readable(store.value)
    modifies destination
    ensures destination.value == old(destination.value) + EdgeConnectionsText(store)
  {
    if store.Some? {
      var s := store.value;
      AppendLine(EDGE_CONNECTIONS_HEADING, destination);
      AppendEdgeConnectionData(1, s.firstNetwork, destination);
      ConcatAssoc(old(destination.value), Terminated(EDGE_CONNECTIONS_HEADING), EdgeConnectionData(1, s.firstNetwork));
      var additionalNetworkCount := s.additionalNetworkCount % 256;
      if additionalNetworkCount > 0 {
        if s.additionalNetworkArray.Some? {
          var networks := s.additionalNetworkArray.value;
          AppendAdditionalNetworks(networks, additionalNetworkCount as nat, destination);
          ConcatAssoc(old(destination.value), EdgeConnectionsHead(s), AdditionalNetworks(networks, additionalNetworkCount as nat));
        } else if additionalNetworkCount == 1 {
          var data := EdgeConnection(s.firstNetwork.networkType % 256, 0, 0, 0, 0);
          AppendEdgeConnectionData(2, data, destination);
          ConcatAssoc(old(destination.value), EdgeConnectionsHead(s), EdgeConnectionData(2, data));
        }
      }
    }
  }

  /** The heading is added with one line feed. */
  lemma HeadingLine()
    ensures Terminated(EDGE_CONNECTIONS_HEADING) == "Edge Connections:\n"
  {
  }

  /** Only the count's low byte matters: a count of 0x100 lists network 1 alone, whatever the array holds. */
  lemma CountLowByteOnly(first: EdgeConnection, networks: Option<seq<EdgeConnection>>)
    ensures EdgeConnectionsText(Some(EdgeConnectionStore(first, 0x100, networks)))
      == "Edge Connections:\n" + EdgeConnectionData(1, first)
  {
    HeadingLine();
  }

  /** With all four edge codes 0, the code line reads 00 four times. */
  lemma ZeroEdgeCodes(networkType: uint32)
    ensures EdgeCodes(EdgeConnection(networkType, 0, 0, 0, 0)) == "    WNES = 00,00,00,00"
  {
    assert Octal2(0) == "00";
  }

  /**
   * Two networks of one type with an unallocated array: the second network is
   * listed as network 2, with the first one's type and all edge codes 0.
   */
  lemma UnallocatedSecondNetwork(first: EdgeConnection, count: uint32)
    requires count % 256 == 1
    ensures var second := EdgeConnection(first.networkType % 256, 0, 0, 0, 0);
      EdgeConnectionsText(Some(EdgeConnectionStore(first, count, None)))
        == "Edge Connections:\n" + EdgeConnectionData(1, first)
          + ((NetworkHeading(2, second) + "\n") + ("    WNES = 00,00,00,00" + "\n"))
      && GetNetworkEnglishName(second.networkType) == GetNetworkEnglishName(first.networkType % 256)
  {
    var second := EdgeConnection(first.networkType % 256, 0, 0, 0, 0);
    HeadingLine();
    ZeroEdgeCodes(second.networkType);
  }

  /** Without an array, more than one additional network lists network 1 alone. */
  lemma UnallocatedManyNetworks(first: EdgeConnection, count: uint32)
    requires count % 256 > 1
    ensures EdgeConnectionsText(Some(EdgeConnectionStore(first, count, None))) == "Edge Connections:\n" + EdgeConnectionData(1, first)
  {
    HeadingLine();
  }

  // ---------------------------------------------------------------------------
  // The handler
  // ---------------------------------------------------------------------------

  /** What the handler reads from a network occupant; the cell is the pair GetOccupiedCell writes. */
  datatype NetworkOccupant = NetworkOccupant(
    networkFlags: bv32, pieceId: uint32, underTextureID: uint32, variation: int32,
    rotationAndFlip: uint8, cellX: uint32, cellZ: uint32, edgeStore: Option<EdgeConnectionStore>)

  /** A queried occupant: a network piece, or anything that does not answer the network occupant interface. */
  datatype QueriedOccupant = NetworkPiece(network: NetworkOccupant) | OtherOccupant

  predicate EdgeStoreReadable(occupant: Option<QueriedOccupant>)
  {
    (occupant.Some? && occupant.value.NetworkPiece? && occupant.value.network.edgeStore.Some?) ==>
      Readable(occupant.value.network.edgeStore.value)
  }

  /** The type a debug tooltip is titled with: `None` for a null or non-network occupant and for flags with no type. */
  function TitleType(occupant: Option<QueriedOccupant>): Option<NetworkType>
  {
    if occupant.Some? && occupant.value.NetworkPiece? then FirstSetType(occupant.value.network.networkFlags) else None
  }

  datatype PlumbingSimulator = PlumbingSimulator(numPipes: uint32, numDistressedPipes: uint32)

  /** The water pipe text, which replaces the whole tooltip text; `%d` prints the counts as signed. */
  function DistressedPipesText(sim: PlumbingSimulator): string
  {
    "Distressed Pipes: " + SignedDecimal(AsInt32(sim.numDistressedPipes)) + " / " + SignedDecimal(AsInt32(sim.numPipes)) + "\n"
  }

  /** The formatted lines of a debug query, before AppendLineFormatted ends them. */
  function PieceIdLine(pieceId: uint32): string
  {
    "Network Piece ID: 0x" + Hex8(pieceId) + "\n"
  }

  function BaseTextureLine(underTextureID: uint32): string
  {
    "Network Piece Base Texture: 0x" + Hex8(underTextureID) + "\n"
  }

  function WealthLine(variation: int32): string
  {
    "Network Piece Wealth: " + SignedDecimal(variation) + "\n"
  }

  /** The cell line's format has no line feed of its own; `%d` prints the coordinates as signed. */
  function CellText(cellX: uint32, cellZ: uint32): string
  {
    "Cell: x = " + SignedDecimal(AsInt32(cellX)) + ", z = " + SignedDecimal(AsInt32(cellZ))
  }

  /** The lines a debug query appends for any network other than pipes and power poles, as AppendLine and AppendLineFormatted add them. */
  function NetworkDetailsText(n: NetworkOccupant): string
    requires n.edgeStore.Some? ==> Readable(n.edgeStore.value)
  {
    Terminated(NetworkTypesString(n.networkFlags))
    + FormattedLine(Some(PieceIdLine(n.pieceId)))
    + FormattedLine(Some(BaseTextureLine(n.underTextureID)))
    + FormattedLine(Some(WealthLine(n.variation)))
    + Terminated(NetworkOrientation(n.rotationAndFlip))
    + FormattedLine(Some(CellText(n.cellX, n.cellZ)))
    + EdgeConnectionsText(n.edgeStore)
  }


  /** A formatted line that already ends in a line feed is added as it is. */
  lemma FormattedLineKept(s: string)
    requires s != [] && '\0' !in s && s[|s| - 1] == '\n'
    ensures FormattedLine(Some(s)) == s
  {
    PlainLine(s);
    EndsWithLineFeed(s);
  }

  /** A hexadecimal value line reads back whole and keeps its single line feed. */
  lemma HexLineKept(caption: string, value: uint32)
    requires '\0' !in caption
    ensures FormattedLine(Some(caption + Hex8(value) + "\n")) == caption + Hex8(value) + "\n"
  {
    PaddedNumeralIsPlain(value, 16, 8);
    FormattedLineKept(caption + Hex8(value) + "\n");
  }

  lemma PieceIdLineKept(pieceId: uint32)
    ensures FormattedLine(Some(PieceIdLine(pieceId))) == PieceIdLine(pieceId)
  {
    HexLineKept("Network Piece ID: 0x", pieceId);
  }

  lemma BaseTextureLineKept(underTextureID: uint32)
    ensures FormattedLine(Some(BaseTextureLine(underTextureID))) == BaseTextureLine(underTextureID)
  {
    HexLineKept("Network Piece Base Texture: 0x", underTextureID);
  }

  lemma WealthLineKept(variation: int32)
    ensures FormattedLine(Some(WealthLine(variation))) == WealthLine(variation)
  {
    SignedDecimalIsPlain(variation);
    FormattedLineKept(WealthLine(variation));
  }

  /** The cell line gets the line feed its format lacks. */
  lemma CellLineEnded(cellX: uint32, cellZ: uint32)
    ensures FormattedLine(Some(CellText(cellX, cellZ))) == CellText(cellX, cellZ) + "\n"
  {
    var cell := CellText(cellX, cellZ);
    var z := SignedDecimal(AsInt32(cellZ));
    SignedDecimalIsPlain(AsInt32(cellX));
    SignedDecimalIsPlain(AsInt32(cellZ));
    assert '\0' !in cell;
    PlainLine(cell);
    assert cell[|cell| - 1] == z[|z| - 1];
    LineFeedAdded(cell);
  }

  /** A known orientation is added as it is; an unknown one leaves the prefix alone on its line. */
  lemma OrientationLine(rotationAndFlip: uint8)
    ensures Terminated(NetworkOrientation(rotationAndFlip))
      == if rotationAndFlip in {0, 1, 2, 3, 0x80, 0x81, 0x82, 0x83} then NetworkOrientation(rotationAndFlip)
         else NETWORK_ORIENTATION_PREFIX + "\n"
  {
    var orientation := NetworkOrientation(rotationAndFlip);
    if orientation == NETWORK_ORIENTATION_PREFIX {
      LineFeedAdded(orientation);
    }
  }

  /**
   * The details read as plain lines: every formatted value appears whole,
   * and each line ends in exactly one line feed, including the format
   * strings that already end in one.
   */
  lemma NetworkDetailsLines(n: NetworkOccupant)
    requires n.edgeStore.Some? ==> Readable(n.edgeStore.value)
    ensures NetworkDetailsText(n) ==
      NetworkTypesString(n.networkFlags)
      + PieceIdLine(n.pieceId)
      + BaseTextureLine(n.underTextureID)
      + WealthLine(n.variation)
      + (if n.rotationAndFlip in {0, 1, 2, 3, 0x80, 0x81, 0x82, 0x83} then NetworkOrientation(n.rotationAndFlip)
         else NETWORK_ORIENTATION_PREFIX + "\n")
      + (CellText(n.cellX, n.cellZ) + "\n")
      + EdgeConnectionsText(n.edgeStore)
  {
    EndsWithLineFeed(NetworkTypesString(n.networkFlags));
    PieceIdLineKept(n.pieceId);
    BaseTextureLineKept(n.underTextureID);
    WealthLineKept(n.variation);
    OrientationLine(n.rotationAndFlip);
    CellLineEnded(n.cellX, n.cellZ);
  }

  /**
   * The tooltip text after a handled debug query of a network of type `t`:
   * pipes show the plumbing counts when the simulator exists, power poles
   * keep the text, every other network appends its details.
   */
  function DebugQueryText(n: NetworkOccupant, t: NetworkType, plumbing: Option<PlumbingSimulator>, text: string): string
    requires n.edgeStore.Some? ==> Readable(n.edgeStore.value)
  {
    if t == WaterPipe then
      if plumbing.Some? then DistressedPipesText(plumbing.value) else text
    else if t == PowerPole then text
    else text + NetworkDetailsText(n)
  }

  /** Only the pipe text discards what the tooltip said before; every other case keeps it as a prefix. */
  lemma DebugTextKeepsPrefix(n: NetworkOccupant, t: NetworkType, plumbing: Option<PlumbingSimulator>, text: string)
    requires n.edgeStore.Some? ==> Readable(n.edgeStore.value)
    requires !(t == WaterPipe && plumbing.Some?)
    ensures |text| <= |DebugQueryText(n, t, plumbing, text)|
    ensures DebugQueryText(n, t, plumbing, text)[..|text|] == text
  {
  }

  /** The network details part of SetDebugQueryText: seven appends, in the order of NetworkDetailsText. */
  method AppendNetworkDetails(n: NetworkOccupant, text: GZString)
    requires n.edgeStore.Some? ==> Readable(n.edgeStore.value)
    modifies text
    ensures text.value == old(text.value) + NetworkDetailsText(n)
  {
    ghost var before := text.value;
    var networkTypes := GetNetworkTypesString(n.networkFlags);
    AppendLine(networkTypes, text);
    ghost var added := Terminated(networkTypes);
    AppendLineFormatted(text, Some(PieceIdLine(n.pieceId)));
    ConcatAssoc(before, added, FormattedLine(Some(PieceIdLine(n.pieceId))));
    added := added + FormattedLine(Some(PieceIdLine(n.pieceId)));
    AppendLineFormatted(text, Some(BaseTextureLine(n.underTextureID)));
    ConcatAssoc(before, added, FormattedLine(Some(BaseTextureLine(n.underTextureID))));
    added := added + FormattedLine(Some(BaseTextureLine(n.underTextureID)));
    AppendLineFormatted(text, Some(WealthLine(n.variation)));
    ConcatAssoc(before, added, FormattedLine(Some(WealthLine(n.variation))));
    added := added + FormattedLine(Some(WealthLine(n.variation)));
    AppendLine(NetworkOrientation(n.rotationAndFlip), text);
    ConcatAssoc(before, added, Terminated(NetworkOrientation(n.rotationAndFlip)));
    added := added + Terminated(NetworkOrientation(n.rotationAndFlip));
    AppendLineFormatted(text, Some(CellText(n.cellX, n.cellZ)));
    ConcatAssoc(before, added, FormattedLine(Some(CellText(n.cellX, n.cellZ))));
    added := added + FormattedLine(Some(CellText(n.cellX, n.cellZ)));
    AppendEdgeConnections(n.edgeStore, text);
    ConcatAssoc(before, added, EdgeConnectionsText(n.edgeStore));
    added := added + EdgeConnectionsText(n.edgeStore);
    assert added == NetworkDetailsText(n);
  }

  class NetworkQueryToolTipHandler {
    const self: Pointer
    const base: UnknownBase
    var pPlumbingSim: Option<PlumbingSimulator>

    constructor (self: Pointer)
      ensures this.self == self && fresh(base) && base.refCount == 0
      ensures pPlumbingSim.None?
    {
      this.self := self;
      base := new UnknownBase();
      pPlumbingSim := None;
    }

    /** QueryInterface: the network custom tooltip target interface is answered here; anything else by the base. */
    method QueryInterface(riid: InterfaceId, ppvObj: object?) returns (ok: bool, out: object?)
      modifies base`refCount
      ensures ok <==> riid == NetworkQueryCustomToolTipHookTargetIID || riid == GZUnknown
      ensures riid == NetworkQueryCustomToolTipHookTargetIID ==> out == this
      ensures riid == GZUnknown ==> out == base
      ensures ok ==> base.refCount == Incremented(old(base.refCount))
      ensures !ok ==> out == ppvObj && base.refCount == old(base.refCount)
    {
      if riid == NetworkQueryCustomToolTipHookTargetIID {
        out := this;
        var _ := base.AddRef();
        return true, out;
      }
      ok, out := base.QueryInterface(riid, ppvObj);
    }

    method AddRef() returns (count: uint32)
      modifies base`refCount
      ensures base.refCount == Incremented(old(base.refCount)) && count == base.refCount
    {
      count := base.AddRef();
    }

    method Release() returns (count: uint32)
      modifies base`refCount
      ensures base.refCount == Decremented(old(base.refCount)) && count == base.refCount
    {
      count := base.Release();
    }

    /**
     * PostCityInit: keeps the city's plumbing simulator, then subscribes to
     * the network server's custom tooltips when its class object is
     * available (`hookServer`).
     */
    method PostCityInit(plumbing: Option<PlumbingSimulator>, hookServer: QueryToolTipHookServer?)
      requires hookServer != null ==> hookServer.kind == Network
      requires hookServer != null ==> hookServer.Valid()
      modifies this`pPlumbingSim, hookServer
      ensures hookServer != null ==> hookServer.Valid()
      ensures pPlumbingSim == plumbing
      ensures hookServer != null ==>
        hookServer.customToolTipHookSubscribers == Added(old(hookServer.customToolTipHookSubscribers), self)
        && hookServer.appendToolTipHookSubscribers == old(hookServer.appendToolTipHookSubscribers)
        && hookServer.refCount == old(hookServer.refCount)
    {
      pPlumbingSim := plumbing;
      if hookServer != null {
        var _ := hookServer.AddCustomToolTipNotification(self);
      }
    }

    /** PreCityShutdown: drops the plumbing simulator, then unsubscribes. */
    method PreCityShutdown(hookServer: QueryToolTipHookServer?)
      requires hookServer != null ==> hookServer.kind == Network
      requires hookServer != null ==> hookServer.Valid()
      modifies this`pPlumbingSim, hookServer
      ensures hookServer != null ==> hookServer.Valid()
      ensures pPlumbingSim.None?
      ensures hookServer != null ==>
        hookServer.customToolTipHookSubscribers == Removed(old(hookServer.customToolTipHookSubscribers), self)
        && hookServer.appendToolTipHookSubscribers == old(hookServer.appendToolTipHookSubscribers)
        && hookServer.refCount == old(hookServer.refCount)
    {
      pPlumbingSim := None;
      if hookServer != null {
        var _ := hookServer.RemoveCustomToolTipNotification(self);
      }
    }

    /** SetDebugQueryText */
    method SetDebugQueryText(n: NetworkOccupant, t: NetworkType, text: GZString)
      requires n.edgeStore.Some? ==> Readable(n.edgeStore.value)
      modifies text
      ensures text.value == DebugQueryText(n, t, pPlumbingSim, old(text.value))
    {
      if t == WaterPipe {
        if pPlumbingSim.Some? {
          text.Copy(DistressedPipesText(pPlumbingSim.value));
        }
      } else if t != PowerPole {
        AppendNetworkDetails(n, text);
      }
    }

    /**
     * ProcessToolTip: handles only a debug query of a network piece with a
     * type whose localized title exists; then the title is that name and the
     * text the type's debug text. Otherwise it returns false and changes
     * nothing.
     */
    method ProcessToolTip(
      occupant: Option<QueriedOccupant>, debugQuery: bool, title: GZString, text: GZString,
      localized: (uint32, uint32) -> Option<string>)
      returns (result: bool)
      requires EdgeStoreReadable(occupant)
      requires title != text
      modifies title, text
      ensures var t := TitleType(occupant);
        result <==> debugQuery && t.Some? && localized(NETWORK_TITLE_GROUP, TitleInstance(t.value)).Some?
      ensures result ==>
        title.value == localized(NETWORK_TITLE_GROUP, TitleInstance(TitleType(occupant).value)).value
        && text.value == DebugQueryText(occupant.value.network, TitleType(occupant).value, pPlumbingSim, old(text.value))
      ensures !result ==> title.value == old(title.value) && text.value == old(text.value)
    {
      result := false;
      if debugQuery && occupant.Some? {
        if occupant.value.NetworkPiece? {
          var n := occupant.value.network;
          var found, networkType := GetNetworkType(Some(n.networkFlags), Road);
          if found {
            result := SetNetworkTitle(networkType, title, localized);
            if result {
              SetDebugQueryText(n, networkType, text);
            }
          }
        }
      }
    }
  }
}
