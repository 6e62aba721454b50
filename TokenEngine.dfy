/**
 * The pieces of the building-query token substitution that the current data
 * provider and the older DLL director share: what a token callback writes,
 * number formatting, the occupant's lot, the full-funding budget item search
 * and the fallback list of the four Maxis building styles.
 *
 * The dispatcher always clears the output string before it runs a callback,
 * so a callback is modelled by what it returns and what it leaves in an
 * initially empty string.
 */
module TokenEngine {
  import opened Types
  import opened Wrappers
  import opened HostData

  /** A token callback's return value and the text it left in the (initially empty) output string. */
  datatype Written = Written(result: bool, text: string)

  /** What the dispatcher hands back for a handled token: the text, or nothing if the callback failed. */
  function Replacement(w: Written): (r: string)
    ensures w.result ==> r == w.text
    ensures !w.result ==> r == []
  {
    if w.result then w.text else []
  }

  datatype NumberType = Number | Money

  /**
   * MakeNumberStringForCurrentLanguage into an empty string: the language
   * utility's number or money text (the money form with the section-sign
   * currency symbol), or failure with nothing written.
   */
  function MakeNumberString(framework: Framework, number: int, numberType: NumberType): (w: Written)
    ensures var formatted := if numberType == Number then framework.makeNumber(number) else framework.makeMoney(number);
      (w.result <==> formatted.Some?) && w.text == if formatted.Some? then formatted.value else []
  {
    var formatted := if numberType == Number then framework.makeNumber(number) else framework.makeMoney(number);
    if formatted.Some? then Written(true, formatted.value) else Written(false, [])
  }

  /** GetOccupantLot: the lot manager's lot for the occupant; null without a city, an occupant or a lot manager. */
  function GetOccupantLot(context: UnknownTokenContext): (lot: Option<Lot>)
    ensures lot.Some? <==>
      context.city.Some? && context.occupant.Some? && context.city.value.hasLotManager && context.occupant.value.lot.Some?
    ensures lot.Some? ==> lot == context.occupant.value.lot
  {
    if context.city.Some? && context.occupant.Some? && context.city.value.hasLotManager then context.occupant.value.lot
    else None
  }

  /**
   * CopySC4StringValue: copies a non-null string; as written it returns true
   * even when the string is null, leaving the destination as it was.
   */
  function CopySC4StringValue(value: Option<string>, destination: string): (w: Written)
    ensures w.result
    ensures value.Some? ==> w.text == value.value
    ensures value.None? ==> w.text == destination
  {
    Written(true, if value.Some? then value.value else destination)
  }

  // ---------------------------------------------------------------------------
  // Full funding: the first budget item of a funded purpose with a non-zero cost
  // ---------------------------------------------------------------------------

  datatype FundingType = CapacityFunding | CoverageFunding

  /** Education staff, fire protection, health staff, police protection and power production. */
  const CAPACITY_PURPOSES: set<uint32> := {0xEA56_54B6, 0xEA56_7BC3, 0xCA56_5486, 0x0A56_7BAA, 0xCA58_E540}

  /** Education coverage and health coverage. */
  const COVERAGE_PURPOSES: set<uint32> := {0x4A56_54BA, 0xEA56_549E}

  predicate IsFundedPurpose(purpose: uint32, funding: FundingType)
  {
    if funding == CapacityFunding then purpose in CAPACITY_PURPOSES else purpose in COVERAGE_PURPOSES
  }

  /** The item a full-funding search stops at: a funded purpose with a non-zero cost. */
  predicate StopsSearch(item: BudgetItem, funding: FundingType)
  {
    IsFundedPurpose(item.purpose, funding) && item.cost != 0
  }

  /** The cost the full-funding search finds in `items`, 0 if none. */
  function FundedCost(items: seq<BudgetItem>, funding: FundingType): int
  {
    if items == [] then 0
    else if StopsSearch(items[0], funding) then items[0].cost
    else FundedCost(items[1..], funding)
  }

  /**
   * The cost found is non-zero exactly when some item stops the search, and
   * then it is the cost of the first such item.
   */
  lemma {:induction false} FundedCostIsFirstStop(items: seq<BudgetItem>, funding: FundingType)
    ensures FundedCost(items, funding) != 0 <==> exists k :: 0 <= k < |items| && StopsSearch(items[k], funding)
    ensures FundedCost(items, funding) != 0 ==>
      exists k :: 0 <= k < |items| && StopsSearch(items[k], funding) && FundedCost(items, funding) == items[k].cost
        && forall j :: 0 <= j < k ==> !StopsSearch(items[j], funding)
  {
    if items != [] && !StopsSearch(items[0], funding) {
      FundedCostIsFirstStop(items[1..], funding);
      if exists k :: 0 <= k < |items| && StopsSearch(items[k], funding) {
        var k :| 0 <= k < |items| && StopsSearch(items[k], funding);
        assert k > 0 && items[1..][k - 1] == items[k];
      }
      if FundedCost(items, funding) != 0 {
        var k :| 0 <= k < |items[1..]| && StopsSearch(items[1..][k], funding) && FundedCost(items[1..], funding) == items[1..][k].cost
          && forall j :: 0 <= j < k ==> !StopsSearch(items[1..][j], funding);
        assert forall j :: 1 <= j < k + 1 ==> items[j] == items[1..][j - 1];
        assert StopsSearch(items[k + 1], funding) && FundedCost(items, funding) == items[k + 1].cost;
      }
    }
  }

  /**
   * The search loop of GetBuildingFullFundingToken: walks the items while
   * nothing has been found, taking the cost of each item of a funded purpose.
   */
  method FindFullFundingCost(budgetItems: seq<BudgetItem>, funding: FundingType) returns (value: int)
    ensures value == FundedCost(budgetItems, funding)
  {
    value := 0;
    var count := |budgetItems|;
    var i := 0;
    while i < count && value == 0
      invariant 0 <= i <= count
      invariant value == 0 ==> FundedCost(budgetItems, funding) == FundedCost(budgetItems[i..], funding)
      invariant value != 0 ==> FundedCost(budgetItems, funding) == value
    {
      var item := budgetItems[i];
      assert budgetItems[i..][1..] == budgetItems[i + 1..];
      if IsFundedPurpose(item.purpose, funding) {
        value := item.cost;
      }
      i := i + 1;
    }
    if value == 0 {
      assert budgetItems[i..] == [];
    }
  }

  // ---------------------------------------------------------------------------
  // The four Maxis building styles, joined by a separator
  // ---------------------------------------------------------------------------

  /** The built-in style occupant groups and their names, in table order. */
  const MAXIS_BUILDING_STYLES: seq<(uint32, string)> :=
    [(0x2000, "Chicago 1890"), (0x2001, "New York 1940"), (0x2002, "Houston 1990"), (0x2003, "Euro-Contemporary")]

  /** The names of the styles in `styles` whose group the occupant belongs to, in order. */
  function MatchedStyleNames(styles: seq<(uint32, string)>, groups: set<uint32>): (names: seq<string>)
    ensures |names| <= |styles|
    ensures forall n :: n in names ==> exists k :: 0 <= k < |styles| && styles[k].0 in groups && styles[k].1 == n
  {
    if styles == [] then []
    else
      var last := styles[|styles| - 1];
      var front := MatchedStyleNames(styles[..|styles| - 1], groups);
      if last.0 in groups then front + [last.1] else front
  }

  /** The names separated by `separator`, with no separator before the first or after the last. */
  function JoinWith(names: seq<string>, separator: string): string
  {
    if names == [] then []
    else if |names| == 1 then names[0]
    else JoinWith(names[..|names| - 1], separator) + separator + names[|names| - 1]
  }

  /** Each name followed by the separator, as the style loop appends them. */
  function EachFollowedBy(names: seq<string>, separator: string): string
  {
    if names == [] then [] else EachFollowedBy(names[..|names| - 1], separator) + names[|names| - 1] + separator
  }

  /** Appending a separator after every name is the joined list plus one trailing separator. */
  lemma {:induction false} EachFollowedByIsJoinPlusSeparator(names: seq<string>, separator: string)
    requires names != []
    ensures EachFollowedBy(names, separator) == JoinWith(names, separator) + separator
  {
    if |names| > 1 {
      var front := names[..|names| - 1];
      EachFollowedByIsJoinPlusSeparator(front, separator);
      assert front[..|front| - 1] == names[..|names| - 2];
    } else {
      assert names[..0] == [];
    }
  }

  /** Every Maxis style name is non-empty, so nothing matched is the same as nothing written. */
  lemma MaxisNamesNonEmpty(styles: seq<(uint32, string)>, groups: set<uint32>, separator: string)
    requires forall k :: 0 <= k < |styles| ==> styles[k].1 != []
    ensures EachFollowedBy(MatchedStyleNames(styles, groups), separator) == [] <==> MatchedStyleNames(styles, groups) == []
  {
    var names := MatchedStyleNames(styles, groups);
    if names != [] {
      assert names[|names| - 1] in names;
    }
  }

  /**
   * The fallback loop of GetBuildingStylesToken: appends each matched name
   * and the separator, then, if anything was written, cuts the trailing
   * separator off. Returns whether anything was written, and the text.
   */
  method AppendMaxisStyleNames(groups: set<uint32>, separator: string) returns (wroteAny: bool, text: string)
    ensures wroteAny <==> MatchedStyleNames(MAXIS_BUILDING_STYLES, groups) != []
    ensures text == JoinWith(MatchedStyleNames(MAXIS_BUILDING_STYLES, groups), separator)
  {
    text := [];
    var i := 0;
    while i < |MAXIS_BUILDING_STYLES|
      invariant 0 <= i <= |MAXIS_BUILDING_STYLES|
      invariant text == EachFollowedBy(MatchedStyleNames(MAXIS_BUILDING_STYLES[..i], groups), separator)
    {
      var item := MAXIS_BUILDING_STYLES[i];
      assert MAXIS_BUILDING_STYLES[..i + 1][..i] == MAXIS_BUILDING_STYLES[..i];
      if item.0 in groups {
        text := text + item.1 + separator;
      }
      i := i + 1;
    }
    assert MAXIS_BUILDING_STYLES[..i] == MAXIS_BUILDING_STYLES;
    var names := MatchedStyleNames(MAXIS_BUILDING_STYLES, groups);
    MaxisNamesNonEmpty(MAXIS_BUILDING_STYLES, groups, separator);
    wroteAny := false;
    if |text| > 0 {
      EachFollowedByIsJoinPlusSeparator(names, separator);
      text := text[..|text| - |separator|];
      wroteAny := true;
    }
  }

  /** Matching one more style extends the matched names by its name, and only when its group matches. */
  lemma MatchedSnoc(styles: seq<(uint32, string)>, item: (uint32, string), groups: set<uint32>)
    ensures MatchedStyleNames(styles + [item], groups)
      == if item.0 in groups then MatchedStyleNames(styles, groups) + [item.1] else MatchedStyleNames(styles, groups)
  {
    assert (styles + [item])[..|styles|] == styles;
  }

  /** The first and third Maxis styles match groups 0x2000 and 0x2002, in list order. */
  lemma MaxisMatchedExample()
    ensures MatchedStyleNames(MAXIS_BUILDING_STYLES, {0x2000, 0x2002}) == ["Chicago 1890", "Houston 1990"]
  {
    var groups: set<uint32> := {0x2000, 0x2002};
    var a, b, c, d := MAXIS_BUILDING_STYLES[0], MAXIS_BUILDING_STYLES[1], MAXIS_BUILDING_STYLES[2], MAXIS_BUILDING_STYLES[3];
    var none: seq<(uint32, string)> := [];
    assert none + [a] == [a] && [a] + [b] == [a, b] && [a, b] + [c] == [a, b, c] && [a, b, c] + [d] == MAXIS_BUILDING_STYLES;
    MatchedSnoc(none, a, groups);
    MatchedSnoc([a], b, groups);
    MatchedSnoc([a, b], c, groups);
    MatchedSnoc([a, b, c], d, groups);
  }

  /** The fallback joins the matched names; for example the first and third styles give "Chicago 1890 | Houston 1990". */
  lemma StyleListExample()
    ensures JoinWith(MatchedStyleNames(MAXIS_BUILDING_STYLES, {0x2000, 0x2002}), " | ") == "Chicago 1890 | Houston 1990"
  {
    MaxisMatchedExample();
    var names := ["Chicago 1890", "Houston 1990"];
    assert names[..1] == ["Chicago 1890"];
  }
}
