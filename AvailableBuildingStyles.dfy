/**
 * AvailableBuildingStyles: the building styles the game's style dialog
 * offers, read once from the captions of the dialog's radio buttons and
 * keyed by each button's window ID (which is also the style's ID).
 */
module AvailableBuildingStyles {
  import opened Types
  import opened Wrappers
  import opened GZStringUtil

  /** The dialog's title bar and minimize buttons: the only buttons that are not styles. */
  const TITLE_BAR_BUTTON: uint32 := 0x2BC6_19F3
  const MINIMIZE_BUTTON: uint32 := 0xEBC6_19FD

  /**
   * One child window of the style list container, as the enumeration hands
   * it over: its ID and, when it answers the button interface, the button's
   * caption (`None` when the interface query fails).
   */
  datatype ChildWindow = ChildWindow(childID: uint32, buttonCaption: Option<string>)

  /** A child that the enumeration callback records as a style. */
  predicate IsStyleButton(child: ChildWindow)
  {
    child.childID != TITLE_BAR_BUTTON && child.childID != MINIMIZE_BUTTON && child.buttonCaption.Some?
  }

  /**
   * The callback's effect on the style map: a style button's caption, read
   * as a C string, is inserted under its ID unless that ID is already
   * present (`try_emplace` keeps the first entry).
   */
  function Recorded(styles: map<uint32, string>, child: ChildWindow): map<uint32, string>
  {
    if IsStyleButton(child) && child.childID !in styles then
      styles[child.childID := CString(child.buttonCaption.value)]
    else
      styles
  }

  /** The style map after the callback has seen `children` in order, starting from an empty map. */
  function StylesFrom(children: seq<ChildWindow>): map<uint32, string>
  {
    if children == [] then map[] else Recorded(StylesFrom(children[..|children| - 1]), children[|children| - 1])
  }

  /** Recording never removes or changes an entry already present. */
  lemma RecordedKeeps(styles: map<uint32, string>, child: ChildWindow)
    ensures forall id :: id in styles ==> id in Recorded(styles, child) && Recorded(styles, child)[id] == styles[id]
  {
  }

  /** A style ID is in the map exactly when some child with that ID is a style button. */
  lemma {:induction false} StyleKeys(children: seq<ChildWindow>, id: uint32)
    ensures id in StylesFrom(children) <==>
      exists j :: 0 <= j < |children| && IsStyleButton(children[j]) && children[j].childID == id
  {
    if children != [] {
      var n := |children| - 1;
      StyleKeys(children[..n], id);
      assert forall j :: 0 <= j < n ==> children[..n][j] == children[j];
    }
  }

  /** Neither window-frame button ever becomes a style. */
  lemma FrameButtonsExcluded(children: seq<ChildWindow>)
    ensures TITLE_BAR_BUTTON !in StylesFrom(children)
    ensures MINIMIZE_BUTTON !in StylesFrom(children)
  {
    StyleKeys(children, TITLE_BAR_BUTTON);
    StyleKeys(children, MINIMIZE_BUTTON);
  }

  /**
   * When several style buttons share an ID, the first one's caption is kept
   * (the C string of its caption).
   */
  lemma {:induction false} FirstCaptionKept(children: seq<ChildWindow>, i: nat)
    requires i < |children| && IsStyleButton(children[i])
    requires forall j :: 0 <= j < i ==> !(IsStyleButton(children[j]) && children[j].childID == children[i].childID)
    ensures children[i].childID in StylesFrom(children)
    ensures StylesFrom(children)[children[i].childID] == CString(children[i].buttonCaption.value)
  {
    var n := |children| - 1;
    var id := children[i].childID;
    if i == n {
      StyleKeys(children[..n], id);
      assert forall j :: 0 <= j < n ==> children[..n][j] == children[j];
    } else {
      assert children[..n][i] == children[i];
      FirstCaptionKept(children[..n], i);
      RecordedKeeps(StylesFrom(children[..n]), children[n]);
    }
  }

  class AvailableBuildingStyles {
    /** Style ID to style name. */
    var availableStyles: map<uint32, string>

    /**
     * Builds the map by walking the style list container's children.
     * `styleList` is `None` when the application, its main window, the
     * SC4 application window or the style list container is missing, in
     * which case the map stays empty.
     */
    constructor (styleList: Option<seq<ChildWindow>>)
      ensures availableStyles == if styleList.Some? then StylesFrom(styleList.value) else map[]
    {
      availableStyles := map[];
      new;
      if styleList.Some? {
        var children := styleList.value;
        var i := 0;
        while i < |children|
          invariant 0 <= i <= |children|
          invariant availableStyles == StylesFrom(children[..i])
        {
          var _ := BuildingStyleWinEnumProc(children[i]);
          assert children[..i + 1][..i] == children[..i];
          i := i + 1;
        }
        assert children[..|children|] == children;
      }
    }

    /**
     * The enumeration callback: records a style button's caption under its
     * ID unless the ID is already known, and always asks for the next child.
     */
    method BuildingStyleWinEnumProc(child: ChildWindow) returns (continueEnumeration: bool)
      modifies this
      ensures continueEnumeration
      ensures availableStyles == Recorded(old(availableStyles), child)
    {
      if child.childID != TITLE_BAR_BUTTON && child.childID != MINIMIZE_BUTTON {
        if child.buttonCaption.Some? {
          if child.childID !in availableStyles {
            availableStyles := availableStyles[child.childID := CString(child.buttonCaption.value)];
          }
        }
      }
      continueEnumeration := true;
    }

    /**
     * Appends the name of `style` to `destination`; reports whether the
     * style is known, and leaves `destination` unchanged when it is not.
     */
    method AppendStyleName(style: uint32, destination: GZString) returns (result: bool)
      modifies destination
      ensures result <==> style in availableStyles
      ensures destination.value == old(destination.value) + (if result then availableStyles[style] else "")
    {
      result := false;
      if style in availableStyles {
        var name := availableStyles[style];
        destination.Append(name);
        result := true;
      }
    }
  }
}
