/**
 * OccupantUtil: an occupant's display name and exemplar name, read from its
 * property holder into a caller's string. A null occupant (`None`) has
 * neither; when nothing is found the string is left as it was.
 */
module OccupantUtil {
  import opened Types
  import opened Wrappers
  import opened GZStringUtil
  import opened HostData
  import opened PropertyUtil

  /**
   * GetDisplayName into the title: the display name of the occupant's
   * properties replaces the title when there is one; otherwise the title is
   * left as it was.
   */
  method SetDisplayName(localized: (uint32, uint32) -> Option<string>, holder: Option<PropertyHolder>, title: GZString)
    returns (found: bool)
    modifies title
    ensures found <==> GetDisplayName(localized, holder).Some?
    ensures title.value == if found then GetDisplayName(localized, holder).value else old(title.value)
  {
    found := false;
    var name := GetDisplayName(localized, holder);
    if name.Some? {
      title.Copy(name.value);
      found := true;
    }
  }

  /** GetExemplarName into a string: the exemplar name replaces it when there is one. */
  method SetExemplarName(holder: Option<PropertyHolder>, name: GZString) returns (found: bool)
    modifies name
    ensures found <==> GetExemplarName(holder).Some?
    ensures name.value == if found then GetExemplarName(holder).value else old(name.value)
  {
    found := false;
    var exemplarName := GetExemplarName(holder);
    if exemplarName.Some? {
      name.Copy(exemplarName.value);
      found := true;
    }
  }

  /**
   * The line the flora and prop debug tooltips add for an occupant: its
   * exemplar name, read into a fresh empty string and appended with
   * AppendLine, so a missing name still adds an empty line.
   */
  function ExemplarNameLine(holder: PropertyHolder): (line: string)
    ensures EndsWithNewLine(line)
    ensures GetExemplarName(Some(holder)).None? ==> line == "\n"
    ensures GetExemplarName(Some(holder)).Some? ==> line == Terminated(GetExemplarName(Some(holder)).value)
  {
    var name := GetExemplarName(Some(holder));
    Terminated(if name.Some? then name.value else "")
  }

  /** AppendLine of the exemplar name read into a fresh string, as both debug tooltips do. */
  method AppendExemplarNameLine(holder: PropertyHolder, text: GZString)
    modifies text
    ensures text.value == old(text.value) + ExemplarNameLine(holder)
  {
    var exemplarName := new GZString("");
    var _ := SetExemplarName(Some(holder), exemplarName);
    AppendLine(exemplarName.value, text);
  }
}
