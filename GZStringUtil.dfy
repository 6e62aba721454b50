/**
 * The host's mutable string object (cIGZString) and the helpers that append
 * newline-terminated lines to it or overwrite it with a localized string.
 */
module GZStringUtil {
  import opened Types
  import opened Wrappers

  /** A cIGZString: a character buffer that the plug-in appends to, copies into and clears. */
  class GZString {
    var value: string

    constructor (initial: string)
      ensures value == initial
    {
      value := initial;
    }

    /** cIGZString::Append. */
    method Append(s: string)
      modifies this
      ensures value == old(value) + s
    {
      value := value + s;
    }

    /** cIGZString::Copy. */
    method Copy(s: string)
      modifies this
      ensures value == s
    {
      value := s;
    }

    /** cIGZString::Erase of the whole buffer (also what `Resize(0)` does). */
    method Clear()
      modifies this
      ensures value == []
    {
      value := [];
    }
  }

  /** Whether the last character is a line feed; false for an empty string. */
  predicate EndsWithNewLine(line: string)
  {
    |line| > 0 && line[|line| - 1] == '\n'
  }

  /**
   * What AppendLine adds for `line`: the line itself, followed by a line feed
   * unless it already ends with one.
   */
  function Terminated(line: string): (r: string)
    ensures EndsWithNewLine(r)
    ensures |line| <= |r| <= |line| + 1
    ensures r[..|line|] == line
    ensures r == line <==> EndsWithNewLine(line)
  {
    if EndsWithNewLine(line) then line else line + "\n"
  }

  /** An empty line contributes exactly one line feed, and a terminated line is left alone. */
  lemma TerminatedEmptyAndIdempotent(line: string)
    ensures Terminated([]) == "\n"
    ensures Terminated(Terminated(line)) == Terminated(line)
  {
  }

  /** A string appended to itself ends like the original; this is why the cIGZString overload is alias-safe. */
  lemma EndsWithNewLineDoubled(s: string)
    ensures EndsWithNewLine(s + s) == EndsWithNewLine(s)
  {
    if s != [] {
      assert (s + s)[|s + s| - 1] == s[|s| - 1];
    }
  }

  /** AppendLine(std::string_view, cIGZString&). */
  method AppendLine(line: string, destination: GZString)
    modifies destination
    ensures destination.value == old(destination.value) + Terminated(line)
  {
    destination.Append(line);
    if !EndsWithNewLine(line) {
      destination.Append("\n");
    }
  }

  /**
   * AppendLine(const cIGZString&, cIGZString&): the line is appended first and
   * only then tested for a trailing line feed, so `line` may be `destination`
   * itself.
   */
  method AppendLineFrom(line: GZString, destination: GZString)
    modifies destination
    ensures destination.value == old(destination.value) + Terminated(old(line.value))
  {
    ghost var original := line.value;
    destination.Append(line.value);
    if line == destination {
      EndsWithNewLineDoubled(original);
    }
    assert EndsWithNewLine(line.value) == EndsWithNewLine(original);
    if !EndsWithNewLine(line.value) {
      destination.Append("\n");
    }
  }

  /** A formatted string read back through `const char*`: it stops at the first NUL character. */
  function CString(s: string): (r: string)
    ensures |r| <= |s| && r == s[..|r|]
    ensures '\0' !in r
    ensures |r| < |s| ==> s[|r|] == '\0'
  {
    if s == [] || s[0] == '\0' then [] else [s[0]] + CString(s[1..])
  }

  /**
   * What AppendLineFormatted adds: nothing when formatting failed (`None`, a
   * negative length) or produced no characters; otherwise the formatted text,
   * up to its first NUL, as one terminated line.
   */
  function FormattedLine(formatted: Option<string>): (r: string)
    ensures formatted.None? || formatted.value == [] <==> r == []
    ensures r != [] ==> r == Terminated(CString(formatted.value))
  {
    if formatted.Some? && |formatted.value| > 0 then Terminated(CString(formatted.value)) else []
  }

  /** Text without a NUL reads back whole through `const char*`. */
  lemma {:induction false} CStringOfPlain(s: string)
    requires '\0' !in s
    ensures CString(s) == s
  {
    if s != [] {
      assert forall c :: c in s[1..] ==> c in s;
      CStringOfPlain(s[1..]);
    }
  }

  /** A formatted line with no NUL is added as the text and exactly one line feed. */
  lemma PlainLine(s: string)
    requires s != [] && '\0' !in s
    ensures FormattedLine(Some(s)) == Terminated(s)
  {
    CStringOfPlain(s);
  }

  /** A line that does not end in a line feed gets exactly one. */
  lemma LineFeedAdded(s: string)
    requires !EndsWithNewLine(s)
    ensures Terminated(s) == s + "\n"
  {
  }

  /** A line that ends in a line feed is added as it is. */
  lemma EndsWithLineFeed(s: string)
    requires s != [] && s[|s| - 1] == '\n'
    ensures Terminated(s) == s
  {
  }

  /**
   * A NUL-free line whose last part is NUL-free, non-empty and free of line
   * feeds is formatted whole and gets one line feed.
   */
  lemma PlainTail(front: string, last: string)
    requires '\0' !in front && '\0' !in last && '\n' !in last && last != []
    ensures FormattedLine(Some(front + last)) == front + last + "\n"
  {
    PlainConcat(front, last);
    var s := front + last;
    assert s[|s| - 1] == last[|last| - 1];
    assert last[|last| - 1] in last;
    PlainLine(s);
    LineFeedAdded(s);
  }

  /** Two texts without a NUL make one without a NUL. */
  lemma PlainConcat(a: string, b: string)
    requires '\0' !in a && '\0' !in b
    ensures '\0' !in a + b
  {
    forall i | 0 <= i < |a + b|
      ensures (a + b)[i] != '\0'
    {
      if i >= |a| {
        assert (a + b)[i] == b[i - |a|];
      }
    }
  }

  /** AppendLineFormatted: `formatted` is the result of formatting the arguments (vsnprintf). */
  method AppendLineFormatted(destination: GZString, formatted: Option<string>)
    modifies destination
    ensures destination.value == old(destination.value) + FormattedLine(formatted)
  {
    if formatted.Some? {
      var formattedStringLength := |formatted.value|;
      if formattedStringLength > 0 {
        AppendLine(CString(formatted.value), destination);
      }
    }
  }

  /** A formatted text holding a NUL before anything else still adds a bare line feed. */
  lemma FormattedLeadingNul(rest: string)
    ensures FormattedLine(Some("\0" + rest)) == "\n"
  {
  }

  /**
   * SetLocalizedStringValue: `localized` is the string resource manager's
   * lookup by (group, instance). On success the destination is replaced.
   */
  method SetLocalizedStringValue(
    localized: (uint32, uint32) -> Option<string>,
    ltextGroup: uint32,
    ltextInstance: uint32,
    destination: GZString) returns (result: bool)
    modifies destination
    ensures result <==> localized(ltextGroup, ltextInstance).Some?
    ensures result ==> destination.value == localized(ltextGroup, ltextInstance).value
    ensures !result ==> destination.value == old(destination.value)
  {
    result := false;
    var lookup := localized(ltextGroup, ltextInstance);
    if lookup.Some? {
      destination.Copy(lookup.value);
      result := true;
    }
  }
}
