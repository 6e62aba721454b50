/**
 * FloraQueryToolTipHandler: the plug-in's own subscriber to flora custom
 * tooltips. On a debug query of an occupant it titles the tooltip with the
 * occupant's display name and adds its exemplar name, and, for flora, its
 * birth and last seeding dates. It keeps a clone of the city's date object
 * while a city is loaded and the language manager while the application
 * runs.
 *
 * The date object and the language manager are host services: the first
 * turns a day number into a month, day and year, the second a month, day
 * and year into the localized date text.
 */
module FloraToolTipHandler {
  import opened Types
  import opened Wrappers
  import opened SeqUtil
  import opened GZCom
  import opened GZStringUtil
  import opened HostData
  import opened PropertyUtil
  import opened OccupantUtil
  import opened ComBase
  import opened Registry
  import opened ToolTipHookServers

  /** A flora occupant's two dates, as day numbers. */
  datatype FloraDates = FloraDates(birthDate: uint32, lastSeedingDate: uint32)

  /** A queried occupant: its properties, and its dates when it answers the flora occupant interface. */
  datatype QueriedOccupant = QueriedOccupant(holder: PropertyHolder, flora: Option<FloraDates>)

  /** The clone of the city's date object: Set followed by Month, DayOfMonth and Year. */
  datatype SimDate = SimDate(calendar: uint32 -> (uint32, uint32, uint32))

  /** The language manager's language utility: MakeDateString of a month, day and year. */
  datatype LanguageManager = LanguageManager(makeDateString: (uint32, uint32, uint32) -> string)

  /** GetDateNumberString: the localized text of a day number's calendar date. */
  function DateNumberString(date: SimDate, languageManager: LanguageManager, dateNumber: uint32): string
  {
    var (month, day, year) := date.calendar(dateNumber);
    languageManager.makeDateString(month, day, year)
  }

  const BIRTH_DATE_CAPTION: string := "Birth date: "
  const LAST_SEEDING_DATE_CAPTION: string := "Last seeding date: "

  /** What AppendLineFormatted adds for a caption and a date passed through `%s` as `const char*`. */
  function DateLine(caption: string, date: string): string
  {
    FormattedLine(Some(caption + CString(date)))
  }

  /**
   * A date line is the caption, the date text up to its first NUL, and one
   * line feed unless that text already ends with one; the line starts with
   * the caption even when the date text is empty.
   */
  lemma DateLineShape(caption: string, date: string)
    requires caption != [] && '\0' !in caption
    ensures DateLine(caption, date) == Terminated(caption + CString(date))
    ensures |caption| <= |DateLine(caption, date)| && DateLine(caption, date)[..|caption|] == caption
  {
    var line := caption + CString(date);
    PlainConcat(caption, CString(date));
    PlainLine(line);
    assert line[..|caption|] == caption;
    PrefixKept(caption, line, Terminated(line));
  }

  /** A prefix of a prefix is a prefix. */
  lemma PrefixKept(a: string, b: string, c: string)
    requires |a| <= |b| <= |c| && b[..|a|] == a && c[..|b|] == b
    ensures c[..|a|] == a
  {
    assert c[..|a|] == c[..|b|][..|a|];
  }


  /**
   * The text a debug query appends: the exemplar name line, then, for a
   * flora occupant, its birth date and last seeding date lines.
   */
  function FloraDebugText(occupant: QueriedOccupant, date: Option<SimDate>, languageManager: Option<LanguageManager>): string
    requires occupant.flora.Some? ==> date.Some? && languageManager.Some?
  {
    ExemplarNameLine(occupant.holder)
    + if occupant.flora.Some? then
        var dates := occupant.flora.value;
        DateLine(BIRTH_DATE_CAPTION, DateNumberString(date.value, languageManager.value, dates.birthDate))
        + DateLine(LAST_SEEDING_DATE_CAPTION, DateNumberString(date.value, languageManager.value, dates.lastSeedingDate))
      else []
  }

  lemma BirthDateLine(birth: string)
    ensures DateLine(BIRTH_DATE_CAPTION, birth) == Terminated(BIRTH_DATE_CAPTION + CString(birth))
  {
    DateLineShape(BIRTH_DATE_CAPTION, birth);
  }

  lemma LastSeedingDateLine(seeding: string)
    ensures DateLine(LAST_SEEDING_DATE_CAPTION, seeding) == Terminated(LAST_SEEDING_DATE_CAPTION + CString(seeding))
  {
    DateLineShape(LAST_SEEDING_DATE_CAPTION, seeding);
  }

  /** Text followed by a terminated line ends in a line feed. */
  lemma EndsWithLastLine(a: string, b: string)
    requires EndsWithNewLine(b)
    ensures EndsWithNewLine(a + b)
  {
    assert (a + b)[|a + b| - 1] == b[|b| - 1];
  }

  /**
   * The debug text of a non-flora occupant is its exemplar name line alone;
   * a flora occupant's adds its two date lines, each ended by a line feed.
   */
  lemma FloraDebugTextLines(occupant: QueriedOccupant, date: Option<SimDate>, languageManager: Option<LanguageManager>)
    requires occupant.flora.Some? ==> date.Some? && languageManager.Some?
    ensures occupant.flora.None? ==> FloraDebugText(occupant, date, languageManager) == ExemplarNameLine(occupant.holder)
    ensures occupant.flora.Some? ==>
      var birth := DateNumberString(date.value, languageManager.value, occupant.flora.value.birthDate);
      var seeding := DateNumberString(date.value, languageManager.value, occupant.flora.value.lastSeedingDate);
      FloraDebugText(occupant, date, languageManager)
        == ExemplarNameLine(occupant.holder)
          + (Terminated(BIRTH_DATE_CAPTION + CString(birth)) + Terminated(LAST_SEEDING_DATE_CAPTION + CString(seeding)))
    ensures EndsWithNewLine(FloraDebugText(occupant, date, languageManager))
  {
    if occupant.flora.Some? {
      var birth := DateNumberString(date.value, languageManager.value, occupant.flora.value.birthDate);
      var seeding := DateNumberString(date.value, languageManager.value, occupant.flora.value.lastSeedingDate);
      BirthDateLine(birth);
      LastSeedingDateLine(seeding);
      var lines := Terminated(BIRTH_DATE_CAPTION + CString(birth)) + Terminated(LAST_SEEDING_DATE_CAPTION + CString(seeding));
      EndsWithLastLine(Terminated(BIRTH_DATE_CAPTION + CString(birth)), Terminated(LAST_SEEDING_DATE_CAPTION + CString(seeding)));
      EndsWithLastLine(ExemplarNameLine(occupant.holder), lines);
    }
  }

  class FloraQueryToolTipHandler {
    const self: Pointer
    const base: UnknownBase
    var pDate: Option<SimDate>
    var pLM: Option<LanguageManager>

    constructor (self: Pointer)
      ensures this.self == self && fresh(base) && base.refCount == 0
      ensures pDate.None? && pLM.None?
    {
      this.self := self;
      base := new UnknownBase();
      pDate := None;
      pLM := None;
    }

    /**
     * PostCityInit: keeps a clone of the city's date object, then subscribes
     * to the flora server's custom tooltips when its class object is
     * available (`hookServer`).
     */
    method PostCityInit(cityDate: SimDate, hookServer: QueryToolTipHookServer?)
      requires hookServer != null ==> hookServer.kind == Flora
      requires hookServer != null ==> hookServer.Valid()
      modifies this`pDate, hookServer
      ensures hookServer != null ==> hookServer.Valid()
      ensures pDate == Some(cityDate) && pLM == old(pLM)
      ensures hookServer != null ==>
        hookServer.customToolTipHookSubscribers == Added(old(hookServer.customToolTipHookSubscribers), self)
        && hookServer.appendToolTipHookSubscribers == old(hookServer.appendToolTipHookSubscribers)
        && hookServer.refCount == old(hookServer.refCount)
    {
      pDate := Some(cityDate);
      if hookServer != null {
        var _ := hookServer.AddCustomToolTipNotification(self);
      }
    }

    /** PreCityShutdown: drops the date object, then unsubscribes. */
    method PreCityShutdown(hookServer: QueryToolTipHookServer?)
      requires hookServer != null ==> hookServer.kind == Flora
      requires hookServer != null ==> hookServer.Valid()
      modifies this`pDate, hookServer
      ensures hookServer != null ==> hookServer.Valid()
      ensures pDate.None? && pLM == old(pLM)
      ensures hookServer != null ==>
        hookServer.customToolTipHookSubscribers == Removed(old(hookServer.customToolTipHookSubscribers), self)
        && hookServer.appendToolTipHookSubscribers == old(hookServer.appendToolTipHookSubscribers)
        && hookServer.refCount == old(hookServer.refCount)
    {
      pDate := None;
      if hookServer != null {
        var _ := hookServer.RemoveCustomToolTipNotification(self);
      }
    }

    /** PostAppInit: keeps the language manager. */
    method PostAppInit(languageManager: LanguageManager)
      modifies this`pLM
      ensures pLM == Some(languageManager)
    {
      pLM := Some(languageManager);
    }

    /** PreAppShutdown: drops the language manager. */
    method PreAppShutdown()
      modifies this`pLM
      ensures pLM.None?
    {
      pLM := None;
    }

    /** QueryInterface: the flora custom tooltip target interface is answered here; anything else by the base. */
    method QueryInterface(riid: InterfaceId, ppvObj: object?) returns (ok: bool, out: object?)
      modifies base`refCount
      ensures ok <==> riid == FloraQueryCustomToolTipHookTargetIID || riid == GZUnknown
      ensures riid == FloraQueryCustomToolTipHookTargetIID ==> out == this
      ensures riid == GZUnknown ==> out == base
      ensures ok ==> base.refCount == Incremented(old(base.refCount))
      ensures !ok ==> out == ppvObj && base.refCount == old(base.refCount)
    {
      if riid == FloraQueryCustomToolTipHookTargetIID {
        out := this;
        var _ := base.AddRef();
        return true, out;
      }
      ok, out := base.QueryInterface(riid, ppvObj);
    }

    method AddRef() returns (count: uint32)
      modifies base`refCount
      ensures base.refCount == Incremented(old(base.refCount)) && count == base.refCount
    {
      count := base.AddRef();
    }

    method Release() returns (count: uint32)
      modifies base`refCount
      ensures base.refCount == Decremented(old(base.refCount)) && count == base.refCount
    {
      count := base.Release();
    }

    /**
     * ProcessToolTip: handles every debug query of an occupant. The title
     * becomes the display name, when one is found, and the text gains the
     * debug lines. Otherwise it returns false and changes nothing. The dates
     * are read through the date object and the language manager, which the
     * code does not check.
     */
    method ProcessToolTip(
      occupant: Option<QueriedOccupant>, debugQuery: bool, title: GZString, text: GZString,
      localized: (uint32, uint32) -> Option<string>)
      returns (result: bool)
      requires debugQuery && occupant.Some? && occupant.value.flora.Some? ==> pDate.Some? && pLM.Some?
      requires title != text
      modifies title, text
      ensures result <==> debugQuery && occupant.Some?
      ensures result ==>
        var name := GetDisplayName(localized, Some(occupant.value.holder));
        title.value == (if name.Some? then name.value else old(title.value))
        && text.value == old(text.value) + FloraDebugText(occupant.value, pDate, pLM)
      ensures !result ==> title.value == old(title.value) && text.value == old(text.value)
    {
      result := false;
      if debugQuery && occupant.Some? {
        var o := occupant.value;
        var _ := SetDisplayName(localized, Some(o.holder), title);
        ghost var named := title.value;
        AppendExemplarNameLine(o.holder, text);
        if o.flora.Some? {
          var birth := DateNumberString(pDate.value, pLM.value, o.flora.value.birthDate);
          AppendLineFormatted(text, Some(BIRTH_DATE_CAPTION + CString(birth)));
          var seeding := DateNumberString(pDate.value, pLM.value, o.flora.value.lastSeedingDate);
          AppendLineFormatted(text, Some(LAST_SEEDING_DATE_CAPTION + CString(seeding)));
          ConcatAssoc(old(text.value) + ExemplarNameLine(o.holder), DateLine(BIRTH_DATE_CAPTION, birth), DateLine(LAST_SEEDING_DATE_CAPTION, seeding));
          ConcatAssoc(old(text.value), ExemplarNameLine(o.holder), DateLine(BIRTH_DATE_CAPTION, birth) + DateLine(LAST_SEEDING_DATE_CAPTION, seeding));
        }
        assert title.value == named;
        result := true;
      }
    }
  }

}
