/**
 * The week walk of export_calendar (calendar_exporter.py): starting from
 * the start date, one timetable page per week until the cursor passes a
 * week beyond the end date. Every day group on a page is dated from its
 * id, and when that date lies in the window its activities are added to
 * the calendar.
 */
module CalendarExporter {
  import opened Wrappers
  import opened Numerals
  import opened Dates
  import opened CalendarUtils

  // ---- the weekday name: time.strptime(day, "%A").tm_wday ------------------

  /** The full weekday names of the C locale, lower-cased, Monday first. */
  const DayNames: seq<string> :=
    ["monday", "tuesday", "wednesday", "thursday", "friday", "saturday", "sunday"]

  function LowerAscii(c: char): char {
    if 'A' <= c <= 'Z' then (c as int - 'A' as int + 'a' as int) as char else c
  }

  /** s with each ASCII capital letter lowered and every other character kept. */
  function LowerAsciiString(s: string): (r: string)
    ensures |r| == |s|
    ensures forall i :: 0 <= i < |s| ==> r[i] == LowerAscii(s[i])
  {
    if s == [] then [] else [LowerAscii(s[0])] + LowerAsciiString(s[1..])
  }

  /** The position of the first occurrence of a name in a list, or the list's length. */
  function IndexOf(names: seq<string>, name: string): (i: nat)
    ensures i <= |names|
    ensures i < |names| ==> names[i] == name
  {
    if names == [] then 0 else if names[0] == name then 0 else 1 + IndexOf(names[1..], name)
  }

  /** No occurrence comes before the one IndexOf finds. */
  lemma {:induction false} IndexOfFirst(names: seq<string>, name: string, j: nat)
    requires j < |names| && names[j] == name
    ensures IndexOf(names, name) <= j
  {
    if names[0] != name {
      IndexOfFirst(names[1..], name, j - 1);
    }
  }

  /**
   * The weekday index of a full weekday name, matched regardless of letter
   * case and with nothing before or after it; anything else is a ValueError.
   */
  function ParseWeekdayName(day: string): (r: Result<nat, Error>)
    ensures r.Success? ==> r.value < 7
    ensures r.Failure? ==> r.error == UnknownDayName
  {
    var i := IndexOf(DayNames, LowerAsciiString(day));
    if i < |DayNames| then Success(i) else Failure(UnknownDayName)
  }

  /** Exactly the strings that are no weekday name, in any letter case, are rejected. */
  lemma WeekdayNameRejects(day: string)
    ensures ParseWeekdayName(day).Failure? <==> LowerAsciiString(day) !in DayNames
    ensures ParseWeekdayName(day).Success? ==> LowerAsciiString(day) == DayNames[ParseWeekdayName(day).value]
  {
    var name := LowerAsciiString(day);
    if name in DayNames {
      var j :| 0 <= j < |DayNames| && DayNames[j] == name;
      IndexOfFirst(DayNames, name, j);
    }
  }

  /** Any spelling of the k-th weekday name, in any letter case, reads as k. */
  lemma WeekdayNameRoundTrip(name: string, k: nat)
    requires k < 7 && LowerAsciiString(name) == DayNames[k]
    ensures ParseWeekdayName(name) == Success(k)
  {
    IndexOfFirst(DayNames, DayNames[k], k);
  }

  // ---- the anchor date: datetime.strptime(text, "%d-%m-%Y") ------------------

  /** A "%d" field: 01-31, or one digit 1-9, or a space then 1-9. */
  predicate DayField(f: string) {
    || (|f| == 1 && '1' <= f[0] <= '9')
    || (|f| == 2 && f[0] == '3' && (f[1] == '0' || f[1] == '1'))
    || (|f| == 2 && (f[0] == '1' || f[0] == '2') && IsDigit(f[1]))
    || (|f| == 2 && (f[0] == '0' || f[0] == ' ') && '1' <= f[1] <= '9')
  }

  /** A "%m" field: 01-12, or one digit 1-9. */
  predicate MonthField(f: string) {
    || (|f| == 1 && '1' <= f[0] <= '9')
    || (|f| == 2 && f[0] == '1' && '0' <= f[1] <= '2')
    || (|f| == 2 && f[0] == '0' && '1' <= f[1] <= '9')
  }

  /** The number a "%d" or "%m" field stands for (int() ignores a leading space). */
  function FieldValue(f: string): (v: nat)
    requires DayField(f) || MonthField(f)
    ensures 1 <= v <= 31
    ensures MonthField(f) ==> v <= 12
  {
    if |f| == 1 then DigitValue(f[0])
    else (if f[0] == ' ' then 0 else DigitValue(f[0])) * 10 + DigitValue(f[1])
  }

  /**
   * The three fields of a "%d-%m-%Y" text: the text up to the first '-' is
   * the day, the text up to the next '-' the month, and the rest the year.
   */
  function AnchorFields(s: string): Option<(string, string, string)> {
    var i := Find(s, '-');
    if i == |s| then None
    else
      var rest := s[i + 1..];
      var j := Find(rest, '-');
      if j == |rest| then None
      else Some((s[..i], rest[..j], rest[j + 1..]))
  }

  /** datetime.strptime(s, "%d-%m-%Y"), as a day ordinal. */
  function ParseAnchor(s: string): (r: Result<int, Error>)
    ensures r.Success? ==> InRange(r.value)
    ensures r.Failure? ==> r.error == InvalidAnchorDate
  {
    match AnchorFields(s)
    case None => Failure(InvalidAnchorDate)
    case Some((dayText, monthText, yearText)) => AnchorFromFields(dayText, monthText, yearText)
  }

  /**
   * The date of the three fields: day and month fields as above, a
   * four-digit year and nothing left over, and a date that exists (year 1
   * or later, day within its month). Anything else is a ValueError.
   */
  function AnchorFromFields(dayText: string, monthText: string, yearText: string): (r: Result<int, Error>)
    ensures r.Success? ==> InRange(r.value) && |dayText| + |monthText| + |yearText| <= 8
    ensures r.Failure? ==> r.error == InvalidAnchorDate
  {
    if !(DayField(dayText) && MonthField(monthText) && |yearText| == 4 && AllDigits(yearText)) then
      Failure(InvalidAnchorDate)
    else
      var y, m, d := DigitsValue(yearText), FieldValue(monthText), FieldValue(dayText);
      if !ValidDate(y, m, d) then Failure(InvalidAnchorDate)
      else
        OrdinalInRange(y, m, d);
        Success(Ordinal(y, m, d))
  }

  /** The first '-' after a dash-free text is the one that follows it. */
  lemma FirstDash(a: string, b: string)
    requires '-' !in a
    ensures var s := a + "-" + b;
      Find(s, '-') == |a| && s[..|a|] == a && s[|a| + 1..] == b
  {
    FindAfter(a, "-" + b, '-');
    assert ("-" + b)[0] == '-';
    assert a + "-" + b == a + ("-" + b);
  }

  /** Two dashes after dash-free day and month texts cut the text into its three fields. */
  lemma AnchorSplits(dayText: string, monthText: string, yearText: string)
    requires '-' !in dayText && '-' !in monthText
    ensures AnchorFields(dayText + "-" + monthText + "-" + yearText) == Some((dayText, monthText, yearText))
  {
    var rest := monthText + "-" + yearText;
    assert dayText + "-" + monthText + "-" + yearText == dayText + "-" + rest;
    FirstDash(dayText, rest);
    FirstDash(monthText, yearText);
  }

  /** The text "DD-MM-YYYY" of a day, a month and a year, whether or not that date exists. */
  function FormatAnchor(y: nat, m: nat, d: nat): string
    requires y < 10000 && 1 <= m <= 12 && 1 <= d <= 31
  {
    Pad2(d) + "-" + Pad2(m) + "-" + Pad4(y)
  }

  lemma Pad2NoDash(n: nat)
    requires n < 100
    ensures '-' !in Pad2(n)
  {
    assert IsDigit(Pad2(n)[0]) && IsDigit(Pad2(n)[1]);
  }

  lemma Pad2DayField(n: nat)
    requires 1 <= n <= 31
    ensures DayField(Pad2(n)) && FieldValue(Pad2(n)) == n
  {
    Pad2Value(n);
  }

  lemma Pad2MonthField(n: nat)
    requires 1 <= n <= 12
    ensures MonthField(Pad2(n)) && FieldValue(Pad2(n)) == n
  {
    Pad2Value(n);
  }

  /** A "DD-MM-YYYY" text reads as its date exactly when that date exists. */
  lemma {:induction false} FormattedAnchor(y: nat, m: nat, d: nat)
    requires y < 10000 && 1 <= m <= 12 && 1 <= d <= 31
    ensures ParseAnchor(FormatAnchor(y, m, d))
      == if ValidDate(y, m, d) then Success(Ordinal(y, m, d)) else Failure(InvalidAnchorDate)
  {
    Pad2NoDash(d);
    Pad2NoDash(m);
    AnchorSplits(Pad2(d), Pad2(m), Pad4(y));
    Pad2DayField(d);
    Pad2MonthField(m);
    Pad4Value(y);
  }

  /** Every date of datetime's range reads back from its "DD-MM-YYYY" text. */
  lemma AnchorRoundTrip(y: nat, m: nat, d: nat)
    requires ValidDate(y, m, d)
    ensures ParseAnchor(FormatAnchor(y, m, d)) == Success(Ordinal(y, m, d))
  {
    FormattedAnchor(y, m, d);
  }

  /** A day past the end of its month, or year 0, is rejected: ParseAnchor("31-02-2024") and ParseAnchor("01-01-0000") fail. */
  lemma AnchorRejectsMissingDate(y: nat, m: nat, d: nat)
    requires y < 10000 && 1 <= m <= 12 && 1 <= d <= 31
    requires y == 0 || d > DaysInMonth(y, m)
    ensures ParseAnchor(FormatAnchor(y, m, d)) == Failure(InvalidAnchorDate)
  {
    FormattedAnchor(y, m, d);
  }

  /** A date written year first ("YYYY-MM-DD") is rejected. */
  lemma AnchorRejectsYearFirst(y: nat, m: nat, d: nat)
    requires y < 10000 && 1 <= m <= 12 && 1 <= d <= 31
    ensures ParseAnchor(Pad4(y) + "-" + Pad2(m) + "-" + Pad2(d)) == Failure(InvalidAnchorDate)
  {
    var yyyy := Pad4(y);
    assert '-' !in yyyy by {
      forall i | 0 <= i < 4 ensures yyyy[i] != '-' { assert IsDigit(yyyy[i]); }
    }
    var rest := Pad2(m) + "-" + Pad2(d);
    assert Pad4(y) + "-" + Pad2(m) + "-" + Pad2(d) == yyyy + "-" + rest;
    FirstDash(yyyy, rest);
  }

  // ---- dating a day group ---------------------------------------------------

  /** id[:10], the anchor date of a day group's id. */
  function AnchorPart(id: string): string {
    if |id| <= 10 then id else id[..10]
  }

  /** id[11:], the weekday name of a day group's id (the character between is skipped). */
  function DayPart(id: string): string {
    if |id| <= 11 then "" else id[11..]
  }

  /**
   * The date of a day group (lines 58-61): its anchor date plus the index
   * of its weekday name. The name is read first, then the anchor; a sum
   * past datetime's range is an OverflowError.
   */
  function ResolveGroupDate(id: string): (r: Result<int, Error>)
    ensures r.Success? ==> InRange(r.value)
    ensures r.Success? <==>
      && ParseWeekdayName(DayPart(id)).Success?
      && ParseAnchor(AnchorPart(id)).Success?
      && ParseAnchor(AnchorPart(id)).value + ParseWeekdayName(DayPart(id)).value <= MaxOrdinal
    ensures r.Success? ==> r.value == ParseAnchor(AnchorPart(id)).value + ParseWeekdayName(DayPart(id)).value
    ensures r.Success? ==> ParseAnchor(AnchorPart(id)).value <= r.value <= ParseAnchor(AnchorPart(id)).value + 6
    ensures r.Failure? ==> (r.error == UnknownDayName <==> ParseWeekdayName(DayPart(id)).Failure?)
    ensures r.Failure? ==> r.error in {UnknownDayName, InvalidAnchorDate, DateOutOfRange}
  {
    var dayIndex :- ParseWeekdayName(DayPart(id));
    var anchor :- ParseAnchor(AnchorPart(id));
    if anchor + dayIndex > MaxOrdinal then Failure(DateOutOfRange) else Success(anchor + dayIndex)
  }

  /**
   * When the anchor is a Monday, as the ids of the timetable have it, a
   * group's date falls on the weekday its name gives.
   */
  lemma GroupDateOnNamedWeekday(id: string)
    requires ResolveGroupDate(id).Success?
    requires Weekday(ParseAnchor(AnchorPart(id)).value) == 0
    ensures Weekday(ResolveGroupDate(id).value) == ParseWeekdayName(DayPart(id)).value
  {
    DaysAfterMonday(ParseAnchor(AnchorPart(id)).value, ParseWeekdayName(DayPart(id)).value);
  }

  /** The parts of an id whose anchor text has ten characters. */
  lemma IdParts(anchor: string, separator: char, name: string)
    requires |anchor| == 10
    ensures AnchorPart(anchor + [separator] + name) == anchor
    ensures DayPart(anchor + [separator] + name) == name
  {
    var id := anchor + [separator] + name;
    assert id[..10] == anchor;
    assert id[11..] == name;
  }

  /**
   * An id written as the timetable writes it, a ten-character anchor text
   * (AnchorRoundTrip: "DD-MM-YYYY" of a real date reads back as that date),
   * one separator character and a weekday name, is dated to the anchor's day
   * plus the weekday's index (which WeekdayNameRoundTrip gives for each
   * spelling of a name).
   */
  lemma GroupIdRoundTrip(anchor: string, separator: char, name: string, a: int, k: nat)
    requires |anchor| == 10
    requires ParseAnchor(anchor) == Success(a)
    requires ParseWeekdayName(name) == Success(k)
    requires a + k <= MaxOrdinal
    ensures ResolveGroupDate(anchor + [separator] + name) == Success(a + k)
  {
    IdParts(anchor, separator, name);
    ResolveFromParts(anchor + [separator] + name, a, k);
  }

  /** The date of an id whose parts read as an anchor and a weekday index. */
  lemma ResolveFromParts(id: string, anchor: int, k: nat)
    requires ParseWeekdayName(DayPart(id)) == Success(k)
    requires ParseAnchor(AnchorPart(id)) == Success(anchor)
    requires anchor + k <= MaxOrdinal
    ensures ResolveGroupDate(id) == Success(anchor + k)
  {
  }

  // ---- the week of a cursor (lines 39-47) -----------------------------------

  /** A day lies between two others, both included. */
  predicate Between(lo: int, d: int, hi: int) { lo <= d <= hi }

  /** The Monday on or before a day (line 39). */
  function WeekMonday(day: int): (monday: int)
    ensures Weekday(monday) == 0 && day - 6 <= monday <= day
  {
    MondayAndSunday(day);
    day - Weekday(day)
  }

  /** The Sunday on or after a day (lines 40-42): six days after its Monday. */
  function WeekSunday(day: int): (sunday: int)
    ensures Weekday(sunday) == 6 && day <= sunday <= day + 6
    ensures sunday == WeekMonday(day) + 6
  {
    MondayAndSunday(day);
    day + (6 - Weekday(day))
  }

  /**
   * The range the progress line shows for a cursor: its Monday-Sunday week,
   * each end clipped to the window (lines 44-47). It holds exactly the
   * days of that week inside the window.
   */
  function ShownWeek(cursor: int, start: int, end: int): (shown: (int, int))
    ensures start <= shown.0 && shown.1 <= end
    ensures forall d :: Between(shown.0, d, shown.1) <==>
      Between(WeekMonday(cursor), d, WeekSunday(cursor)) && Between(start, d, end)
  {
    var weekStart := if WeekMonday(cursor) < start then start else WeekMonday(cursor);
    var weekEnd := if end < WeekSunday(cursor) then end else WeekSunday(cursor);
    (weekStart, weekEnd)
  }

  // ---- the day groups of a page (lines 55-67) -------------------------------

  /**
   * A day title of a timetable page: its id attribute, if any, and the
   * activities of the element that follows it (None when nothing follows).
   */
  datatype DayGroup = DayGroup(id: Option<string>, activities: Option<seq<ActivityNode>>)

  /** The page get_soup returns for a cursor date, as its day groups in document order, or the request's failure. */
  type Fetch = int -> Result<seq<DayGroup>, Error>

  /** Events already appended, followed by what comes after them. */
  function Then(done: seq<Event>, next: Added): Added {
    Added(done + next.events, next.err)
  }

  /**
   * The body of the loop over day groups (lines 58-67) for a calendar
   * holding n components: a group without an id aborts, its date is
   * resolved (aborting on a bad id), a date outside the window is skipped,
   * and otherwise the activities that follow are added for that date.
   */
  function GroupEvents(group: DayGroup, start: int, end: int, stamps: Stamps, n: nat): Added {
    if group.id.None? then Added([], Some(MalformedDayGroup))
    else match ResolveGroupDate(group.id.value)
      case Failure(e) => Added([], Some(e))
      case Success(date) =>
        if !(start <= date <= end) then Added([], None)
        else if group.activities.None? then Added([], Some(MalformedDayGroup))
        else ListEvents(date, group.activities.value, stamps, n)
  }

  /** How one day group is handled when the calendar holds a given number of components. */
  type GroupHandler = (DayGroup, nat) -> Added

  /** The loop over the day groups of a page (lines 57-67) with any handler, stopping at the first error. */
  function EachGroup(groups: seq<DayGroup>, handle: GroupHandler, n: nat): Added
    decreases |groups|
  {
    if groups == [] then Added([], None)
    else
      var first := handle(groups[0], n);
      if first.err.Some? then first
      else Then(first.events, EachGroup(groups[1..], handle, n + |first.events|))
  }

  function GroupHandlerFor(start: int, end: int, stamps: Stamps): GroupHandler {
    (group: DayGroup, n: nat) => GroupEvents(group, start, end, stamps, n)
  }

  /** What lines 57-67 append for one page. */
  function PageEvents(page: seq<DayGroup>, start: int, end: int, stamps: Stamps, n: nat): Added {
    EachGroup(page, GroupHandlerFor(start, end, stamps), n)
  }

  // ---- the walk over weeks (lines 35-70) ------------------------------------

  /** The cursor dates fetched, the events appended, and the error that ended the run, if any. */
  datatype Walked = Walked(fetched: seq<int>, events: seq<Event>, err: Option<Error>)

  /**
   * One pass of the while loop (lines 39-70) for a cursor date, when the
   * calendar holds n components: its week's Sunday must be in datetime's
   * range (an OverflowError otherwise, before the request), its page is
   * fetched and its day groups handled in order, and the cursor's step a
   * week on must stay in range (an OverflowError at line 70).
   */
  function WeekOf(cursor: int, fetch: Fetch, handle: GroupHandler, n: nat): Walked {
    if WeekSunday(cursor) > MaxOrdinal then Walked([], [], Some(DateOutOfRange))
    else match fetch(cursor)
      case Failure(e) => Walked([cursor], [], Some(e))
      case Success(page) =>
        var week := EachGroup(page, handle, n);
        if week.err.Some? then Walked([cursor], week.events, week.err)
        else if cursor + 7 > MaxOrdinal then Walked([cursor], week.events, Some(DateOutOfRange))
        else Walked([cursor], week.events, None)
  }

  /** The cursors fetched and the events appended so far, followed by the rest of the walk. */
  function After(fetched: seq<int>, done: seq<Event>, rest: Walked): Walked {
    Walked(fetched + rest.fetched, done + rest.events, rest.err)
  }

  /** How one pass of the while loop goes for a cursor, when the calendar holds a given number of components. */
  type WeekHandler = (int, nat) -> Walked

  /**
   * The while loop from a cursor date on (lines 37-70) with any pass:
   * while the cursor is before end + 7 days, one pass for it, then the
   * cursor a week on; the first error ends the walk.
   */
  function WalkFrom(cursor: int, end: int, pass: WeekHandler, n: nat): Walked
    decreases end + 7 - cursor
  {
    if cursor >= end + 7 then Walked([], [], None)
    else
      var week := pass(cursor, n);
      if week.err.Some? then week
      else After(week.fetched, week.events, WalkFrom(cursor + 7, end, pass, n + |week.events|))
  }

  function WeekHandlerFor(fetch: Fetch, handle: GroupHandler): WeekHandler {
    (cursor: int, n: nat) => WeekOf(cursor, fetch, handle, n)
  }

  /**
   * Lines 35-70 from the start date: the bound end + 7 days is itself an
   * OverflowError when it leaves datetime's range, before any fetch.
   */
  function ExportWeeks(start: int, end: int, fetch: Fetch, stamps: Stamps, n: nat): Walked {
    if end + 7 > MaxOrdinal then Walked([], [], Some(DateOutOfRange))
    else WalkFrom(start, end, WeekHandlerFor(fetch, GroupHandlerFor(start, end, stamps)), n)
  }

  /** The cursor dates from a first one on, a week apart, while before end + 7 days. */
  function CursorsFrom(cursor: int, end: int): (cursors: seq<int>)
    ensures |cursors| == if cursor < end + 7 then (end + 7 - cursor + 6) / 7 else 0
    ensures forall k :: 0 <= k < |cursors| ==> cursors[k] == cursor + 7 * k
    decreases end + 7 - cursor
  {
    if cursor >= end + 7 then [] else [cursor] + CursorsFrom(cursor + 7, end)
  }

  // ---- the loops ------------------------------------------------------------

  /** A handler that agrees with GroupEvents for a window and its stamps. */
  ghost predicate HandlesGroups(handle: GroupHandler, start: int, end: int, stamps: Stamps) {
    forall group: DayGroup, n: nat {:trigger GroupEvents(group, start, end, stamps, n)} ::
      handle(group, n) == GroupEvents(group, start, end, stamps, n)
  }

  /**
   * Lines 58-67 for one day group: date it, skip it outside the window,
   * else add its activities; stated through any handler that agrees with
   * GroupEvents.
   */
  method AddDayGroupEvents(group: DayGroup, start: int, end: int, cal: Calendar, stamps: Stamps, ghost handle: GroupHandler)
    returns (err: Option<Error>)
    requires HandlesGroups(handle, start, end, stamps)
    modifies cal
    ensures cal.properties == old(cal.properties)
    ensures var a := handle(group, |old(cal.components)|);
      cal.components == old(cal.components) + a.events && err == a.err
  {
    assert handle(group, |cal.components|) == GroupEvents(group, start, end, stamps, |cal.components|);
    if group.id.None? {
      return Some(MalformedDayGroup);
    }
    var date := ResolveGroupDate(group.id.value);
    if date.Failure? {
      return Some(date.error);
    }
    if !(start <= date.value <= end) {
      assert cal.components == cal.components + [];
      return None;
    }
    if group.activities.None? {
      return Some(MalformedDayGroup);
    }
    err := AddEventsFromActivityList(date.value, cal, group.activities.value, stamps);
  }

  /** The loop over the day groups of one page (lines 57-67). */
  method AddPageEvents(page: seq<DayGroup>, start: int, end: int, cal: Calendar, stamps: Stamps)
    returns (err: Option<Error>)
    modifies cal
    ensures cal.properties == old(cal.properties)
    ensures var a := PageEvents(page, start, end, stamps, |old(cal.components)|);
      cal.components == old(cal.components) + a.events && err == a.err
  {
    err := AddGroupsEvents(page, start, end, cal, stamps, GroupHandlerFor(start, end, stamps));
  }

  /** That loop, against any handler that agrees with GroupEvents. */
  method AddGroupsEvents(page: seq<DayGroup>, start: int, end: int, cal: Calendar, stamps: Stamps, ghost handle: GroupHandler)
    returns (err: Option<Error>)
    requires HandlesGroups(handle, start, end, stamps)
    modifies cal
    ensures cal.properties == old(cal.properties)
    ensures var a := EachGroup(page, handle, |old(cal.components)|);
      cal.components == old(cal.components) + a.events && err == a.err
  {
    ghost var before := cal.components;
    ghost var done: seq<Event> := [];
    for i := 0 to |page|
      invariant cal.properties == old(cal.properties)
      invariant cal.components == before + done
      invariant EachGroup(page, handle, |before|) == Then(done, EachGroup(page[i..], handle, |before| + |done|))
    {
      err, done := AddGroupOn(page, i, start, end, cal, stamps, handle, before, done);
      if err.Some? {
        return;
      }
    }
    EachGroupEnds(page, handle, |before|, done);
    err := None;
  }

  /** One pass of that loop, over the group at index i. */
  method AddGroupOn(page: seq<DayGroup>, i: nat, start: int, end: int, cal: Calendar, stamps: Stamps,
                    ghost handle: GroupHandler, ghost before: seq<Event>, ghost done: seq<Event>)
    returns (err: Option<Error>, ghost done': seq<Event>)
    requires i < |page|
    requires HandlesGroups(handle, start, end, stamps)
    requires cal.components == before + done
    requires EachGroup(page, handle, |before|) == Then(done, EachGroup(page[i..], handle, |before| + |done|))
    modifies cal
    ensures cal.properties == old(cal.properties)
    ensures cal.components == before + done'
    ensures err.Some? ==> EachGroup(page, handle, |before|) == Added(done', err)
    ensures err.None? ==>
      EachGroup(page, handle, |before|) == Then(done', EachGroup(page[i + 1..], handle, |before| + |done'|))
  {
    ghost var a := handle(page[i], |cal.components|);
    err := AddDayGroupEvents(page[i], start, end, cal, stamps, handle);
    AppendTwice(before, done, a.events);
    if err.Some? {
      EachGroupStops(page, i, handle, |before|, done);
    } else {
      EachGroupGoesOn(page, i, handle, |before|, done);
    }
    done' := done + a.events;
  }

  lemma AppendTwice(before: seq<Event>, done: seq<Event>, more: seq<Event>)
    ensures (before + done) + more == before + (done + more)
  {
  }

  /** A pass over a group that fails ends the loop with that group's result. */
  lemma EachGroupStops(page: seq<DayGroup>, i: nat, handle: GroupHandler, m: nat, done: seq<Event>)
    requires i < |page| && handle(page[i], m + |done|).err.Some?
    ensures Then(done, EachGroup(page[i..], handle, m + |done|)) == Then(done, handle(page[i], m + |done|))
  {
    assert page[i..][0] == page[i];
  }

  /** A pass over a group that succeeds moves its events into those appended. */
  lemma EachGroupGoesOn(page: seq<DayGroup>, i: nat, handle: GroupHandler, m: nat, done: seq<Event>)
    requires i < |page| && handle(page[i], m + |done|).err.None?
    ensures var more := handle(page[i], m + |done|).events;
      Then(done, EachGroup(page[i..], handle, m + |done|))
        == Then(done + more, EachGroup(page[i + 1..], handle, m + |done + more|))
  {
    var more := handle(page[i], m + |done|).events;
    var rest := EachGroup(page[i + 1..], handle, m + |done| + |more|);
    assert page[i..][0] == page[i] && page[i..][1..] == page[i + 1..];
    assert EachGroup(page[i..], handle, m + |done|) == Then(more, rest);
    assert done + (more + rest.events) == (done + more) + rest.events;
  }

  /** After the last group nothing more is appended. */
  lemma EachGroupEnds(page: seq<DayGroup>, handle: GroupHandler, m: nat, done: seq<Event>)
    ensures Then(done, EachGroup(page[|page|..], handle, m + |done|)) == Added(done, None)
  {
    assert page[|page|..] == [] && done + [] == done;
  }

  /**
   * The while loop of export_calendar (lines 35-70): the cursor starts at
   * the start date and moves a week at a time while before end + 7 days;
   * each pass fetches the cursor's page and adds its day groups' events.
   * fetched lists the dates whose pages were requested, in order.
   */
  method WalkWeeks(start: int, end: int, cal: Calendar, fetch: Fetch, stamps: Stamps)
    returns (fetched: seq<int>, err: Option<Error>)
    requires InRange(start) && InRange(end)
    modifies cal
    ensures cal.properties == old(cal.properties)
    ensures var w := ExportWeeks(start, end, fetch, stamps, |old(cal.components)|);
      cal.components == old(cal.components) + w.events && fetched == w.fetched && err == w.err
  {
    if end + 7 > MaxOrdinal {
      return [], Some(DateOutOfRange);
    }
    var handle := GroupHandlerFor(start, end, stamps);
    fetched, err := WalkWeeksFrom(start, end, cal, fetch, stamps, handle, WeekHandlerFor(fetch, handle));
  }

  /** A pass that agrees with WeekOf for a fetch and a group handler. */
  ghost predicate HandlesWeeks(pass: WeekHandler, fetch: Fetch, handle: GroupHandler) {
    forall cursor: int, n: nat {:trigger WeekOf(cursor, fetch, handle, n)} ::
      pass(cursor, n) == WeekOf(cursor, fetch, handle, n)
  }

  /** That loop once its bound is known to be in range, against any handlers that agree with WeekOf and GroupEvents. */
  method WalkWeeksFrom(start: int, end: int, cal: Calendar, fetch: Fetch, stamps: Stamps,
                       ghost handle: GroupHandler, ghost pass: WeekHandler)
    returns (fetched: seq<int>, err: Option<Error>)
    requires InRange(start) && InRange(end) && end + 7 <= MaxOrdinal
    requires HandlesGroups(handle, start, end, stamps) && HandlesWeeks(pass, fetch, handle)
    modifies cal
    ensures cal.properties == old(cal.properties)
    ensures var w := WalkFrom(start, end, pass, |old(cal.components)|);
      cal.components == old(cal.components) + w.events && fetched == w.fetched && err == w.err
  {
    fetched := [];
    ghost var before := cal.components;
    ghost var done: seq<Event> := [];
    var cursor := start;
    while cursor < end + 7
      invariant cal.properties == old(cal.properties)
      invariant cal.components == before + done
      invariant WalkFrom(start, end, pass, |before|) == After(fetched, done, WalkFrom(cursor, end, pass, |before| + |done|))
      decreases end + 7 - cursor
    {
      fetched, err, done := WalkOn(cursor, start, end, cal, fetch, stamps, handle, pass, before, fetched, done);
      if err.Some? {
        return;
      }
      cursor := cursor + 7;
    }
    WalkEnds(cursor, end, pass, |before|, fetched, done);
    err := None;
  }

  /**
   * One turn of that loop: the pass for the cursor, its requested date and
   * events added to those so far; an error is where the walk ends.
   */
  method WalkOn(cursor: int, start: int, end: int, cal: Calendar, fetch: Fetch, stamps: Stamps,
                ghost handle: GroupHandler, ghost pass: WeekHandler,
                ghost before: seq<Event>, fetched: seq<int>, ghost done: seq<Event>)
    returns (fetched': seq<int>, err: Option<Error>, ghost done': seq<Event>)
    requires cursor < end + 7
    requires HandlesGroups(handle, start, end, stamps) && HandlesWeeks(pass, fetch, handle)
    requires cal.components == before + done
    requires WalkFrom(start, end, pass, |before|) == After(fetched, done, WalkFrom(cursor, end, pass, |before| + |done|))
    modifies cal
    ensures cal.properties == old(cal.properties)
    ensures cal.components == before + done'
    ensures err.Some? ==> WalkFrom(start, end, pass, |before|) == Walked(fetched', done', err)
    ensures err.None? ==>
      WalkFrom(start, end, pass, |before|) == After(fetched', done', WalkFrom(cursor + 7, end, pass, |before| + |done'|))
  {
    ghost var week := pass(cursor, |before| + |done|);
    var requested;
    requested, err := WalkWeek(cursor, start, end, cal, fetch, stamps, handle, pass);
    AppendTwice(before, done, week.events);
    WalkStep(start, cursor, end, pass, |before|, fetched, done);
    fetched' := fetched + requested;
    done' := done + week.events;
  }

  /**
   * One pass of the while loop (lines 39-70): the week shown, the page
   * request, the day groups; requested is the cursor when its page was
   * requested.
   */
  method WalkWeek(cursor: int, start: int, end: int, cal: Calendar, fetch: Fetch, stamps: Stamps,
                  ghost handle: GroupHandler, ghost pass: WeekHandler)
    returns (requested: seq<int>, err: Option<Error>)
    requires HandlesGroups(handle, start, end, stamps) && HandlesWeeks(pass, fetch, handle)
    modifies cal
    ensures cal.properties == old(cal.properties)
    ensures var w := pass(cursor, |old(cal.components)|);
      cal.components == old(cal.components) + w.events && requested == w.fetched && err == w.err
  {
    assert pass(cursor, |cal.components|) == WeekOf(cursor, fetch, handle, |cal.components|);
    if WeekSunday(cursor) > MaxOrdinal {
      return [], Some(DateOutOfRange);
    }
    var shown := ShownWeek(cursor, start, end);
    var page := fetch(cursor);
    if page.Failure? {
      return [cursor], Some(page.error);
    }
    err := AddGroupsEvents(page.value, start, end, cal, stamps, handle);
    if err.None? && cursor + 7 > MaxOrdinal {
      err := Some(DateOutOfRange);
    }
    requested := [cursor];
  }

  /** A pass moves its cursors and events into those so far; an error ends the walk there. */
  lemma WalkStep(start: int, cursor: int, end: int, pass: WeekHandler, m: nat, fetched: seq<int>, done: seq<Event>)
    requires cursor < end + 7
    requires WalkFrom(start, end, pass, m) == After(fetched, done, WalkFrom(cursor, end, pass, m + |done|))
    ensures var week := pass(cursor, m + |done|);
      week.err.Some? ==> WalkFrom(start, end, pass, m) == Walked(fetched + week.fetched, done + week.events, week.err)
    ensures var week := pass(cursor, m + |done|);
      week.err.None? ==>
        WalkFrom(start, end, pass, m)
          == After(fetched + week.fetched, done + week.events, WalkFrom(cursor + 7, end, pass, m + |done + week.events|))
  {
    var week := pass(cursor, m + |done|);
    if week.err.None? {
      var rest := WalkFrom(cursor + 7, end, pass, m + |done| + |week.events|);
      assert fetched + (week.fetched + rest.fetched) == (fetched + week.fetched) + rest.fetched;
      assert done + (week.events + rest.events) == (done + week.events) + rest.events;
    }
  }

  /** Once the cursor reaches end + 7 days nothing more is fetched. */
  lemma WalkEnds(cursor: int, end: int, pass: WeekHandler, m: nat, fetched: seq<int>, done: seq<Event>)
    requires cursor >= end + 7
    ensures After(fetched, done, WalkFrom(cursor, end, pass, m + |done|)) == Walked(fetched, done, None)
  {
    assert fetched + [] == fetched && done + [] == done;
  }

  /**
   * export_calendar from line 25 to line 70: a fresh calendar with its
   * header, then the week walk over the window.
   */
  method ExportCalendar(start: int, end: int, fetch: Fetch, stamps: Stamps)
    returns (cal: Calendar, fetched: seq<int>, err: Option<Error>)
    requires InRange(start) && InRange(end)
    ensures fresh(cal)
    ensures cal.properties == CalendarHeader()
    ensures var w := ExportWeeks(start, end, fetch, stamps, 0);
      cal.components == w.events && fetched == w.fetched && err == w.err
  {
    cal := CreateAndInitializeCalendar();
    fetched, err := WalkWeeks(start, end, cal, fetch, stamps);
  }
}
