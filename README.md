# durham-university-mytimetable-exporter, modelled in Dafny

The exporter reads a student's weekly MyTimetable pages at Durham University and writes the activities
it finds as events of an iCalendar (RFC 5545) file. This project models and verifies its sequential core:

- **Text and answer helpers** (`utils.py`) are modelled in `TextUtils.dfy`:
  - `normalize_text` is modelled over Python's exact `str.split()` whitespace set;
  - the y/n reader `get_bool_from_str_input` returns `Result<bool, _>`.
- **Per-activity conversion** (`calendar_utils.py`) is modelled in `CalendarUtils.dfy`. It covers:
  - the calendar with its fixed header: PRODID, VERSION, CALSCALE and METHOD, sections 3.7.1 to 3.7.4
    of RFC 5545;
  - the scraper over an abstract activity node with its three content-label slots;
  - the `"HH:MM-HH:MM"` reader;
  - the map-link reader, which follows `urlparse`, `parse_qs` and `vGeo`'s two coordinates;
  - the event builder;
  - the loop over a day's activities, which appends events to the calendar in place.
- **The week walk** of `export_calendar` (`calendar_exporter.py`, lines 35-70) is modelled in
  `CalendarExporter.dfy`, and its guarantees are proved in `ExportProperties.dfy`. It covers:
  - a cursor date stepping a week at a time from the start date while before end + 7 days;
  - the Monday-Sunday week shown for the cursor, clipped to the window;
  - dating each day group from its `DD-MM-YYYY` anchor and weekday name;
  - skipping groups outside the window;
  - adding the rest to the calendar.
- **Supporting modules**:
  - `Dates.dfy` holds dates as Python `toordinal()` day numbers with `weekday()` and `datetime`'s year
    range 1-9999;
  - `Numerals.dfy` holds ASCII decimal fields;
  - `Wrappers.dfy` holds `Option` and `Result`.

Each Python exception that ends the run is an `Error` value. A function returns it in a `Result`; a
method returns it as an `Option<Error>`, together with what it appended before the error. The
timetable page for a cursor date is an input function `Fetch` from that date to the page's day groups,
or to a failure. `datetime.now()` and `uuid.uuid4()` are an input `Stamps`: the timestamp and UID given
to the n-th component added.

State that the source changes in place is imperative Dafny:
- the icalendar `Calendar` is a class whose `components` sequence the methods extend;
- the loop over activities, the loop over day groups and the week walk are `for` and `while` loops.

Each loop method is proved against a function of its inputs and the calendar's previous length:
- `ListEvents` for the activities;
- `EachGroup` / `PageEvents` for the day groups;
- `WalkFrom` / `ExportWeeks` for the weeks.

The properties are proved about those functions.

Where the code and a plain reading of it differ, the model follows the code:
- The DESCRIPTION's link line is written even when the activity has no link; the text is then `None`.
- The weekday name is matched case-insensitively, as `strptime("%A")` matches it.
- `get_bool_from_str_input` accepts exactly eight spellings. It accepts neither `"yes"` nor `"no"`.

## Model

| member | source | states |
|---|---|---|
| TextUtils.Split | durham-university-mytimetable-exporter/utils.py:2 | `str.split()`: every token is non-empty and free of whitespace |
| TextUtils.SplitJoinWords | durham-university-mytimetable-exporter/utils.py:2 | splitting a space-join of words gives the same words back |
| TextUtils.JoinWordsNormalized | durham-university-mytimetable-exporter/utils.py:2 | a space-join of words has no whitespace but single inner spaces |
| TextUtils.SplitEmptyIffAllSpace | durham-university-mytimetable-exporter/utils.py:2 | a text has no words exactly when it is all whitespace |
| TextUtils.SplitKeepsText | durham-university-mytimetable-exporter/utils.py:2 | the words of `str.split()`, run together, are the text with its whitespace removed: only whitespace is lost, and nothing is reordered |
| TextUtils.JoinWordsKeepsText | durham-university-mytimetable-exporter/utils.py:2 | a single-space join of words, with its spaces removed, is the words run together |
| TextUtils.NormalizeText | durham-university-mytimetable-exporter/utils.py:1-2 | `normalize_text`, defined as the single-space join of the words of `Split`; it has no contract of its own, and its properties are the lemmas NormalizeTextIsNormalized, NormalizeTextKeepsWords, NormalizeTextKeepsText, NormalizeTextIdempotent and NormalizeTextEmpty |
| TextUtils.NormalizeTextIsNormalized | durham-university-mytimetable-exporter/utils.py:1-2 | the output has no leading or trailing whitespace, no two whitespace characters in a row, and no whitespace but the plain space |
| TextUtils.NormalizeTextKeepsWords | durham-university-mytimetable-exporter/utils.py:1-2 | the words of the output are the words of the input, in order |
| TextUtils.NormalizeTextKeepsText | durham-university-mytimetable-exporter/utils.py:1-2 | the output with its whitespace removed equals the input with its whitespace removed: `normalize_text` changes only whitespace |
| TextUtils.NormalizeTextIdempotent | durham-university-mytimetable-exporter/utils.py:1-2 | normalizing twice equals normalizing once |
| TextUtils.NormalizeTextEmpty | durham-university-mytimetable-exporter/utils.py:1-2 | the output is empty exactly when the input is empty or all whitespace |
| TextUtils.GetBoolFromStrInput | durham-university-mytimetable-exporter/utils.py:5-13 | true exactly for "YES", "Yes", "Y", "y"; false exactly for "NO", "No", "N", "n"; any other string is the ValueError |
| TextUtils.AcceptedAnswerFollowsInitial | durham-university-mytimetable-exporter/utils.py:6-9 | an accepted answer has 1 to 3 characters, and its first letter decides it: y/Y yes, n/N no |
| TextUtils.RejectedAnswers | durham-university-mytimetable-exporter/utils.py:10-11 | "yes", "no", "" and "N " are rejected |
| Numerals.ParseNat | durham-university-mytimetable-exporter/calendar_utils.py:80-82 | `int()` of a token succeeds exactly on a non-empty string of decimal digits, and then gives their decimal value, most significant digit first |
| Numerals.LeadingZeroValue | durham-university-mytimetable-exporter/calendar_utils.py:80-82 | a leading zero does not change the value of a digit string |
| Numerals.ParseNatLeadingZero | durham-university-mytimetable-exporter/calendar_utils.py:80-82 | `int("0" + s) == int(s)` for every non-empty ASCII digit string s, so a zero-padded field such as "08" reads as 8 |
| Dates.DaysInMonth | durham-university-mytimetable-exporter/calendar_exporter.py:61 | month lengths of the proleptic Gregorian calendar `strptime` checks a day against: 28 to 31 |
| Dates.DaysBeforeMonth | durham-university-mytimetable-exporter/calendar_exporter.py:61 | days of the months before a month; with the month's own days it stays within the year |
| Dates.DaysBeforeNextMonth | durham-university-mytimetable-exporter/calendar_exporter.py:61 | the table of days before each month agrees with the month lengths |
| Dates.Weekday | durham-university-mytimetable-exporter/calendar_exporter.py:39-41 | `date.weekday()` of a day: a number from 0 (Monday) to 6 (Sunday) |
| Dates.OrdinalInRange | durham-university-mytimetable-exporter/calendar_exporter.py:61 | every valid `DD-MM-YYYY` date is a day `datetime` can hold |
| Dates.WeekdayShift | durham-university-mytimetable-exporter/calendar_exporter.py:70 | a day seven days on (or back) falls on the same weekday |
| Dates.MondayAndSunday | durham-university-mytimetable-exporter/calendar_exporter.py:39-42 | stepping back by the weekday lands on a Monday; stepping on by 6 minus it lands on a Sunday |
| Dates.DaysAfterMonday | durham-university-mytimetable-exporter/calendar_exporter.py:61 | the k-th day after a Monday is weekday k |
| Dates.MondayInRange | durham-university-mytimetable-exporter/calendar_exporter.py:39 | day 1 is a Monday, so the Monday of a representable day is representable |
| Dates.KnownMonday | durham-university-mytimetable-exporter/calendar_exporter.py:39 | 8 January 2024 is ordinal 738893 and a Monday |
| Dates.MaxOrdinalIsLastDay | durham-university-mytimetable-exporter/calendar_exporter.py:37 | the last representable day, 9999-12-31, is ordinal 3652059 |
| CalendarUtils.Calendar.constructor | durham-university-mytimetable-exporter/calendar_utils.py:18 | a new calendar has no properties and no components |
| CalendarUtils.Calendar.Add | durham-university-mytimetable-exporter/calendar_utils.py:21-24 | `cal.add` appends one property and leaves the components alone |
| CalendarUtils.Calendar.AddComponent | durham-university-mytimetable-exporter/calendar_utils.py:173 | `cal.add_component` appends one event and leaves the properties alone |
| CalendarUtils.CalendarHeader | durham-university-mytimetable-exporter/calendar_utils.py:20-24 | the header is exactly PRODID `-//sglre6355//durham-university-mytimetable-exporter//EN`, VERSION "2.0", CALSCALE "GREGORIAN", METHOD "PUBLISH", in that order |
| CalendarUtils.CreateAndInitializeCalendar | durham-university-mytimetable-exporter/calendar_utils.py:17-26 | a fresh calendar holding exactly that header and no components |
| CalendarUtils.ScrapeActivityProperties | durham-university-mytimetable-exporter/calendar_utils.py:39-74 | succeeds exactly when every div it reads is present, including the location link's href when there is a link; otherwise fails; the link is the href, untouched |
| CalendarUtils.NormalizedFrom | durham-university-mytimetable-exporter/calendar_utils.py:40-65 | a scraped text is normalized and has the words of the div's text |
| CalendarUtils.ScrapedFieldsNormalized | durham-university-mytimetable-exporter/calendar_utils.py:39-74 | type, time, title, location name and staff are the normalized texts of the type div, the time div and the elements after the first three content labels |
| CalendarUtils.ConvertActivityTimeToDateTime | durham-university-mytimetable-exporter/calendar_utils.py:77-87 | succeeds exactly when the text, with `:` and `-` read as spaces, splits into four integers that form valid times; start and end are on the given date with hour and minute from tokens 1-2 and 3-4; fewer or more tokens, or a non-number, is one error, an hour or minute out of range is another |
| CalendarUtils.TimeRangeRoundTrip | durham-university-mytimetable-exporter/calendar_utils.py:77-87 | reading a formatted `HH:MM-HH:MM` range gives back its four numbers on the given date |
| CalendarUtils.FormattedTimeTokens | durham-university-mytimetable-exporter/calendar_utils.py:81 | a formatted range splits into its four two-digit tokens |
| CalendarUtils.EndBeforeStartKept | durham-university-mytimetable-exporter/calendar_utils.py:84-85 | an end earlier than the start (23:00-01:30) is accepted and left earlier |
| CalendarUtils.ConvertActivityLocationUrlToGeo | durham-university-mytimetable-exporter/calendar_utils.py:90-97 | succeeds exactly when the link has a `query` parameter with at least two tokens after commas become spaces, and gives the first two; no `query` parameter is the KeyError, fewer tokens the vGeo error |
| CalendarUtils.UrlQuery | durham-university-mytimetable-exporter/calendar_utils.py:92 | `urlparse(url).query`, defined as the text after the first `?` of the part before the first `#`, once tab, CR and LF are removed, or empty; it has no contract of its own, and UrlQueryAfterMark and NoQueryNoGeo state its properties |
| CalendarUtils.UrlQueryAfterMark | durham-university-mytimetable-exporter/calendar_utils.py:92 | `urlparse(url).query` is what follows the `?` when no `#` comes before it |
| CalendarUtils.FirstQueryValue | durham-university-mytimetable-exporter/calendar_utils.py:92 | `parse_qs(query)[key][0]`, defined as the decoded value of the first `name=value` field whose decoded name is the key, where fields without `=` or with an empty value are dropped; it has no contract of its own, and SingleQueryField states its property |
| CalendarUtils.QueryParameter | durham-university-mytimetable-exporter/calendar_utils.py:92 | the query of a link split at `&` and looked up with FirstQueryValue; an empty query has no parameter; it has no contract of its own, and QueryOfMapLink and NoQueryNoGeo state its properties |
| CalendarUtils.SingleQueryField | durham-university-mytimetable-exporter/calendar_utils.py:92 | `parse_qs` of a single `key=value` field gives that value for that key |
| CalendarUtils.QueryOfMapLink | durham-university-mytimetable-exporter/calendar_utils.py:92 | a link `base?query=value` has `value` as its `query` parameter |
| CalendarUtils.CoordinatePair | durham-university-mytimetable-exporter/calendar_utils.py:93-94 | "lat,lon" splits into the two coordinates |
| CalendarUtils.GeoRoundTrip | durham-university-mytimetable-exporter/calendar_utils.py:90-97 | a map link `base?query=lat,lon` gives back `[lat, lon]` |
| CalendarUtils.GeoOfQueryValue | durham-university-mytimetable-exporter/calendar_utils.py:90-97 | a link whose `query` value splits into exactly two tokens converts to those two tokens |
| CalendarUtils.NoQueryNoGeo | durham-university-mytimetable-exporter/calendar_utils.py:92 | a link without `?` has no `query` parameter and is the KeyError |
| CalendarUtils.CreateEventAndSetProperties | durham-university-mytimetable-exporter/calendar_utils.py:100-131 | the event's properties are DTSTAMP, UID, SUMMARY, DTSTART, DTEND, TRANSP, LOCATION, then GEO only when a geo is given, then DESCRIPTION |
| CalendarUtils.CreatedEventTimes | durham-university-mytimetable-exporter/calendar_utils.py:113-119 | DTSTAMP and UID are the given stamps; DTSTART and DTEND are the given times, unchanged |
| CalendarUtils.CreatedEventTexts | durham-university-mytimetable-exporter/calendar_utils.py:116-122 | SUMMARY is exactly "{title} ({type})", TRANSP is "OPAQUE", LOCATION is the location name |
| CalendarUtils.CreatedEventDescription | durham-university-mytimetable-exporter/calendar_utils.py:126-129 | DESCRIPTION is exactly "With {staff}\n\n<a href={url}>View {name} on Google Maps</a>", with "None" when there is no link |
| CalendarUtils.CreatedEventGeo | durham-university-mytimetable-exporter/calendar_utils.py:123-124 | GEO is present exactly when a geo is given, and is that geo |
| CalendarUtils.CreatedEventStartDay | durham-university-mytimetable-exporter/calendar_utils.py:118 | an event starts on the day of its start time |
| CalendarUtils.BuildEvent | durham-university-mytimetable-exporter/calendar_utils.py:144-171 | building an activity's event on a date fails on a malformed activity; when it succeeds, the event starts on that date |
| CalendarUtils.BuildEventGeoAndUid | durham-university-mytimetable-exporter/calendar_utils.py:157-171 | a built event has GEO exactly when its link is a non-empty string, that GEO holds the coordinates `convert_activity_location_url_to_geo` reads from the link, and the UID is the one drawn for its position |
| CalendarUtils.LinkGeo | durham-university-mytimetable-exporter/calendar_utils.py:157-160 | the geo is read only for a non-empty link, and is then exactly what `convert_activity_location_url_to_geo` gives; it fails exactly when that read fails, with that read's error |
| CalendarUtils.BuildEventStopsAtScrape | durham-university-mytimetable-exporter/calendar_utils.py:144-151 | a scraping failure is the activity's failure |
| CalendarUtils.BuildEventStopsAtTime | durham-university-mytimetable-exporter/calendar_utils.py:153-155 | with scraping done, a bad time range is the activity's failure |
| CalendarUtils.BuildEventStopsAtGeo | durham-university-mytimetable-exporter/calendar_utils.py:157-158 | with the times read, a bad map link is the activity's failure |
| CalendarUtils.BuildEventSucceeds | durham-university-mytimetable-exporter/calendar_utils.py:144-171 | otherwise the event is the one created from the scraped fields, the times, the geo and the stamps for its position |
| CalendarUtils.Collect | durham-university-mytimetable-exporter/calendar_utils.py:139-173 | the loop over activities with any builder, defined as one event per activity up to the first "no activity" marker, stopping at the first error; it has no contract of its own, and CollectCount, CollectInOrder, CollectError, CollectBuiltThenStop and CollectBuiltThenFail state its properties |
| CalendarUtils.ListEvents | durham-university-mytimetable-exporter/calendar_utils.py:139-173 | what `add_events_from_activity_list` appends for a date: Collect with the event builder of that date; it has no contract of its own, and ListEventsOnDate and AddEventsFromActivityList state its properties |
| CalendarUtils.FirstMarker | durham-university-mytimetable-exporter/calendar_utils.py:139-142 | the position of the first "no activity" marker: none before it |
| CalendarUtils.CollectCount | durham-university-mytimetable-exporter/calendar_utils.py:139-173 | the loop appends at most one event per activity before the first marker, and exactly that many when nothing fails |
| CalendarUtils.CollectInOrder | durham-university-mytimetable-exporter/calendar_utils.py:139-173 | the k-th appended event is the one built from the k-th activity as component n + k |
| CalendarUtils.CollectError | durham-university-mytimetable-exporter/calendar_utils.py:139-173 | a failure is that of the activity right after the events appended |
| CalendarUtils.ListEventsOnDate | durham-university-mytimetable-exporter/calendar_utils.py:153-155 | every event appended for a date starts on that date |
| ExportProperties.ListedOnDay | durham-university-mytimetable-exporter/calendar_utils.py:153-155 | all the events appended for a date start on that date |
| CalendarUtils.CollectBuiltThenStop | durham-university-mytimetable-exporter/calendar_utils.py:139-142 | events built in order up to a marker or the end are exactly what the loop appends |
| CalendarUtils.CollectBuiltThenFail | durham-university-mytimetable-exporter/calendar_utils.py:139-173 | events built in order, then one activity that fails, are what the loop appends, with that failure |
| CalendarUtils.AddEventsFromActivityList | durham-university-mytimetable-exporter/calendar_utils.py:134-173 | the calendar's components become the old ones followed by the events listed for the date; its properties are unchanged; the error is the list's |
| CalendarUtils.AppendActivityEvents | durham-university-mytimetable-exporter/calendar_utils.py:139-173 | the `for` loop with `break`, against any builder that agrees with the event builder |
| CalendarUtils.AppendActivityEvent | durham-university-mytimetable-exporter/calendar_utils.py:144-173 | one pass: exactly one event appended on success, nothing on failure |
| CalendarExporter.LowerAsciiString | durham-university-mytimetable-exporter/calendar_exporter.py:60 | the case folding `%A` applies: every ASCII capital letter is lowered, every other character is kept, and the length is unchanged |
| CalendarExporter.ParseWeekdayName | durham-university-mytimetable-exporter/calendar_exporter.py:60 | `strptime(day, "%A").tm_wday`: a weekday number below 7, or the ValueError |
| CalendarExporter.WeekdayNameRejects | durham-university-mytimetable-exporter/calendar_exporter.py:60 | a day name fails exactly when it is not a full English weekday name, ignoring case; when it succeeds, its number names it |
| CalendarExporter.WeekdayNameRoundTrip | durham-university-mytimetable-exporter/calendar_exporter.py:60 | each weekday name, in any case, reads back as its own number |
| CalendarExporter.FieldValue | durham-university-mytimetable-exporter/calendar_exporter.py:61 | a `%d` or `%m` field has a value from 1 to 31 (months to 12) |
| CalendarExporter.ParseAnchor | durham-university-mytimetable-exporter/calendar_exporter.py:58-61 | `strptime(id[:10], "%d-%m-%Y")`: a representable day, or the ValueError |
| CalendarExporter.AnchorFromFields | durham-university-mytimetable-exporter/calendar_exporter.py:61 | a date from the three fields is representable and they fit in ten characters |
| CalendarExporter.AnchorSplits | durham-university-mytimetable-exporter/calendar_exporter.py:61 | a `day-month-year` text splits at its dashes into its three fields |
| CalendarExporter.AnchorRoundTrip | durham-university-mytimetable-exporter/calendar_exporter.py:61 | the `DD-MM-YYYY` text of every valid date reads back as that date |
| CalendarExporter.AnchorRejectsMissingDate | durham-university-mytimetable-exporter/calendar_exporter.py:61 | a day past the end of its month, or year 0, is rejected |
| CalendarExporter.AnchorRejectsYearFirst | durham-university-mytimetable-exporter/calendar_exporter.py:61 | a `YYYY-MM-DD` text is rejected |
| CalendarExporter.ResolveGroupDate | durham-university-mytimetable-exporter/calendar_exporter.py:58-61 | a group's date is the anchor plus the weekday number, so it lies in [anchor, anchor + 6]; it fails exactly when either part fails or the sum leaves the range; a bad weekday name is its own error |
| CalendarExporter.GroupDateOnNamedWeekday | durham-university-mytimetable-exporter/calendar_exporter.py:58-61 | when the anchor is a Monday, the date falls on the named weekday |
| CalendarExporter.IdParts | durham-university-mytimetable-exporter/calendar_exporter.py:58-59 | `id[:10]` and `id[11:]` of an anchor, one separator and a name are that anchor and that name |
| CalendarExporter.GroupIdRoundTrip | durham-university-mytimetable-exporter/calendar_exporter.py:58-61 | an id made of a ten-character anchor text that reads as day a (as "DD-MM-YYYY" of any real date does, by AnchorRoundTrip), one separator character and a weekday name of index k resolves to day a + k |
| CalendarExporter.ResolveFromParts | durham-university-mytimetable-exporter/calendar_exporter.py:60-61 | when both parts read, the date is their sum |
| CalendarExporter.WeekMonday | durham-university-mytimetable-exporter/calendar_exporter.py:39 | the Monday of the cursor's week: a Monday, at most six days before the cursor |
| CalendarExporter.WeekSunday | durham-university-mytimetable-exporter/calendar_exporter.py:40-42 | the Sunday of the cursor's week: a Sunday, at most six days after the cursor, six days after its Monday |
| CalendarExporter.ShownWeek | durham-university-mytimetable-exporter/calendar_exporter.py:39-47 | the clipped week lies within [start, end] and holds exactly the days of the cursor's week inside the window |
| CalendarExporter.CursorsFrom | durham-university-mytimetable-exporter/calendar_exporter.py:37-70 | the cursors visited: the first one plus 7k for each k, as many as fit before end + 7 days |
| CalendarExporter.GroupEvents | durham-university-mytimetable-exporter/calendar_exporter.py:58-67 | one day group, defined as: no id or a bad id aborts, a date outside [start, end] adds nothing, otherwise the activities that follow are listed for the date; it has no contract of its own: AddDayGroupEvents is proved against it, and GroupEventsInWindow, GroupOutsideWindowSkipped and BadIdAbortsPage state its properties |
| CalendarExporter.EachGroup | durham-university-mytimetable-exporter/calendar_exporter.py:57-67 | the loop over a page's groups with any handler, defined as each group's events in order, stopping at the first error; it has no contract of its own: AddGroupsEvents is proved against it, and EachGroupInWindow, EachGroupSkips and EachGroupAborts state its properties |
| CalendarExporter.PageEvents | durham-university-mytimetable-exporter/calendar_exporter.py:57-67 | EachGroup with GroupEvents for the window; it has no contract of its own: AddPageEvents is proved against it |
| CalendarExporter.WeekOf | durham-university-mytimetable-exporter/calendar_exporter.py:39-70 | one pass of the while loop, defined as: an OverflowError when the week's Sunday leaves datetime's range, before the request; then the request, whose failure ends the pass; then the page's groups; then an OverflowError when the next cursor leaves the range; it has no contract of its own: WalkWeek is proved against it, and WeekInWindow, WeekFetchesCursor and WeekAborts state its properties |
| CalendarExporter.WalkFrom | durham-university-mytimetable-exporter/calendar_exporter.py:37-70 | the while loop from a cursor with any pass, defined as one pass per cursor while before end + 7 days, stopping at the first error; it has no contract of its own: WalkWeeksFrom is proved against it, and WalkInWindow, WalkFetchesCursors, LastCursor and WalkAbortsAt state its properties |
| CalendarExporter.ExportWeeks | durham-university-mytimetable-exporter/calendar_exporter.py:35-70 | the walk from the start date, defined as an OverflowError when end + 7 days leaves datetime's range, before any request, and WalkFrom otherwise; it has no contract of its own: WalkWeeks and ExportCalendar are proved against it, and EventsInWindow, ExportFetchesCursors, ExportCoversWindow, SingleWeekWindow, BadIdAbortsRun and BadIdAbortsAt state its properties |
| CalendarExporter.AddDayGroupEvents | durham-university-mytimetable-exporter/calendar_exporter.py:58-67 | one day group: a missing id or a bad id aborts, a date outside the window adds nothing, otherwise the date's activities are added; the result is as the group function says |
| CalendarExporter.AddPageEvents | durham-university-mytimetable-exporter/calendar_exporter.py:57-67 | the loop over one page's day groups appends exactly what `PageEvents` lists and stops at its error |
| CalendarExporter.AddGroupsEvents | durham-university-mytimetable-exporter/calendar_exporter.py:57-67 | that loop against any handler agreeing with the group function |
| CalendarExporter.AddGroupOn | durham-university-mytimetable-exporter/calendar_exporter.py:57-67 | one turn of that loop appends the group's events; a failing group ends the loop with the result the group function gives, otherwise the rest of the page follows |
| CalendarExporter.WalkWeeks | durham-university-mytimetable-exporter/calendar_exporter.py:35-70 | the while loop appends to the calendar exactly the events of `ExportWeeks`, requests exactly its dates, and ends with its error |
| CalendarExporter.WalkWeeksFrom | durham-university-mytimetable-exporter/calendar_exporter.py:37-70 | that loop, once end + 7 days is in range, against the walk function |
| CalendarExporter.WalkOn | durham-university-mytimetable-exporter/calendar_exporter.py:39-70 | one turn of the loop moves one pass's requests and events into those so far |
| CalendarExporter.WalkWeek | durham-university-mytimetable-exporter/calendar_exporter.py:39-70 | one pass: the Sunday overflow, the request, the day groups and the overflow of the next cursor, as `WeekOf` states them |
| CalendarExporter.ExportCalendar | durham-university-mytimetable-exporter/calendar_exporter.py:25-70 | a fresh calendar with the header whose components, requests and error are those of `ExportWeeks` from no components |
| ExportProperties.GroupEventsInWindow | durham-university-mytimetable-exporter/calendar_exporter.py:58-67 | every event a day group adds starts in [start, end]; all of them start on the date the group's id resolves to; and a group that adds any event has an id that resolves to a date inside the window |
| ExportProperties.EachGroupInWindow | durham-university-mytimetable-exporter/calendar_exporter.py:57-67 | the page loop keeps events in the window when each group does |
| ExportProperties.WeekInWindow | durham-university-mytimetable-exporter/calendar_exporter.py:54-67 | a pass keeps events in the window when each group does |
| ExportProperties.WalkInWindow | durham-university-mytimetable-exporter/calendar_exporter.py:37-70 | the walk keeps events in the window when each pass does |
| ExportProperties.EventsInWindow | durham-university-mytimetable-exporter/calendar_exporter.py:35-70 | no exported event starts outside [start, end] |
| ExportProperties.NothingFromEmptyWindow | durham-university-mytimetable-exporter/calendar_exporter.py:63-64 | when start > end no event is exported |
| ExportProperties.EachGroupSkips | durham-university-mytimetable-exporter/calendar_exporter.py:63-64 | a group that adds nothing and raises nothing leaves the rest of the page as if it were absent |
| ExportProperties.GroupOutsideWindowSkipped | durham-university-mytimetable-exporter/calendar_exporter.py:63-64 | a group dated outside the window is passed over: the page gives what it gives without it |
| ExportProperties.WeekFetchesCursor | durham-university-mytimetable-exporter/calendar_exporter.py:39-70 | a pass requests its own cursor's page and nothing else, unless its week overflows first; a pass without error always requests it |
| ExportProperties.WalkFetchesCursors | durham-university-mytimetable-exporter/calendar_exporter.py:37-70 | the pages requested are a prefix of the cursors from the first one a week apart, and all of them when the walk ends without error |
| ExportProperties.ExportFetchesCursors | durham-university-mytimetable-exporter/calendar_exporter.py:35-70 | the run requests a prefix of start, start + 7, ... before end + 7 days, and all of them when it ends without error |
| ExportProperties.LastCursor | durham-university-mytimetable-exporter/calendar_exporter.py:37-70 | within a week of the bound the walk is a single pass |
| ExportProperties.SingleWeekWindow | durham-university-mytimetable-exporter/calendar_exporter.py:35-70 | when end <= start < end + 7 (start == end in particular) exactly one page, start's, is requested, or none when end + 7 days or the Sunday of start's week leaves datetime's range; when start > end no event is added |
| ExportProperties.WeeksCoverWindow | durham-university-mytimetable-exporter/calendar_exporter.py:37-70 | every day of [start, end] lies in the Monday-Sunday week of some cursor |
| ExportProperties.ExportCoversWindow | durham-university-mytimetable-exporter/calendar_exporter.py:37-70 | a run that ends without error has requested a page whose week holds each day of the window |
| ExportProperties.EachGroupAborts | durham-university-mytimetable-exporter/calendar_exporter.py:57-67 | a group that fails aborts the loop over its page |
| ExportProperties.BadIdAbortsPage | durham-university-mytimetable-exporter/calendar_exporter.py:58-61 | a group whose id does not resolve to a date aborts its page |
| ExportProperties.BadIdAbortsRun | durham-university-mytimetable-exporter/calendar_exporter.py:35-61 | for any start before end + 7 days, a group whose id does not resolve on the start date's page ends the run with an error, after that one request, or none when end + 7 days or the Sunday of start's week leaves datetime's range |
| ExportProperties.WalkAbortsAt | durham-university-mytimetable-exporter/calendar_exporter.py:37-70 | a pass that fails whatever precedes it ends the walk with an error once its cursor is requested, and that request is the last one |
| ExportProperties.WalkAbortsOnPage | durham-university-mytimetable-exporter/calendar_exporter.py:37-70 | with the exporter's weekly pass and any group handler, a group on a requested page that always fails ends the walk with an error, and that page's request is the last one |
| ExportProperties.WeekAborts | durham-university-mytimetable-exporter/calendar_exporter.py:54-67 | a pass whose page holds a group that fails whatever precedes it fails too |
| ExportProperties.BadIdAbortsAt | durham-university-mytimetable-exporter/calendar_exporter.py:37-70 | a group whose id does not resolve, on the page of ANY cursor the run requests, ends the run with an error, and that request is the run's last one |

## Left out

- `web_scraping_utils.py` is not part of this model. It covers the session token, its `.env` file, HTTP requests, BeautifulSoup parsing and the authentication check. The page for a date is the input `Fetch`, and a failed request is its `Failure`.
- `get_start_and_end_dates`, the filename prompt and the other interactive prompts are left out. They are I/O. The window arrives as two day numbers, already parsed.
- `time.sleep`, the progress line on stdout and its `strftime` formatting are left out, because they are output and pacing. The clipped week is computed (`ShownWeek`) but not printed.
- Writing the `.ics` file and icalendar's `to_ical` serialization are left out. The model stops at the calendar's property and component lists.
- `datetime.now()` and `uuid.uuid4()` are left out as sources; they are the input `Stamps`, indexed by the component's position.
- HTML traversal (`find`, `find_all`, `find_next_sibling`, `.a["href"]`) is left out. An activity is an abstract node: the "no activity" marker, the type and time divs, and the element after each content label. A day group is its id and the activities that follow it.
- CalendarUtils.ConvertActivityLocationUrlToGeo: vGeo's float conversion of the two coordinates is left out, because it is floating point in a foreign library. GEO keeps the first two tokens as text, so a token `float()` refuses, which raises the ValueError in the source, is accepted here.
- CalendarUtils.ConvertActivityTimeToDateTime: `int()` is modelled on ASCII digits only, with no sign, underscores or non-ASCII digits. Tokens never hold whitespace, since they come out of `split()`.
- CalendarExporter.ParseAnchor: `%d`, `%m` and `%Y` accept only ASCII digits here, where the pattern `strptime` builds also accepts other Unicode decimal digits.
- CalendarExporter.ParseWeekdayName: `%A` is the English (C locale) day names with ASCII case folding. Other locales, and Unicode case folds of those names, are not modelled.
- CalendarUtils.ConvertActivityLocationUrlToGeo: only percent escapes of ASCII characters (below `%80`) are decoded. UTF-8 multi-byte escapes are left as written. `urlsplit`'s errors on malformed network locations are not modelled.
- Week steps, the Sunday of a week and a group's date are checked against `datetime`'s upper limit, as an OverflowError. Python's own 64-bit limits inside `timedelta` are never reached below that limit.
