/**
 * Per-activity conversion (calendar_utils.py): the calendar with its fixed
 * RFC 5545 header, the scraper over one activity, the time-range and
 * map-link readers, the event builder, and the loop that turns a day's list
 * of activities into events appended to the calendar.
 */
module CalendarUtils {
  import opened Wrappers
  import opened Numerals
  import opened TextUtils
  import opened Dates

  /** The exceptions that abort an export, by cause. */
  datatype Error =
    | MalformedActivity   // a div the scraper reads is missing (AttributeError, IndexError, KeyError)
    | MalformedTimeRange  // the time text is not four integers (ValueError from int() or unpacking)
    | TimeOutOfRange      // datetime.replace rejects an hour or a minute (ValueError)
    | MissingGeoQuery     // the map link has no "query" parameter (KeyError)
    | InvalidGeo          // vGeo is given fewer than two coordinates (ValueError)
    | UnknownDayName      // strptime(day, "%A") fails (ValueError)
    | InvalidAnchorDate   // strptime(anchor, "%d-%m-%Y") fails (ValueError)
    | DateOutOfRange      // date arithmetic leaves datetime's range (OverflowError)
    | MalformedDayGroup   // a day title without an id, or without a list after it (KeyError, AttributeError)
    | FetchFailed         // the page request fails

  /** A naive datetime: a day ordinal and a time of day (seconds are always 0 here). */
  datatype DateTime = DateTime(day: int, hour: nat, minute: nat)

  /** Strictly earlier, as datetimes compare. */
  predicate Before(a: DateTime, b: DateTime) {
    a.day < b.day || (a.day == b.day && (a.hour < b.hour || (a.hour == b.hour && a.minute < b.minute)))
  }

  // ---- iCalendar values -----------------------------------------------------

  /** A property value: text, a date-time, or the GEO coordinate tokens. */
  datatype Value = Text(text: string) | Stamp(at: DateTime) | Geo(coordinates: seq<string>)

  /** The iCalendar properties this exporter sets. */
  datatype PropName =
    | ProdId | Version | CalScale | Method
    | DtStamp | Uid | Summary | DtStart | DtEnd | Transp | Location | GeoName | DescriptionName

  /** A property under its name. */
  datatype Property = Property(name: PropName, value: Value)

  /** A VEVENT: its properties in the order they were added. */
  datatype Event = Event(properties: seq<Property>)

  /** The value stored under a name: the first property with that name. */
  function Lookup(props: seq<Property>, name: PropName): Option<Value> {
    if props == [] then None
    else if props[0].name == name then Some(props[0].value)
    else Lookup(props[1..], name)
  }

  /** Lookup finds the first property carrying the name. */
  lemma {:induction false} LookupFirst(props: seq<Property>, name: PropName, k: nat)
    requires k < |props| && props[k].name == name
    requires forall j :: 0 <= j < k ==> props[j].name != name
    ensures Lookup(props, name) == Some(props[k].value)
  {
    if k > 0 {
      LookupFirst(props[1..], name, k - 1);
    }
  }

  /** Lookup finds nothing under a name no property carries. */
  lemma {:induction false} LookupAbsent(props: seq<Property>, name: PropName)
    requires forall j :: 0 <= j < |props| ==> props[j].name != name
    ensures Lookup(props, name) == None
  {
    if props != [] {
      LookupAbsent(props[1..], name);
    }
  }

  function Names(props: seq<Property>): (ns: seq<PropName>)
    ensures |ns| == |props| && forall k :: 0 <= k < |props| ==> ns[k] == props[k].name
  {
    seq(|props|, k requires 0 <= k < |props| => props[k].name)
  }

  /** The day an event starts on, read back from its DTSTART. */
  function StartDay(e: Event): Option<int> {
    match Lookup(e.properties, DtStart)
    case Some(Stamp(at)) => Some(at.day)
    case _ => None
  }

  /** The calendar: its own properties and its components, each appended in place. */
  class Calendar {
    var properties: seq<Property>
    var components: seq<Event>

    constructor ()
      ensures properties == [] && components == []
    {
      properties := [];
      components := [];
    }

    /** Calendar.add: appends a property. */
    method Add(name: PropName, value: Value)
      modifies this
      ensures properties == old(properties) + [Property(name, value)]
      ensures components == old(components)
    {
      properties := properties + [Property(name, value)];
    }

    /** Calendar.add_component: appends an event. */
    method AddComponent(e: Event)
      modifies this
      ensures components == old(components) + [e]
      ensures properties == old(properties)
    {
      components := components + [e];
    }
  }

  const ProductId := "-//sglre6355//durham-university-mytimetable-exporter//EN"

  /**
   * The header every exported calendar carries: PRODID, VERSION, CALSCALE
   * and METHOD (sections 3.7.3, 3.7.4, 3.7.1 and 3.7.2 of RFC 5545).
   */
  function CalendarHeader(): (props: seq<Property>)
    ensures Names(props) == [ProdId, Version, CalScale, Method]
    ensures Lookup(props, ProdId) == Some(Text(ProductId))
    ensures Lookup(props, Version) == Some(Text("2.0"))
    ensures Lookup(props, CalScale) == Some(Text("GREGORIAN"))
    ensures Lookup(props, Method) == Some(Text("PUBLISH"))
  {
    var props := [
      Property(ProdId, Text(ProductId)),
      Property(Version, Text("2.0")),
      Property(CalScale, Text("GREGORIAN")),
      Property(Method, Text("PUBLISH")) ];
    LookupFirst(props, ProdId, 0);
    LookupFirst(props, Version, 1);
    LookupFirst(props, CalScale, 2);
    LookupFirst(props, Method, 3);
    props
  }

  /** create_and_initialize_calendar: a fresh, empty calendar with the fixed header. */
  method CreateAndInitializeCalendar() returns (cal: Calendar)
    ensures fresh(cal)
    ensures cal.properties == CalendarHeader()
    ensures cal.components == []
  {
    cal := new Calendar();
    cal.Add(ProdId, Text(ProductId));
    cal.Add(Version, Text("2.0"));
    cal.Add(CalScale, Text("GREGORIAN"));
    cal.Add(Method, Text("PUBLISH"));
  }

  // ---- scraping one activity ------------------------------------------------

  /** An <a> element; href is None when it has no href attribute. */
  datatype Anchor = Anchor(href: Option<string>)

  /** A div as the scraper reads it: its text and its first <a>, if any. */
  datatype Element = Element(text: string, anchor: Option<Anchor>)

  /**
   * One div.activity, reduced to what the scraper reads: whether it holds
   * the "activity-none" marker, its type-title and time divs (None when
   * absent) and, for each content label in document order, the element
   * right after it (None when the label has no next sibling).
   */
  datatype ActivityNode = ActivityNode(
    noneMarker: bool,
    typeTitle: Option<Element>,
    time: Option<Element>,
    labelSiblings: seq<Option<Element>>)

  /** The six fields scraped from one activity. */
  datatype Activity = Activity(
    activityType: string,
    time: string,
    title: string,
    locationName: string,
    locationUrl: Option<string>,
    staff: string)

  /** The shape scrape_activity_properties needs: every div it reads is there. */
  predicate WellShaped(node: ActivityNode) {
    && node.typeTitle.Some?
    && node.time.Some?
    && |node.labelSiblings| >= 3
    && node.labelSiblings[0].Some?
    && node.labelSiblings[1].Some?
    && node.labelSiblings[2].Some?
    && (node.labelSiblings[1].value.anchor.Some? ==> node.labelSiblings[1].value.anchor.value.href.Some?)
  }

  /**
   * scrape_activity_properties: type, time, then the elements after the
   * first three content labels (title, location, staff), each normalized;
   * the location link is the href of the location's first <a>, untouched.
   */
  function ScrapeActivityProperties(node: ActivityNode): (r: Result<Activity, Error>)
    ensures r.Success? <==> WellShaped(node)
    ensures r.Failure? ==> r.error == MalformedActivity
    ensures r.Success? ==>
      r.value.locationUrl ==
        (if node.labelSiblings[1].value.anchor.Some? then node.labelSiblings[1].value.anchor.value.href else None)
  {
    if !WellShaped(node) then Failure(MalformedActivity)
    else
      var location := node.labelSiblings[1].value;
      Success(Activity(
        NormalizeText(node.typeTitle.value.text),
        NormalizeText(node.time.value.text),
        NormalizeText(node.labelSiblings[0].value.text),
        NormalizeText(location.text),
        if location.anchor.Some? then location.anchor.value.href else None,
        NormalizeText(node.labelSiblings[2].value.text)))
  }

  /** A scraped text field: normalized, with the words of the element it was read from. */
  predicate ScrapedFrom(field: string, element: Element) {
    IsNormalized(field) && Split(field) == Split(element.text)
  }

  lemma NormalizedFrom(element: Element)
    ensures ScrapedFrom(NormalizeText(element.text), element)
  {
    NormalizeTextIsNormalized(element.text);
    NormalizeTextKeepsWords(element.text);
  }

  /**
   * Each text field is the normalized text of its element: type, time,
   * and the elements after the first, second and third content labels.
   */
  lemma ScrapedFieldsNormalized(node: ActivityNode)
    requires WellShaped(node)
    ensures var a := ScrapeActivityProperties(node).value;
      && ScrapedFrom(a.activityType, node.typeTitle.value)
      && ScrapedFrom(a.time, node.time.value)
      && ScrapedFrom(a.title, node.labelSiblings[0].value)
      && ScrapedFrom(a.locationName, node.labelSiblings[1].value)
      && ScrapedFrom(a.staff, node.labelSiblings[2].value)
  {
    NormalizedFrom(node.typeTitle.value);
    NormalizedFrom(node.time.value);
    NormalizedFrom(node.labelSiblings[0].value);
    NormalizedFrom(node.labelSiblings[1].value);
    NormalizedFrom(node.labelSiblings[2].value);
  }

  // ---- the time range -------------------------------------------------------

  /** s with every occurrence of one character replaced by another (str.replace). */
  function ReplaceChar(s: string, from: char, to: char): (r: string)
    ensures |r| == |s|
    ensures forall i :: 0 <= i < |s| ==> r[i] == if s[i] == from then to else s[i]
  {
    seq(|s|, i requires 0 <= i < |s| => if s[i] == from then to else s[i])
  }

  /** activity_time.replace(":", " ").replace("-", " ").split() */
  function TimeTokens(time: string): seq<string> {
    Split(ReplaceChar(ReplaceChar(time, ':', ' '), '-', ' '))
  }

  /** The tokens unpack into four integers. */
  predicate FourNumbers(tokens: seq<string>) {
    |tokens| == 4 && forall k :: 0 <= k < 4 ==> ParseNat(tokens[k]).Some?
  }

  predicate ValidTimeOfDay(hour: int, minute: int) {
    0 <= hour < 24 && 0 <= minute < 60
  }

  /** The k-th of the four numbers. */
  function TimeNumber(tokens: seq<string>, k: nat): nat
    requires FourNumbers(tokens) && k < 4
  {
    ParseNat(tokens[k]).value
  }

  /**
   * convert_activity_time_to_datetime: the four numbers are start hour,
   * start minute, end hour and end minute, each placed on the given day by
   * datetime.replace. An end before the start is kept as it is.
   */
  function ConvertActivityTimeToDateTime(time: string, date: int): (r: Result<(DateTime, DateTime), Error>)
    ensures r.Success? ==> r.value.0.day == date && r.value.1.day == date
    ensures var tokens := TimeTokens(time);
      r.Success? <==>
        && FourNumbers(tokens)
        && ValidTimeOfDay(TimeNumber(tokens, 0), TimeNumber(tokens, 1))
        && ValidTimeOfDay(TimeNumber(tokens, 2), TimeNumber(tokens, 3))
    ensures r.Failure? ==> (r.error == MalformedTimeRange <==> !FourNumbers(TimeTokens(time)))
    ensures r.Failure? ==> r.error in {MalformedTimeRange, TimeOutOfRange}
    ensures r.Success? ==> var tokens := TimeTokens(time);
      && r.value.0 == DateTime(date, TimeNumber(tokens, 0), TimeNumber(tokens, 1))
      && r.value.1 == DateTime(date, TimeNumber(tokens, 2), TimeNumber(tokens, 3))
  {
    var tokens := TimeTokens(time);
    if !FourNumbers(tokens) then Failure(MalformedTimeRange)
    else
      var startHour, startMinute := TimeNumber(tokens, 0), TimeNumber(tokens, 1);
      var endHour, endMinute := TimeNumber(tokens, 2), TimeNumber(tokens, 3);
      if !ValidTimeOfDay(startHour, startMinute) then Failure(TimeOutOfRange)
      else if !ValidTimeOfDay(endHour, endMinute) then Failure(TimeOutOfRange)
      else Success((DateTime(date, startHour, startMinute), DateTime(date, endHour, endMinute)))
  }

  /** The text "HH:MM-HH:MM" the timetable shows. */
  function FormatTimeRange(startHour: nat, startMinute: nat, endHour: nat, endMinute: nat): string
    requires ValidTimeOfDay(startHour, startMinute) && ValidTimeOfDay(endHour, endMinute)
  {
    Pad2(startHour) + ":" + Pad2(startMinute) + "-" + Pad2(endHour) + ":" + Pad2(endMinute)
  }

  lemma DigitsAreWord(s: string)
    requires s != [] && AllDigits(s)
    ensures IsWord(s)
  {
    forall i | 0 <= i < |s| ensures !IsSpace(s[i]) { assert IsDigit(s[i]); }
  }

  /** Reading back the timetable's own format gives the times on the given day. */
  lemma TimeRangeRoundTrip(startHour: nat, startMinute: nat, endHour: nat, endMinute: nat, date: int)
    requires ValidTimeOfDay(startHour, startMinute) && ValidTimeOfDay(endHour, endMinute)
    ensures ConvertActivityTimeToDateTime(FormatTimeRange(startHour, startMinute, endHour, endMinute), date)
         == Success((DateTime(date, startHour, startMinute), DateTime(date, endHour, endMinute)))
  {
    var words := [Pad2(startHour), Pad2(startMinute), Pad2(endHour), Pad2(endMinute)];
    FormattedTimeTokens(startHour, startMinute, endHour, endMinute);
    Pad2Value(startHour); Pad2Value(startMinute); Pad2Value(endHour); Pad2Value(endMinute);
    assert FourNumbers(words);
    assert TimeNumber(words, 0) == startHour && TimeNumber(words, 1) == startMinute;
    assert TimeNumber(words, 2) == endHour && TimeNumber(words, 3) == endMinute;
  }

  /** "HH:MM-HH:MM" splits into its four two-digit numerals. */
  lemma FormattedTimeTokens(startHour: nat, startMinute: nat, endHour: nat, endMinute: nat)
    requires ValidTimeOfDay(startHour, startMinute) && ValidTimeOfDay(endHour, endMinute)
    ensures TimeTokens(FormatTimeRange(startHour, startMinute, endHour, endMinute))
         == [Pad2(startHour), Pad2(startMinute), Pad2(endHour), Pad2(endMinute)]
  {
    var a, b, c, d := Pad2(startHour), Pad2(startMinute), Pad2(endHour), Pad2(endMinute);
    var text := FormatTimeRange(startHour, startMinute, endHour, endMinute);
    var words := [a, b, c, d];
    DigitsAreWord(a); DigitsAreWord(b); DigitsAreWord(c); DigitsAreWord(d);
    var joined := JoinWords(words);
    assert joined == a + " " + (b + " " + (c + " " + d)) by {
      assert words[1..] == [b, c, d] && words[1..][1..] == [c, d] && words[1..][1..][1..] == [d];
      assert JoinWords([d]) == d;
      assert JoinWords([c, d]) == c + " " + d;
      assert JoinWords([b, c, d]) == b + " " + (c + " " + d);
    }
    var replaced := ReplaceChar(ReplaceChar(text, ':', ' '), '-', ' ');
    assert replaced == joined by {
      assert |replaced| == 11 == |joined|;
      forall i | 0 <= i < 11 ensures replaced[i] == joined[i] {
        if i in {0, 1, 3, 4, 6, 7, 9, 10} {
          assert IsDigit(text[i]);
        }
      }
    }
    SplitJoinWords(words);
  }

  /** The source does not correct a range that ends before it starts (one ending past midnight). */
  lemma EndBeforeStartKept(date: int)
    ensures var r := ConvertActivityTimeToDateTime(FormatTimeRange(23, 0, 1, 30), date);
      r.Success? && Before(r.value.1, r.value.0)
  {
    TimeRangeRoundTrip(23, 0, 1, 30, date);
  }

  // ---- the map link ---------------------------------------------------------

  /** Index of the first occurrence of c in s, or |s| if there is none. */
  function Find(s: string, c: char): (i: nat)
    ensures i <= |s|
    ensures i < |s| ==> s[i] == c
    ensures forall j :: 0 <= j < i ==> s[j] != c
  {
    if s == [] then 0 else if s[0] == c then 0 else 1 + Find(s[1..], c)
  }

  lemma {:induction false} FindAfter(a: string, b: string, c: char)
    requires c !in a
    ensures Find(a + b, c) == |a| + Find(b, c)
  {
    if a != [] {
      assert (a + b)[0] == a[0] != c;
      assert (a + b)[1..] == a[1..] + b;
      FindAfter(a[1..], b, c);
    } else {
      assert a + b == b;
    }
  }

  /** s.split(c): the pieces between the occurrences of c (at least one). */
  function SplitOn(s: string, c: char): (pieces: seq<string>)
    ensures |pieces| >= 1
    decreases |s|
  {
    var i := Find(s, c);
    if i == |s| then [s] else [s[..i]] + SplitOn(s[i + 1..], c)
  }

  /** The characters urlsplit removes from a URL before splitting it. */
  predicate IsUnsafeUrlChar(c: char) { c == '\t' || c == '\r' || c == '\n' }

  function RemoveUnsafeUrlChars(url: string): string {
    if url == [] then []
    else if IsUnsafeUrlChar(url[0]) then RemoveUnsafeUrlChars(url[1..])
    else [url[0]] + RemoveUnsafeUrlChars(url[1..])
  }

  /** urlparse(url).query: after the first '?' of the part before the first '#'. */
  function UrlQuery(url: string): string {
    var u := RemoveUnsafeUrlChars(url);
    var beforeFragment := u[..Find(u, '#')];
    var q := Find(beforeFragment, '?');
    if q < |beforeFragment| then beforeFragment[q + 1..] else ""
  }

  predicate IsHexDigit(c: char) { '0' <= c <= '9' || 'a' <= c <= 'f' || 'A' <= c <= 'F' }

  function HexValue(c: char): nat
    requires IsHexDigit(c)
  {
    if '0' <= c <= '9' then (c as int - '0' as int) as nat
    else if 'a' <= c <= 'f' then (c as int - 'a' as int + 10) as nat
    else (c as int - 'A' as int + 10) as nat
  }

  /** unquote: a "%XX" escape of an ASCII code becomes that character. */
  function Unquote(s: string): string {
    if |s| >= 3 && s[0] == '%' && IsHexDigit(s[1]) && IsHexDigit(s[2]) && HexValue(s[1]) < 8
    then [(HexValue(s[1]) * 16 + HexValue(s[2])) as char] + Unquote(s[3..])
    else if s == [] then []
    else [s[0]] + Unquote(s[1..])
  }

  /** A query field's name or value as parse_qs decodes it: '+' is a space, then unquote. */
  function DecodeQueryField(s: string): string {
    Unquote(ReplaceChar(s, '+', ' '))
  }

  /**
   * parse_qs(query)[key][0]: the decoded value of the first '&'-separated
   * field "name=value" whose decoded name is key. Fields without '=' and
   * fields with an empty value are dropped, as parse_qs drops blank values.
   */
  function FirstQueryValue(fields: seq<string>, key: string): Option<string> {
    if fields == [] then None
    else
      var field := fields[0];
      var eq := Find(field, '=');
      if eq < |field| && eq + 1 < |field| && DecodeQueryField(field[..eq]) == key
      then Some(DecodeQueryField(field[eq + 1..]))
      else FirstQueryValue(fields[1..], key)
  }

  function QueryParameter(url: string, key: string): Option<string> {
    var query := UrlQuery(url);
    if query == "" then None else FirstQueryValue(SplitOn(query, '&'), key)
  }

  /** value.replace(",", " ").split(): the coordinate tokens of a query value. */
  function GeoTokens(value: string): seq<string> {
    Split(ReplaceChar(value, ',', ' '))
  }

  /**
   * convert_activity_location_url_to_geo: the tokens of the first "query"
   * parameter of the link, split on commas and whitespace, handed to vGeo,
   * which keeps the first two as latitude and longitude and rejects fewer.
   */
  function ConvertActivityLocationUrlToGeo(url: string): (r: Result<seq<string>, Error>)
    ensures r.Success? <==>
      QueryParameter(url, "query").Some? && |GeoTokens(QueryParameter(url, "query").value)| >= 2
    ensures r.Failure? ==> (r.error == MissingGeoQuery <==> QueryParameter(url, "query").None?)
    ensures r.Failure? ==> r.error in {MissingGeoQuery, InvalidGeo}
    ensures r.Success? ==> |r.value| == 2 && AllWords(r.value)
    ensures r.Success? ==> r.value == GeoTokens(QueryParameter(url, "query").value)[..2]
  {
    match QueryParameter(url, "query")
    case None => Failure(MissingGeoQuery)
    case Some(value) =>
      var tokens := GeoTokens(value);
      if |tokens| < 2 then Failure(InvalidGeo) else Success(tokens[..2])
  }

  /** A coordinate as a map link writes it: one word, free of the query string's delimiters. */
  predicate PlainToken(t: string) {
    IsWord(t) && ',' !in t && '&' !in t && '#' !in t && '%' !in t && '+' !in t
  }

  /** No character urlsplit removes. */
  predicate NoUnsafe(s: string) {
    forall i :: 0 <= i < |s| ==> !IsUnsafeUrlChar(s[i])
  }

  lemma NoUnsafeAppend(a: string, b: string)
    requires NoUnsafe(a) && NoUnsafe(b)
    ensures NoUnsafe(a + b)
  {
    forall i | 0 <= i < |a + b| ensures !IsUnsafeUrlChar((a + b)[i]) {
      if i >= |a| { assert (a + b)[i] == b[i - |a|]; }
    }
  }

  lemma ReplaceCharAbsent(s: string, from: char, to: char)
    requires from !in s
    ensures ReplaceChar(s, from, to) == s
  {
  }

  lemma {:induction false} UnquoteNoPercent(s: string)
    requires '%' !in s
    ensures Unquote(s) == s
  {
    if s != [] {
      UnquoteNoPercent(s[1..]);
      assert [s[0]] + s[1..] == s;
    }
  }

  lemma {:induction false} RemoveUnsafeAbsent(s: string)
    requires NoUnsafe(s)
    ensures RemoveUnsafeUrlChars(s) == s
  {
    if s != [] {
      RemoveUnsafeAbsent(s[1..]);
      assert [s[0]] + s[1..] == s;
    }
  }

  lemma UrlQueryAfterMark(base: string, query: string)
    requires '?' !in base && '#' !in base && NoUnsafe(base)
    requires '#' !in query && NoUnsafe(query)
    ensures UrlQuery(base + "?" + query) == query
  {
    var url := base + ("?" + query);
    assert base + "?" + query == url;
    NoUnsafeAppend("?", query);
    NoUnsafeAppend(base, "?" + query);
    RemoveUnsafeAbsent(url);
    assert '#' !in "?" + query;
    FindAfter(base, "?" + query, '#');
    assert Find(url, '#') == |url|;
    assert url[..Find(url, '#')] == url;
    FindAfter(base, "?" + query, '?');
    assert Find(url, '?') == |base| < |url|;
    assert url[|base| + 1..] == query;
  }

  lemma SplitOnAbsent(s: string, c: char)
    requires c !in s
    ensures SplitOn(s, c) == [s]
  {
    assert Find(s, c) == |s|;
  }

  /** "key=value" with no '=' in key splits at that '=' into key and value. */
  lemma KeyValueParts(key: string, value: string)
    requires '=' !in key
    ensures var field := key + "=" + value;
      Find(field, '=') == |key| && field[..|key|] == key && field[|key| + 1..] == value
  {
    var field := key + ("=" + value);
    assert key + "=" + value == field;
    FindAfter(key, "=" + value, '=');
    assert field[..|key|] == key;
    assert field[|key| + 1..] == value;
  }

  /** Text without '+' or '%' decodes to itself. */
  lemma DecodePlain(s: string)
    requires '+' !in s && '%' !in s
    ensures DecodeQueryField(s) == s
  {
    ReplaceCharAbsent(s, '+', ' ');
    UnquoteNoPercent(s);
  }

  lemma SingleQueryField(key: string, value: string)
    requires key != [] && value != []
    requires '&' !in key && '=' !in key && '%' !in key && '+' !in key
    requires '&' !in value && '%' !in value && '+' !in value
    ensures FirstQueryValue(SplitOn(key + "=" + value, '&'), key) == Some(value)
  {
    var field := key + "=" + value;
    assert '&' !in field by {
      assert field == key + ("=" + value);
      assert '&' !in "=" + value;
    }
    SplitOnAbsent(field, '&');
    KeyValueParts(key, value);
    DecodePlain(key);
    DecodePlain(value);
  }

  /**
   * A map link ending in "?query=<lat>,<lon>" (the form the timetable
   * links to) yields exactly the two coordinate tokens.
   */
  lemma GeoRoundTrip(base: string, lat: string, lon: string)
    requires '?' !in base && '#' !in base && NoUnsafe(base)
    requires PlainToken(lat) && PlainToken(lon)
    ensures ConvertActivityLocationUrlToGeo(base + "?query=" + lat + "," + lon) == Success([lat, lon])
  {
    var value := lat + "," + lon;
    var url := base + "?query=" + value;
    assert base + "?query=" + lat + "," + lon == url;
    CoordinatePair(lat, lon);
    QueryOfMapLink(base, value);
    GeoOfQueryValue(url, value, lat, lon);
  }

  /** A "query" value holding exactly two coordinate tokens converts to them. */
  lemma GeoOfQueryValue(url: string, value: string, lat: string, lon: string)
    requires QueryParameter(url, "query") == Some(value)
    requires GeoTokens(value) == [lat, lon]
    ensures ConvertActivityLocationUrlToGeo(url) == Success([lat, lon])
  {
    assert [lat, lon][..2] == [lat, lon];
  }

  /** The "query" parameter of "<base>?query=<value>" is the value itself. */
  lemma QueryOfMapLink(base: string, value: string)
    requires '?' !in base && '#' !in base && NoUnsafe(base)
    requires value != [] && '&' !in value && '%' !in value && '+' !in value && '#' !in value && NoUnsafe(value)
    ensures QueryParameter(base + "?query=" + value, "query") == Some(value)
  {
    var query := "query=" + value;
    NoUnsafeAppend("query=", value);
    assert '#' !in query;
    var url := base + "?" + query;
    assert base + "?query=" + value == url;
    UrlQueryAfterMark(base, query);
    assert "query" + "=" + value == query;
    SingleQueryField("query", value);
    assert UrlQuery(url) == query != "";
    assert QueryParameter(url, "query") == FirstQueryValue(SplitOn(query, '&'), "query");
  }

  /** A word holds no character urlsplit removes. */
  lemma WordIsSafe(t: string)
    requires IsWord(t)
    ensures NoUnsafe(t)
  {
    forall i | 0 <= i < |t| ensures !IsUnsafeUrlChar(t[i]) { assert !IsSpace(t[i]); }
  }

  /** "<lat>,<lon>": no delimiter of the query string, and its comma-split gives the two tokens. */
  lemma CoordinatePair(lat: string, lon: string)
    requires PlainToken(lat) && PlainToken(lon)
    ensures var value := lat + "," + lon;
      '&' !in value && '%' !in value && '+' !in value && '#' !in value && NoUnsafe(value)
    ensures Split(ReplaceChar(lat + "," + lon, ',', ' ')) == [lat, lon]
  {
    var value := lat + ("," + lon);
    assert lat + "," + lon == value;
    WordIsSafe(lat);
    WordIsSafe(lon);
    NoUnsafeAppend(",", lon);
    NoUnsafeAppend(lat, "," + lon);
    var spaced := ReplaceChar(value, ',', ' ');
    assert spaced == lat + " " + lon by {
      forall i | 0 <= i < |spaced| ensures spaced[i] == (lat + " " + lon)[i] {
        if i < |lat| {
          assert value[i] == lat[i];
        } else if i > |lat| {
          assert value[i] == lon[i - |lat| - 1];
        }
      }
    }
    assert JoinWords([lat, lon]) == lat + " " + lon;
    SplitJoinWords([lat, lon]);
  }

  /** A link without a '?' has no query, so no geo. */
  lemma NoQueryNoGeo(url: string)
    requires '?' !in url
    ensures ConvertActivityLocationUrlToGeo(url) == Failure(MissingGeoQuery)
  {
    var u := RemoveUnsafeUrlChars(url);
    RemoveUnsafeKeepsOut(url, '?');
    var beforeFragment := u[..Find(u, '#')];
    assert Find(beforeFragment, '?') == |beforeFragment|;
  }

  lemma {:induction false} RemoveUnsafeKeepsOut(s: string, c: char)
    requires c !in s
    ensures c !in RemoveUnsafeUrlChars(s)
  {
    if s != [] { RemoveUnsafeKeepsOut(s[1..], c); }
  }

  // ---- the event ------------------------------------------------------------

  /** Python's f-string rendering of an optional string. */
  function OptionalText(s: Option<string>): string {
    if s.Some? then s.value else "None"
  }

  /** "{title} ({type})" */
  function SummaryText(activityType: string, title: string): string {
    title + " (" + activityType + ")"
  }

  /** "With {staff}", a blank line, then the map link, written even when there is no link. */
  function DescriptionText(staff: string, locationUrl: Option<string>, locationName: string): string {
    "With " + staff + "\n\n<a href=" + OptionalText(locationUrl) + ">View " + locationName + " on Google Maps</a>"
  }

  /** The property names of an event, in the order create_event_and_set_properties adds them. */
  function EventNames(hasGeo: bool): seq<PropName> {
    [DtStamp, Uid, Summary, DtStart, DtEnd, Transp, Location]
      + (if hasGeo then [GeoName] else []) + [DescriptionName]
  }

  /** The seven properties every event gets first, before its GEO and DESCRIPTION. */
  function EventHead(
    activityType: string, activityStart: DateTime, activityEnd: DateTime,
    activityTitle: string, locationName: string, now: DateTime, uid: string): seq<Property>
  {
    [ Property(DtStamp, Stamp(now)),
      Property(Uid, Text(uid)),
      Property(Summary, Text(SummaryText(activityType, activityTitle))),
      Property(DtStart, Stamp(activityStart)),
      Property(DtEnd, Stamp(activityEnd)),
      Property(Transp, Text("OPAQUE")),
      Property(Location, Text(locationName)) ]
  }

  /** The GEO, when there is one, then the DESCRIPTION. */
  function EventTail(locationName: string, locationUrl: Option<string>, geo: Option<seq<string>>, staff: string)
    : seq<Property>
  {
    (if geo.Some? then [Property(GeoName, Geo(geo.value))] else [])
      + [Property(DescriptionName, Text(DescriptionText(staff, locationUrl, locationName)))]
  }

  /**
   * create_event_and_set_properties: the event's SUMMARY, DTSTART, DTEND,
   * TRANSP, LOCATION, GEO and DESCRIPTION (sections 3.8.1.12, 3.8.2.4,
   * 3.8.2.2, 3.8.2.7, 3.8.1.7, 3.8.1.6 and 3.8.1.5 of RFC 5545), with the
   * DTSTAMP and UID it is given in place of datetime.now() and uuid4().
   */
  function CreateEventAndSetProperties(
    activityType: string, activityStart: DateTime, activityEnd: DateTime,
    activityTitle: string, locationName: string, locationUrl: Option<string>,
    geo: Option<seq<string>>, staff: string, now: DateTime, uid: string): (e: Event)
    ensures Names(e.properties) == EventNames(geo.Some?)
  {
    var head := EventHead(activityType, activityStart, activityEnd, activityTitle, locationName, now, uid);
    var tail := EventTail(locationName, locationUrl, geo, staff);
    assert Names(head + tail) == Names(head) + Names(tail);
    Event(head + tail)
  }

  /** A name found in the first part of a property list is found there in the whole. */
  lemma {:induction false} LookupPrefix(a: seq<Property>, b: seq<Property>, name: PropName)
    requires Lookup(a, name).Some?
    ensures Lookup(a + b, name) == Lookup(a, name)
  {
    assert (a + b)[0] == a[0];
    if a[0].name != name {
      assert (a + b)[1..] == a[1..] + b;
      LookupPrefix(a[1..], b, name);
    }
  }

  /** A name absent from the first part of a property list is looked up in the rest. */
  lemma {:induction false} LookupSkip(a: seq<Property>, b: seq<Property>, name: PropName)
    requires forall j :: 0 <= j < |a| ==> a[j].name != name
    ensures Lookup(a + b, name) == Lookup(b, name)
  {
    if a == [] {
      assert a + b == b;
    } else {
      assert (a + b)[0] == a[0];
      assert (a + b)[1..] == a[1..] + b;
      LookupSkip(a[1..], b, name);
    }
  }

  /** The event carries the stamp, the uid, the start and the end it is given. */
  lemma CreatedEventTimes(
    activityType: string, activityStart: DateTime, activityEnd: DateTime,
    activityTitle: string, locationName: string, locationUrl: Option<string>,
    geo: Option<seq<string>>, staff: string, now: DateTime, uid: string)
    ensures var e := CreateEventAndSetProperties(activityType, activityStart, activityEnd, activityTitle,
      locationName, locationUrl, geo, staff, now, uid);
      && Lookup(e.properties, DtStamp) == Some(Stamp(now))
      && Lookup(e.properties, Uid) == Some(Text(uid))
      && Lookup(e.properties, DtStart) == Some(Stamp(activityStart))
      && Lookup(e.properties, DtEnd) == Some(Stamp(activityEnd))
  {
    var head := EventHead(activityType, activityStart, activityEnd, activityTitle, locationName, now, uid);
    var tail := EventTail(locationName, locationUrl, geo, staff);
    LookupFirst(head, DtStamp, 0);
    LookupFirst(head, Uid, 1);
    LookupFirst(head, DtStart, 3);
    LookupFirst(head, DtEnd, 4);
    LookupPrefix(head, tail, DtStamp);
    LookupPrefix(head, tail, Uid);
    LookupPrefix(head, tail, DtStart);
    LookupPrefix(head, tail, DtEnd);
  }

  /**
   * The SUMMARY is "<title> (<type>)", TRANSP is OPAQUE and the LOCATION
   * is the location's name.
   */
  lemma CreatedEventTexts(
    activityType: string, activityStart: DateTime, activityEnd: DateTime,
    activityTitle: string, locationName: string, locationUrl: Option<string>,
    geo: Option<seq<string>>, staff: string, now: DateTime, uid: string)
    ensures var e := CreateEventAndSetProperties(activityType, activityStart, activityEnd, activityTitle,
      locationName, locationUrl, geo, staff, now, uid);
      && Lookup(e.properties, Summary) == Some(Text(activityTitle + " (" + activityType + ")"))
      && Lookup(e.properties, Transp) == Some(Text("OPAQUE"))
      && Lookup(e.properties, Location) == Some(Text(locationName))
  {
    var head := EventHead(activityType, activityStart, activityEnd, activityTitle, locationName, now, uid);
    var tail := EventTail(locationName, locationUrl, geo, staff);
    LookupFirst(head, Summary, 2);
    LookupFirst(head, Transp, 5);
    LookupFirst(head, Location, 6);
    LookupPrefix(head, tail, Summary);
    LookupPrefix(head, tail, Transp);
    LookupPrefix(head, tail, Location);
  }

  /**
   * The description names the staff and links the location, writing the
   * link even when there is none (as "None").
   */
  lemma CreatedEventDescription(
    activityType: string, activityStart: DateTime, activityEnd: DateTime,
    activityTitle: string, locationName: string, locationUrl: Option<string>,
    geo: Option<seq<string>>, staff: string, now: DateTime, uid: string)
    ensures var e := CreateEventAndSetProperties(activityType, activityStart, activityEnd, activityTitle,
      locationName, locationUrl, geo, staff, now, uid);
      Lookup(e.properties, DescriptionName) == Some(Text(
        "With " + staff + "\n\n<a href=" + OptionalText(locationUrl) + ">View " + locationName + " on Google Maps</a>"))
  {
    var head := EventHead(activityType, activityStart, activityEnd, activityTitle, locationName, now, uid);
    var tail := EventTail(locationName, locationUrl, geo, staff);
    LookupSkip(head, tail, DescriptionName);
    if geo.Some? {
      LookupFirst(tail, DescriptionName, 1);
    } else {
      LookupFirst(tail, DescriptionName, 0);
    }
  }

  /** GEO is set exactly when a geo is given, to that geo. */
  lemma CreatedEventGeo(
    activityType: string, activityStart: DateTime, activityEnd: DateTime,
    activityTitle: string, locationName: string, locationUrl: Option<string>,
    geo: Option<seq<string>>, staff: string, now: DateTime, uid: string)
    ensures var e := CreateEventAndSetProperties(activityType, activityStart, activityEnd, activityTitle,
      locationName, locationUrl, geo, staff, now, uid);
      Lookup(e.properties, GeoName) == if geo.Some? then Some(Geo(geo.value)) else None
  {
    var head := EventHead(activityType, activityStart, activityEnd, activityTitle, locationName, now, uid);
    var tail := EventTail(locationName, locationUrl, geo, staff);
    LookupSkip(head, tail, GeoName);
    if geo.Some? { LookupFirst(tail, GeoName, 0); } else { LookupAbsent(tail, GeoName); }
  }

  /** An event starts on the day of the start it is given. */
  lemma CreatedEventStartDay(
    activityType: string, activityStart: DateTime, activityEnd: DateTime,
    activityTitle: string, locationName: string, locationUrl: Option<string>,
    geo: Option<seq<string>>, staff: string, now: DateTime, uid: string)
    ensures StartDay(CreateEventAndSetProperties(activityType, activityStart, activityEnd, activityTitle,
      locationName, locationUrl, geo, staff, now, uid)) == Some(activityStart.day)
  {
    CreatedEventTimes(activityType, activityStart, activityEnd, activityTitle,
      locationName, locationUrl, geo, staff, now, uid);
  }

  // ---- the activity list ----------------------------------------------------

  /** The values the source draws from datetime.now() and uuid4(), by the position the event takes in the calendar. */
  datatype Stamps = Stamps(now: nat -> DateTime, uid: nat -> string)

  /** A map link is followed only when it is a non-empty string. */
  predicate HasLink(url: Option<string>) { url.Some? && url.value != "" }

  /**
   * The body of the loop in add_events_from_activity_list for one activity
   * that is not the "no activity" marker: scrape, read the times on the
   * given date, read the geo only for a non-empty link, build the event as
   * the n-th component of the calendar.
   */
  function BuildEvent(date: int, node: ActivityNode, stamps: Stamps, n: nat): (r: Result<Event, Error>)
    ensures r.Success? ==> WellShaped(node)
    ensures r.Success? ==> StartDay(r.value) == Some(date)
    ensures !WellShaped(node) ==> r == Failure(MalformedActivity)
  {
    var scraped := ScrapeActivityProperties(node);
    if scraped.Failure? then Failure(scraped.error)
    else
      var activity := scraped.value;
      var times := ConvertActivityTimeToDateTime(activity.time, date);
      if times.Failure? then Failure(times.error)
      else
        var geo := LinkGeo(activity.locationUrl);
        if geo.Failure? then Failure(geo.error)
        else
          var event := CreateEventAndSetProperties(
            activity.activityType, times.value.0, times.value.1, activity.title, activity.locationName,
            activity.locationUrl, geo.value, activity.staff, stamps.now(n), stamps.uid(n));
          CreatedEventStartDay(
            activity.activityType, times.value.0, times.value.1, activity.title, activity.locationName,
            activity.locationUrl, geo.value, activity.staff, stamps.now(n), stamps.uid(n));
          Success(event)
  }

  /**
   * A built event has a GEO exactly when its activity links a map with a
   * non-empty string, that GEO holds the coordinates read from the link,
   * and its UID is the n-th one drawn.
   */
  lemma BuildEventGeoAndUid(date: int, node: ActivityNode, stamps: Stamps, n: nat)
    requires BuildEvent(date, node, stamps, n).Success?
    ensures var props := BuildEvent(date, node, stamps, n).value.properties;
      && (Lookup(props, GeoName).Some? <==> HasLink(ScrapeActivityProperties(node).value.locationUrl))
      && Lookup(props, Uid) == Some(Text(stamps.uid(n)))
    ensures var url := ScrapeActivityProperties(node).value.locationUrl;
      HasLink(url) ==>
        Lookup(BuildEvent(date, node, stamps, n).value.properties, GeoName)
          == Some(Geo(ConvertActivityLocationUrlToGeo(url.value).value))
  {
    var a := ScrapeActivityProperties(node).value;
    var times := ConvertActivityTimeToDateTime(a.time, date).value;
    var geo := LinkGeo(a.locationUrl).value;
    CreatedEventGeo(a.activityType, times.0, times.1, a.title, a.locationName, a.locationUrl, geo, a.staff,
      stamps.now(n), stamps.uid(n));
    CreatedEventTimes(a.activityType, times.0, times.1, a.title, a.locationName, a.locationUrl, geo, a.staff,
      stamps.now(n), stamps.uid(n));
  }

  /** The geo of an activity: read from its link when the link is a non-empty string, else none. */
  function LinkGeo(url: Option<string>): (r: Result<Option<seq<string>>, Error>)
    ensures r.Success? ==> (r.value.Some? <==> HasLink(url))
    ensures r.Failure? <==> HasLink(url) && ConvertActivityLocationUrlToGeo(url.value).Failure?
    ensures HasLink(url) && r.Success? ==> r.value == Some(ConvertActivityLocationUrlToGeo(url.value).value)
    ensures r.Failure? ==> HasLink(url) && r.error == ConvertActivityLocationUrlToGeo(url.value).error
  {
    if HasLink(url) then
      match ConvertActivityLocationUrlToGeo(url.value)
      case Success(tokens) => Success(Some(tokens))
      case Failure(e) => Failure(e)
    else Success(None)
  }

  /** A node that does not scrape stops with the scraping error. */
  lemma BuildEventStopsAtScrape(date: int, node: ActivityNode, stamps: Stamps, n: nat)
    requires ScrapeActivityProperties(node).Failure?
    ensures BuildEvent(date, node, stamps, n) == Failure(ScrapeActivityProperties(node).error)
  {
  }

  /** A time range that does not read stops with the time error. */
  lemma BuildEventStopsAtTime(date: int, node: ActivityNode, stamps: Stamps, n: nat)
    requires ScrapeActivityProperties(node).Success?
    requires ConvertActivityTimeToDateTime(ScrapeActivityProperties(node).value.time, date).Failure?
    ensures BuildEvent(date, node, stamps, n)
      == Failure(ConvertActivityTimeToDateTime(ScrapeActivityProperties(node).value.time, date).error)
  {
  }

  /** A non-empty link without a geo query stops with the geo error. */
  lemma BuildEventStopsAtGeo(date: int, node: ActivityNode, stamps: Stamps, n: nat)
    requires ScrapeActivityProperties(node).Success?
    requires ConvertActivityTimeToDateTime(ScrapeActivityProperties(node).value.time, date).Success?
    requires var url := ScrapeActivityProperties(node).value.locationUrl;
      HasLink(url) && ConvertActivityLocationUrlToGeo(url.value).Failure?
    ensures BuildEvent(date, node, stamps, n)
      == Failure(ConvertActivityLocationUrlToGeo(ScrapeActivityProperties(node).value.locationUrl.value).error)
  {
  }

  /** Otherwise the event is the one create_event_and_set_properties builds from the scraped fields. */
  lemma BuildEventSucceeds(date: int, node: ActivityNode, stamps: Stamps, n: nat, geo: Option<seq<string>>)
    requires ScrapeActivityProperties(node).Success?
    requires ConvertActivityTimeToDateTime(ScrapeActivityProperties(node).value.time, date).Success?
    requires LinkGeo(ScrapeActivityProperties(node).value.locationUrl) == Success(geo)
    ensures var a := ScrapeActivityProperties(node).value;
      var times := ConvertActivityTimeToDateTime(a.time, date).value;
      BuildEvent(date, node, stamps, n) == Success(CreateEventAndSetProperties(
        a.activityType, times.0, times.1, a.title, a.locationName, a.locationUrl, geo, a.staff,
        stamps.now(n), stamps.uid(n)))
  {
  }

  /** The events appended, and the error that stopped the loop, if any. */
  datatype Added = Added(events: seq<Event>, err: Option<Error>)

  /** How one activity becomes the event at a given position of the calendar. */
  type Builder = (ActivityNode, nat) -> Result<Event, Error>

  /**
   * The loop of add_events_from_activity_list over any way of building an
   * event, when the calendar already holds n components: one event per
   * activity up to the first "no activity" marker, stopping at the first
   * error.
   */
  function Collect(activities: seq<ActivityNode>, build: Builder, n: nat): Added
    decreases |activities|
  {
    if activities == [] || activities[0].noneMarker then Added([], None)
    else match build(activities[0], n)
      case Failure(e) => Added([], Some(e))
      case Success(event) =>
        var rest := Collect(activities[1..], build, n + 1);
        Added([event] + rest.events, rest.err)
  }

  /** The builder add_events_from_activity_list uses for a date. */
  function EventBuilder(date: int, stamps: Stamps): Builder {
    (node: ActivityNode, n: nat) => BuildEvent(date, node, stamps, n)
  }

  /** What add_events_from_activity_list appends for a date. */
  function ListEvents(date: int, activities: seq<ActivityNode>, stamps: Stamps, n: nat): Added {
    Collect(activities, EventBuilder(date, stamps), n)
  }

  /** Index of the first "no activity" marker, or the number of activities. */
  function FirstMarker(activities: seq<ActivityNode>): (i: nat)
    ensures i <= |activities|
    ensures i < |activities| ==> activities[i].noneMarker
    ensures forall j :: 0 <= j < i ==> !activities[j].noneMarker
  {
    if activities == [] || activities[0].noneMarker then 0 else 1 + FirstMarker(activities[1..])
  }

  /**
   * Without an error there is one event for each activity before the first
   * "no activity" marker; an error stops the list short of it.
   */
  lemma {:induction false} CollectCount(activities: seq<ActivityNode>, build: Builder, n: nat)
    ensures var a := Collect(activities, build, n);
      && |a.events| <= FirstMarker(activities)
      && (a.err.None? <==> |a.events| == FirstMarker(activities))
    decreases |activities|
  {
    if activities != [] && !activities[0].noneMarker {
      CollectCount(activities[1..], build, n + 1);
    }
  }

  /** The k-th event appended is built from the k-th activity, as the (n+k)-th component. */
  lemma {:induction false} CollectInOrder(activities: seq<ActivityNode>, build: Builder, n: nat, k: nat)
    requires k < |Collect(activities, build, n).events|
    ensures k < |activities| && build(activities[k], n + k) == Success(Collect(activities, build, n).events[k])
    decreases k
  {
    var first := build(activities[0], n);
    var rest := Collect(activities[1..], build, n + 1);
    assert Collect(activities, build, n).events == [first.value] + rest.events;
    if k > 0 {
      CollectInOrder(activities[1..], build, n + 1, k - 1);
      assert activities[1..][k - 1] == activities[k];
    }
  }

  /** An error is that of the activity right after the last event appended. */
  lemma {:induction false} CollectError(activities: seq<ActivityNode>, build: Builder, n: nat)
    ensures var a := Collect(activities, build, n);
      a.err.Some? ==>
        |a.events| < |activities| && build(activities[|a.events|], n + |a.events|) == Failure(a.err.value)
    decreases |activities|
  {
    if activities != [] && !activities[0].noneMarker && build(activities[0], n).Success? {
      CollectError(activities[1..], build, n + 1);
      var rest := Collect(activities[1..], build, n + 1);
      if rest.err.Some? {
        assert activities[1..][|rest.events|] == activities[1 + |rest.events|];
      }
    }
  }

  /** Every event appended for a date starts on that date. */
  lemma ListEventsOnDate(date: int, activities: seq<ActivityNode>, stamps: Stamps, n: nat, k: nat)
    requires k < |ListEvents(date, activities, stamps, n).events|
    ensures StartDay(ListEvents(date, activities, stamps, n).events[k]) == Some(date)
  {
    CollectInOrder(activities, EventBuilder(date, stamps), n, k);
    var r := BuildEvent(date, activities[k], stamps, n + k);
    assert r.Success? ==> StartDay(r.value) == Some(date);
  }

  /**
   * The first |events| activities are not markers and build, in order, the
   * given events as components n, n+1, ...
   */
  predicate Built(activities: seq<ActivityNode>, build: Builder, n: nat, events: seq<Event>) {
    && |events| <= |activities|
    && forall k :: 0 <= k < |events| ==>
         !activities[k].noneMarker && build(activities[k], n + k) == Success(events[k])
  }

  lemma BuiltTail(activities: seq<ActivityNode>, build: Builder, n: nat, events: seq<Event>)
    requires events != [] && Built(activities, build, n, events)
    ensures Built(activities[1..], build, n + 1, events[1..])
  {
    forall k | 0 <= k < |events| - 1
      ensures !activities[1..][k].noneMarker && build(activities[1..][k], n + 1 + k) == Success(events[1..][k])
    {
      assert activities[1..][k] == activities[k + 1] && events[1..][k] == events[k + 1];
    }
  }

  /** A built prefix that ends at a marker or at the end of the list is the whole result. */
  lemma {:induction false} CollectBuiltThenStop(activities: seq<ActivityNode>, build: Builder, n: nat, events: seq<Event>)
    requires Built(activities, build, n, events)
    requires |events| == |activities| || activities[|events|].noneMarker
    ensures Collect(activities, build, n) == Added(events, None)
    decreases |events|
  {
    if events != [] {
      BuiltTail(activities, build, n, events);
      CollectBuiltThenStop(activities[1..], build, n + 1, events[1..]);
      assert build(activities[0], n) == Success(events[0]);
      assert events == [events[0]] + events[1..];
    }
  }

  /** A built prefix followed by an activity that fails to build gives that failure. */
  lemma {:induction false} CollectBuiltThenFail(activities: seq<ActivityNode>, build: Builder, n: nat, events: seq<Event>, e: Error)
    requires Built(activities, build, n, events)
    requires |events| < |activities| && !activities[|events|].noneMarker
    requires build(activities[|events|], n + |events|) == Failure(e)
    ensures Collect(activities, build, n) == Added(events, Some(e))
    decreases |events|
  {
    if events != [] {
      BuiltTail(activities, build, n, events);
      assert activities[1..][|events| - 1] == activities[|events|];
      CollectBuiltThenFail(activities[1..], build, n + 1, events[1..], e);
      assert build(activities[0], n) == Success(events[0]);
      assert events == [events[0]] + events[1..];
    }
  }

  /** One more activity that builds extends the built prefix. */
  lemma BuiltSnoc(activities: seq<ActivityNode>, build: Builder, n: nat, events: seq<Event>, event: Event)
    requires Built(activities, build, n, events)
    requires |events| < |activities| && !activities[|events|].noneMarker
    requires build(activities[|events|], n + |events|) == Success(event)
    ensures Built(activities, build, n, events + [event])
  {
  }

  /** A builder that agrees with BuildEvent for a date and its stamps. */
  ghost predicate BuildsEvents(build: Builder, date: int, stamps: Stamps) {
    forall node: ActivityNode, n: nat {:trigger BuildEvent(date, node, stamps, n)} ::
      build(node, n) == BuildEvent(date, node, stamps, n)
  }

  /**
   * add_events_from_activity_list: for each activity in document order,
   * stop at the "no activity" marker, else build its event and append it
   * to the calendar. An error stops the loop (the run aborts); the events
   * already appended stay.
   */
  method AddEventsFromActivityList(date: int, cal: Calendar, activities: seq<ActivityNode>, stamps: Stamps)
    returns (err: Option<Error>)
    modifies cal
    ensures cal.properties == old(cal.properties)
    ensures var a := ListEvents(date, activities, stamps, |old(cal.components)|);
      cal.components == old(cal.components) + a.events && err == a.err
  {
    err := AppendActivityEvents(date, cal, activities, stamps, EventBuilder(date, stamps));
  }

  /** The loop of add_events_from_activity_list, against any builder that agrees with BuildEvent. */
  method AppendActivityEvents(date: int, cal: Calendar, activities: seq<ActivityNode>, stamps: Stamps, ghost build: Builder)
    returns (err: Option<Error>)
    requires BuildsEvents(build, date, stamps)
    modifies cal
    ensures cal.properties == old(cal.properties)
    ensures var a := Collect(activities, build, |old(cal.components)|);
      cal.components == old(cal.components) + a.events && err == a.err
  {
    ghost var before := cal.components;
    ghost var added: seq<Event> := [];
    var i := 0;
    while i < |activities|
      invariant i == |added| <= |activities|
      invariant cal.properties == old(cal.properties)
      invariant cal.components == before + added
      invariant Built(activities, build, |before|, added)
    {
      if activities[i].noneMarker {
        break;
      }
      ghost var n := |cal.components|;
      err := AppendActivityEvent(date, cal, activities[i], stamps, build);
      if err.Some? {
        CollectBuiltThenFail(activities, build, |before|, added, err.value);
        return;
      }
      BuiltSnoc(activities, build, |before|, added, cal.components[n]);
      added := added + [cal.components[n]];
      i := i + 1;
    }
    CollectBuiltThenStop(activities, build, |before|, added);
    err := None;
  }

  /**
   * The body of that loop for an activity that is not the marker: scrape
   * it, read its times on the date, read the geo only for a non-empty
   * link, then build the event and append it.
   */
  method AppendActivityEvent(date: int, cal: Calendar, node: ActivityNode, stamps: Stamps, ghost build: Builder)
    returns (err: Option<Error>)
    requires BuildsEvents(build, date, stamps)
    modifies cal
    ensures cal.properties == old(cal.properties)
    ensures err.None? ==>
      && |cal.components| == |old(cal.components)| + 1
      && cal.components == old(cal.components) + [cal.components[|old(cal.components)|]]
      && build(node, |old(cal.components)|) == Success(cal.components[|old(cal.components)|])
    ensures err.Some? ==>
      && cal.components == old(cal.components)
      && build(node, |old(cal.components)|) == Failure(err.value)
  {
    var n := |cal.components|;
    var scraped := ScrapeActivityProperties(node);
    if scraped.Failure? {
      BuildEventStopsAtScrape(date, node, stamps, n);
      return Some(scraped.error);
    }
    var activity := scraped.value;
    var times := ConvertActivityTimeToDateTime(activity.time, date);
    if times.Failure? {
      BuildEventStopsAtTime(date, node, stamps, n);
      return Some(times.error);
    }
    var (activityStart, activityEnd) := times.value;
    var geo: Option<seq<string>> := None;
    if HasLink(activity.locationUrl) {
      var converted := ConvertActivityLocationUrlToGeo(activity.locationUrl.value);
      if converted.Failure? {
        BuildEventStopsAtGeo(date, node, stamps, n);
        return Some(converted.error);
      }
      geo := Some(converted.value);
    }
    var event := CreateEventAndSetProperties(
      activity.activityType, activityStart, activityEnd, activity.title, activity.locationName,
      activity.locationUrl, geo, activity.staff, stamps.now(n), stamps.uid(n));
    BuildEventSucceeds(date, node, stamps, n, geo);
    cal.AddComponent(event);
    return None;
  }
}
