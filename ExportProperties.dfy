/**
 * What the week walk of export_calendar (calendar_exporter.py, lines
 * 35-70) guarantees: the cursors it requests, the weeks they cover, the
 * window its events fall in, and the runs a bad day group aborts.
 */
module ExportProperties {
  import opened Wrappers
  import opened Dates
  import opened CalendarUtils
  import opened CalendarExporter

  /** Every event starts on a day of the window [start, end]. */
  predicate InWindow(events: seq<Event>, start: int, end: int) {
    forall i :: 0 <= i < |events| ==> StartDay(events[i]).Some? && start <= StartDay(events[i]).value <= end
  }

  lemma InWindowAppend(a: seq<Event>, b: seq<Event>, start: int, end: int)
    requires InWindow(a, start, end) && InWindow(b, start, end)
    ensures InWindow(a + b, start, end)
  {
    forall i | 0 <= i < |a + b|
      ensures StartDay((a + b)[i]).Some? && start <= StartDay((a + b)[i]).value <= end
    {
      if i >= |a| { assert (a + b)[i] == b[i - |a|]; }
    }
  }

  // ---- the window (lines 63-67) ---------------------------------------------

  /** Every event starts on the given day. */
  predicate OnDay(events: seq<Event>, day: int) {
    forall k :: 0 <= k < |events| ==> StartDay(events[k]) == Some(day)
  }

  /**
   * A day group adds only events on its own date, and only when that date
   * is in the window: a group without an id, with a bad id or dated outside
   * [start, end] adds nothing.
   */
  lemma GroupEventsInWindow(group: DayGroup, start: int, end: int, stamps: Stamps, n: nat)
    ensures InWindow(GroupEvents(group, start, end, stamps, n).events, start, end)
    ensures group.id.Some? && ResolveGroupDate(group.id.value).Success? ==>
      OnDay(GroupEvents(group, start, end, stamps, n).events, ResolveGroupDate(group.id.value).value)
    ensures GroupEvents(group, start, end, stamps, n).events != [] ==>
      && group.id.Some? && ResolveGroupDate(group.id.value).Success?
      && Between(start, ResolveGroupDate(group.id.value).value, end)
  {
    if group.id.Some? && ResolveGroupDate(group.id.value).Success? {
      var date := ResolveGroupDate(group.id.value).value;
      if start <= date <= end && group.activities.Some? {
        var events := ListEvents(date, group.activities.value, stamps, n).events;
        ListedOnDay(date, group.activities.value, stamps, n);
        OnDayInWindow(events, date, start, end);
      }
    }
  }

  /** Every event listed for a date starts on it. */
  lemma ListedOnDay(date: int, activities: seq<ActivityNode>, stamps: Stamps, n: nat)
    ensures OnDay(ListEvents(date, activities, stamps, n).events, date)
  {
    var events := ListEvents(date, activities, stamps, n).events;
    forall k | 0 <= k < |events|
      ensures StartDay(events[k]) == Some(date)
    {
      ListEventsOnDate(date, activities, stamps, n, k);
    }
  }

  lemma OnDayInWindow(events: seq<Event>, day: int, start: int, end: int)
    requires OnDay(events, day) && start <= day <= end
    ensures InWindow(events, start, end)
  {
  }

  /** The loop over a page's groups keeps its events in the window when each group's do. */
  lemma {:induction false} EachGroupInWindow(groups: seq<DayGroup>, handle: GroupHandler, n: nat, start: int, end: int)
    requires forall group: DayGroup, m: nat :: InWindow(handle(group, m).events, start, end)
    ensures InWindow(EachGroup(groups, handle, n).events, start, end)
    decreases |groups|
  {
    if groups != [] {
      var first := handle(groups[0], n);
      if first.err.None? {
        EachGroupInWindow(groups[1..], handle, n + |first.events|, start, end);
        InWindowAppend(first.events, EachGroup(groups[1..], handle, n + |first.events|).events, start, end);
      }
    }
  }

  lemma WeekInWindow(cursor: int, fetch: Fetch, handle: GroupHandler, n: nat, start: int, end: int)
    requires forall group: DayGroup, m: nat :: InWindow(handle(group, m).events, start, end)
    ensures InWindow(WeekOf(cursor, fetch, handle, n).events, start, end)
  {
    if WeekSunday(cursor) <= MaxOrdinal && fetch(cursor).Success? {
      EachGroupInWindow(fetch(cursor).value, handle, n, start, end);
    }
  }

  /** The walk keeps its events in the window when each pass does. */
  lemma {:induction false} WalkInWindow(cursor: int, bound: int, pass: WeekHandler, n: nat, start: int, end: int)
    requires forall c: int, m: nat :: InWindow(pass(c, m).events, start, end)
    ensures InWindow(WalkFrom(cursor, bound, pass, n).events, start, end)
    decreases bound + 7 - cursor
  {
    if cursor < bound + 7 {
      var week := pass(cursor, n);
      if week.err.None? {
        WalkInWindow(cursor + 7, bound, pass, n + |week.events|, start, end);
        InWindowAppend(week.events, WalkFrom(cursor + 7, bound, pass, n + |week.events|).events, start, end);
      }
    }
  }

  /** No exported event has a start date outside [start, end]. */
  lemma EventsInWindow(start: int, end: int, fetch: Fetch, stamps: Stamps, n: nat)
    ensures InWindow(ExportWeeks(start, end, fetch, stamps, n).events, start, end)
  {
    if end + 7 <= MaxOrdinal {
      var handle := GroupHandlerFor(start, end, stamps);
      forall group: DayGroup, m: nat
        ensures InWindow(handle(group, m).events, start, end)
      {
        GroupEventsInWindow(group, start, end, stamps, m);
      }
      var pass := WeekHandlerFor(fetch, handle);
      forall c: int, m: nat
        ensures InWindow(pass(c, m).events, start, end)
      {
        WeekInWindow(c, fetch, handle, m, start, end);
      }
      WalkInWindow(start, end, pass, n, start, end);
    }
  }

  lemma FirstInWindow(events: seq<Event>, start: int, end: int)
    requires InWindow(events, start, end) && events != []
    ensures start <= end
  {
    assert StartDay(events[0]).Some?;
  }

  /** A window that ends before it starts exports no event. */
  lemma NothingFromEmptyWindow(start: int, end: int, fetch: Fetch, stamps: Stamps, n: nat)
    requires start > end
    ensures ExportWeeks(start, end, fetch, stamps, n).events == []
  {
    var events := ExportWeeks(start, end, fetch, stamps, n).events;
    EventsInWindow(start, end, fetch, stamps, n);
    if events != [] {
      FirstInWindow(events, start, end);
      assert false;
    }
  }

  /** A group that adds nothing and raises nothing is passed over: the loop goes on as if it were absent. */
  lemma EachGroupSkips(group: DayGroup, rest: seq<DayGroup>, handle: GroupHandler, n: nat)
    requires handle(group, n) == Added([], None)
    ensures EachGroup([group] + rest, handle, n) == EachGroup(rest, handle, n)
  {
    assert ([group] + rest)[0] == group && ([group] + rest)[1..] == rest;
    var r := EachGroup(rest, handle, n);
    assert [] + r.events == r.events;
  }

  /** A group whose date falls outside the window is passed over. */
  lemma GroupOutsideWindowSkipped(group: DayGroup, rest: seq<DayGroup>, start: int, end: int, stamps: Stamps, n: nat)
    requires group.id.Some? && ResolveGroupDate(group.id.value).Success?
    requires !Between(start, ResolveGroupDate(group.id.value).value, end)
    ensures PageEvents([group] + rest, start, end, stamps, n) == PageEvents(rest, start, end, stamps, n)
  {
    var handle := GroupHandlerFor(start, end, stamps);
    assert handle(group, n) == Added([], None);
    EachGroupSkips(group, rest, handle, n);
  }

  // ---- the cursors (lines 35-37, 70) ------------------------------------------

  /** A pass requests its cursor's page, unless its week overflows first; a pass without error always does. */
  predicate FetchesOwnCursor(week: Walked, cursor: int) {
    (week.fetched == [] || week.fetched == [cursor]) && (week.err.None? ==> week.fetched == [cursor])
  }

  lemma WeekFetchesCursor(cursor: int, fetch: Fetch, handle: GroupHandler, n: nat)
    ensures FetchesOwnCursor(WeekOf(cursor, fetch, handle, n), cursor)
  {
  }

  /**
   * The pages requested are the cursors from the first on, a week apart,
   * cut short only by an error; a walk that ends without error requests
   * each cursor before the bound exactly once.
   */
  lemma {:induction false} WalkFetchesCursors(cursor: int, bound: int, pass: WeekHandler, n: nat)
    requires forall c: int, m: nat :: FetchesOwnCursor(pass(c, m), c)
    ensures var w := WalkFrom(cursor, bound, pass, n);
      w.fetched <= CursorsFrom(cursor, bound) && (w.err.None? ==> w.fetched == CursorsFrom(cursor, bound))
    decreases bound + 7 - cursor
  {
    if cursor < bound + 7 {
      var week := pass(cursor, n);
      assert FetchesOwnCursor(week, cursor);
      assert CursorsFrom(cursor, bound) == [cursor] + CursorsFrom(cursor + 7, bound);
      if week.err.None? {
        WalkFetchesCursors(cursor + 7, bound, pass, n + |week.events|);
      }
    }
  }

  lemma ExportFetchesCursors(start: int, end: int, fetch: Fetch, stamps: Stamps, n: nat)
    ensures var w := ExportWeeks(start, end, fetch, stamps, n);
      w.fetched <= CursorsFrom(start, end) && (w.err.None? ==> w.fetched == CursorsFrom(start, end))
  {
    if end + 7 <= MaxOrdinal {
      var handle := GroupHandlerFor(start, end, stamps);
      var pass := WeekHandlerFor(fetch, handle);
      forall c: int, m: nat
        ensures FetchesOwnCursor(pass(c, m), c)
      {
        WeekFetchesCursor(c, fetch, handle, m);
      }
      WalkFetchesCursors(start, end, pass, n);
    }
  }

  /** Within a week of the bound the walk is a single pass. */
  lemma LastCursor(cursor: int, bound: int, pass: WeekHandler, n: nat)
    requires bound <= cursor < bound + 7
    ensures WalkFrom(cursor, bound, pass, n).fetched == pass(cursor, n).fetched
  {
    var week := pass(cursor, n);
    if week.err.None? {
      assert week.fetched + [] == week.fetched;
    }
  }

  /**
   * A window shorter than a week after its start (in particular start ==
   * end) takes exactly one pass and at most one request: the page of start,
   * unless the bound end + 7 days or the Sunday of start's week is past
   * datetime's range, which fails first. When start > end that request
   * still happens, and adds nothing.
   */
  lemma SingleWeekWindow(start: int, end: int, fetch: Fetch, stamps: Stamps, n: nat)
    requires end <= start < end + 7
    ensures ExportWeeks(start, end, fetch, stamps, n).fetched
      == if end + 7 <= MaxOrdinal && WeekSunday(start) <= MaxOrdinal then [start] else []
    ensures start > end ==> ExportWeeks(start, end, fetch, stamps, n).events == []
  {
    if end + 7 <= MaxOrdinal {
      var handle := GroupHandlerFor(start, end, stamps);
      var pass := WeekHandlerFor(fetch, handle);
      LastCursor(start, end, pass, n);
    }
    if start > end {
      NothingFromEmptyWindow(start, end, fetch, stamps, n);
    }
  }

  // ---- coverage (lines 37-42, 70) -------------------------------------------

  /** Every day of the window lies in the Monday-Sunday week of one of the cursors. */
  lemma WeeksCoverWindow(start: int, end: int, d: int)
    requires start <= d <= end
    ensures exists k ::
      0 <= k < |CursorsFrom(start, end)| && Between(WeekMonday(CursorsFrom(start, end)[k]), d, WeekSunday(CursorsFrom(start, end)[k]))
  {
    var cursors := CursorsFrom(start, end);
    var w := Weekday(start);
    var monday := start - w;
    var k := (d - monday) / 7;
    assert 7 * k <= d - monday < 7 * k + 7;
    assert 7 * k <= end - start + 6;
    assert k < |cursors|;
    var c := cursors[k];
    assert c == start + 7 * k;
    WeekdayShift(start, k);
    assert WeekMonday(c) == monday + 7 * k;
    assert 0 <= k < |cursors| && Between(WeekMonday(cursors[k]), d, WeekSunday(cursors[k]));
  }

  /** A run that ends without error has requested the page of every day of the window. */
  lemma ExportCoversWindow(start: int, end: int, fetch: Fetch, stamps: Stamps, n: nat, d: int)
    requires start <= d <= end
    requires ExportWeeks(start, end, fetch, stamps, n).err.None?
    ensures var fetched := ExportWeeks(start, end, fetch, stamps, n).fetched;
      exists k :: 0 <= k < |fetched| && Between(WeekMonday(fetched[k]), d, WeekSunday(fetched[k]))
  {
    ExportFetchesCursors(start, end, fetch, stamps, n);
    WeeksCoverWindow(start, end, d);
  }

  // ---- aborting (lines 58-61) -----------------------------------------------

  /** A group that fails, however many components precede it, aborts the loop over its page. */
  lemma {:induction false} EachGroupAborts(groups: seq<DayGroup>, i: nat, handle: GroupHandler, n: nat)
    requires i < |groups| && forall m: nat :: handle(groups[i], m).err.Some?
    ensures EachGroup(groups, handle, n).err.Some?
    decreases i
  {
    var first := handle(groups[0], n);
    if i > 0 && first.err.None? {
      assert groups[1..][i - 1] == groups[i];
      EachGroupAborts(groups[1..], i - 1, handle, n + |first.events|);
    }
  }

  /** A day group whose id does not resolve to a date aborts the loop over its page. */
  lemma BadIdAbortsPage(page: seq<DayGroup>, i: nat, start: int, end: int, stamps: Stamps, n: nat)
    requires i < |page| && page[i].id.Some? && ResolveGroupDate(page[i].id.value).Failure?
    ensures PageEvents(page, start, end, stamps, n).err.Some?
  {
    var handle := GroupHandlerFor(start, end, stamps);
    forall m: nat
      ensures handle(page[i], m).err.Some?
    {
      assert handle(page[i], m) == Added([], Some(ResolveGroupDate(page[i].id.value).error));
    }
    EachGroupAborts(page, i, handle, n);
  }

  /**
   * Such a group on the first page ends the whole run with an error, after
   * that one request (none when the bound or start's Sunday is past
   * datetime's range, which fails first).
   */
  lemma BadIdAbortsRun(start: int, end: int, fetch: Fetch, stamps: Stamps, n: nat, i: nat)
    requires start < end + 7
    requires fetch(start).Success? && i < |fetch(start).value|
    requires var group := fetch(start).value[i]; group.id.Some? && ResolveGroupDate(group.id.value).Failure?
    ensures ExportWeeks(start, end, fetch, stamps, n).err.Some?
    ensures ExportWeeks(start, end, fetch, stamps, n).fetched
      == if end + 7 <= MaxOrdinal && WeekSunday(start) <= MaxOrdinal then [start] else []
  {
    BadIdAbortsPage(fetch(start).value, i, start, end, stamps, n);
  }

  /** A pass that fails whatever precedes it ends the walk, if the walk requests its cursor at all, with that request last. */
  lemma {:induction false} WalkAbortsAt(cursor: int, bound: int, pass: WeekHandler, n: nat, c: int)
    requires forall c': int, m: nat :: FetchesOwnCursor(pass(c', m), c')
    requires forall m: nat :: pass(c, m).err.Some?
    requires c in WalkFrom(cursor, bound, pass, n).fetched
    ensures var w := WalkFrom(cursor, bound, pass, n);
      w.err.Some? && w.fetched[|w.fetched| - 1] == c
    decreases bound + 7 - cursor
  {
    var week := pass(cursor, n);
    assert FetchesOwnCursor(week, cursor);
    if week.err.None? {
      var rest := WalkFrom(cursor + 7, bound, pass, n + |week.events|);
      assert c != cursor by {
        assert pass(c, n).err.Some?;
      }
      assert c in rest.fetched;
      WalkAbortsAt(cursor + 7, bound, pass, n + |week.events|, c);
    }
  }

  /** A pass whose page holds a group that fails whatever precedes it fails too. */
  lemma WeekAborts(c: int, fetch: Fetch, handle: GroupHandler, i: nat, n: nat)
    requires fetch(c).Success? && i < |fetch(c).value|
    requires forall m: nat :: handle(fetch(c).value[i], m).err.Some?
    ensures WeekOf(c, fetch, handle, n).err.Some?
  {
    if WeekSunday(c) <= MaxOrdinal {
      EachGroupAborts(fetch(c).value, i, handle, n);
    }
  }

  /** A group whose id does not resolve fails whatever precedes it. */
  lemma BadIdFails(group: DayGroup, start: int, end: int, stamps: Stamps)
    requires group.id.Some? && ResolveGroupDate(group.id.value).Failure?
    ensures forall m: nat :: GroupHandlerFor(start, end, stamps)(group, m).err.Some?
  {
    forall m: nat
      ensures GroupHandlerFor(start, end, stamps)(group, m).err.Some?
    {
      assert GroupHandlerFor(start, end, stamps)(group, m) == Added([], Some(ResolveGroupDate(group.id.value).error));
    }
  }

  /** Every pass requests its own cursor's page or nothing. */
  lemma PassesFetchOwnCursor(fetch: Fetch, handle: GroupHandler)
    ensures forall c: int, m: nat :: FetchesOwnCursor(WeekHandlerFor(fetch, handle)(c, m), c)
  {
    forall c: int, m: nat
      ensures FetchesOwnCursor(WeekHandlerFor(fetch, handle)(c, m), c)
    {
      WeekFetchesCursor(c, fetch, handle, m);
    }
  }

  /** The pass of a page that holds an always-failing group always fails. */
  lemma PassAborts(c: int, fetch: Fetch, handle: GroupHandler, i: nat)
    requires fetch(c).Success? && i < |fetch(c).value|
    requires forall m: nat :: handle(fetch(c).value[i], m).err.Some?
    ensures forall m: nat :: WeekHandlerFor(fetch, handle)(c, m).err.Some?
  {
    forall m: nat
      ensures WeekHandlerFor(fetch, handle)(c, m).err.Some?
    {
      WeekAborts(c, fetch, handle, i, m);
    }
  }

  /** A run that requests anything is the walk from the start date. */
  lemma RunIsWalk(start: int, end: int, fetch: Fetch, stamps: Stamps, n: nat)
    ensures ExportWeeks(start, end, fetch, stamps, n).fetched != [] ==>
      ExportWeeks(start, end, fetch, stamps, n)
        == WalkFrom(start, end, WeekHandlerFor(fetch, GroupHandlerFor(start, end, stamps)), n)
  {
  }

  /** A page holding an always-failing group, once requested, ends the walk with that request last. */
  lemma WalkAbortsOnPage(start: int, end: int, fetch: Fetch, handle: GroupHandler, n: nat, c: int, i: nat)
    requires fetch(c).Success? && i < |fetch(c).value|
    requires forall m: nat :: handle(fetch(c).value[i], m).err.Some?
    requires c in WalkFrom(start, end, WeekHandlerFor(fetch, handle), n).fetched
    ensures var w := WalkFrom(start, end, WeekHandlerFor(fetch, handle), n);
      w.err.Some? && w.fetched[|w.fetched| - 1] == c
  {
    PassesFetchOwnCursor(fetch, handle);
    PassAborts(c, fetch, handle, i);
    WalkAbortsAt(start, end, WeekHandlerFor(fetch, handle), n, c);
  }

  /**
   * A day group whose id does not resolve, on the page of any cursor the
   * run requests, ends the run with an error, and that request is its last.
   */
  lemma BadIdAbortsAt(start: int, end: int, fetch: Fetch, stamps: Stamps, n: nat, c: int, i: nat)
    requires c in ExportWeeks(start, end, fetch, stamps, n).fetched
    requires fetch(c).Success? && i < |fetch(c).value|
    requires var group := fetch(c).value[i]; group.id.Some? && ResolveGroupDate(group.id.value).Failure?
    ensures var w := ExportWeeks(start, end, fetch, stamps, n);
      w.err.Some? && w.fetched[|w.fetched| - 1] == c
  {
    RunIsWalk(start, end, fetch, stamps, n);
    BadIdFails(fetch(c).value[i], start, end, stamps);
    WalkAbortsOnPage(start, end, fetch, GroupHandlerFor(start, end, stamps), n, c, i);
  }
}
