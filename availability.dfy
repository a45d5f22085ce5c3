/**
 * groq_engine.py, `AvailabilityAgent.get_two_week_availability`: the
 * calendar's events are grouped by the day they start on, the days are
 * visited in ascending key order, and each day becomes one sentence
 * "On <day>, you have <n> event(s): <entry>; <entry>". The Google Calendar
 * query and the datetime parsing and formatting are parameters.
 */
module Availability {
  import opened Wrappers
  import opened Text
  import opened Sequences
  import opened GoogleEvents
  import SearchEngine

  const NoEventsMessage := "You have no events scheduled for the next week."
  const Untitled := "Untitled event"

  /** What the two `strftime` calls give for a parsed datetime: '%Y-%m-%d' and '%I:%M %p'. */
  datatype Stamp = Stamp(dayKey: string, clock: string)

  datatype Clock = Clock(
    /** `datetime.fromisoformat` followed by the two `strftime` calls; `None` when it raises */
    parse: string -> Option<Stamp>,
    /** `datetime.strptime(day_key, '%Y-%m-%d').strftime('%A, %B %d')` */
    dayHeading: string -> string)

  /** The dictionary appended to `days[day_key]`. */
  datatype DayEvent = DayEvent(summary: string, start: Stamp, end: Stamp)

  /** `s.replace('Z', '+00:00')` */
  function ReplaceZ(s: string): (r: string)
    ensures 'Z' !in r
    ensures 'Z' !in s ==> r == s
  {
    if s == [] then []
    else (if s[0] == 'Z' then "+00:00" else [s[0]]) + ReplaceZ(s[1..])
  }

  /**
   * `event['start'].get('dateTime', event['start'].get('date'))`; `None`
   * when the key is missing or the value is `None`, where the source raises.
   */
  function TimeText(t: Option<EventTime>): Option<string>
  {
    if t.None? then None else SearchEngine.PyGetTime(t.value)
  }

  /** One pass of the first loop's body; `None` when it raises. */
  function ToDayEvent(e: GoogleEvent, clock: Clock): (r: Option<DayEvent>)
    ensures r.Some? ==> r.value.summary == (if e.summary.Some? then e.summary.value else Untitled)
    ensures r.Some? <==>
      && TimeText(e.start).Some? && clock.parse(ReplaceZ(TimeText(e.start).value)).Some?
      && TimeText(e.end).Some? && clock.parse(ReplaceZ(TimeText(e.end).value)).Some?
  {
    match TimeText(e.start)
    case None => None
    case Some(s) =>
      match clock.parse(ReplaceZ(s))
      case None => None
      case Some(st) =>
        match TimeText(e.end)
        case None => None
        case Some(t) =>
          match clock.parse(ReplaceZ(t))
          case None => None
          case Some(en) => Some(DayEvent(if e.summary.Some? then e.summary.value else Untitled, st, en))
  }

  /** The first loop succeeds only when every event converts; the first failure aborts the call. */
  function DayEvents(events: seq<GoogleEvent>, clock: Clock): (r: Option<seq<DayEvent>>)
    ensures r.Some? <==> forall i :: 0 <= i < |events| ==> ToDayEvent(events[i], clock).Some?
    ensures r.Some? ==> |r.value| == |events|
    ensures r.Some? ==> forall i :: 0 <= i < |events| ==> r.value[i] == ToDayEvent(events[i], clock).value
  {
    if forall i :: 0 <= i < |events| ==> ToDayEvent(events[i], clock).Some? then
      Some(seq(|events|, i requires 0 <= i < |events| => ToDayEvent(events[i], clock).value))
    else None
  }

  // ---------------------------------------------------------------------
  // The `days` dictionary

  /** The keys of `days` in insertion order: each day key the first time an event starts on it. */
  function FirstSeen(xs: seq<DayEvent>): seq<string>
  {
    if xs == [] then []
    else
      var keys := FirstSeen(xs[..|xs| - 1]);
      var key := xs[|xs| - 1].start.dayKey;
      if key in keys then keys else keys + [key]
  }

  /** `days[day_key]`: the events that start on `key`, in the order they came. */
  function OnDay(xs: seq<DayEvent>, key: string): (r: seq<DayEvent>)
    ensures forall x :: x in r ==> x.start.dayKey == key
  {
    Filter(xs, (x: DayEvent) => x.start.dayKey == key)
  }

  lemma OnDaySnoc(xs: seq<DayEvent>, x: DayEvent, key: string)
    ensures OnDay(xs + [x], key) == OnDay(xs, key) + (if x.start.dayKey == key then [x] else [])
  {
    assert (xs + [x])[..|xs|] == xs;
  }

  predicate Distinct(s: seq<string>)
  {
    forall i, j :: 0 <= i < j < |s| ==> s[i] != s[j]
  }

  /** No day key is recorded twice. */
  lemma {:induction false} FirstSeenDistinct(xs: seq<DayEvent>)
    ensures Distinct(FirstSeen(xs))
  {
    if xs != [] {
      FirstSeenDistinct(xs[..|xs| - 1]);
    }
  }

  /** The keys are exactly the days that have events: every event's day is a key, and every key has an event. */
  lemma {:induction false} FirstSeenComplete(xs: seq<DayEvent>)
    ensures forall i :: 0 <= i < |xs| ==> xs[i].start.dayKey in FirstSeen(xs)
    ensures forall k :: k in FirstSeen(xs) ==> OnDay(xs, k) != []
  {
    if xs != [] {
      var n := |xs| - 1;
      var init := xs[..n];
      FirstSeenComplete(init);
      assert xs == init + [xs[n]];
      forall i | 0 <= i < |xs| ensures xs[i].start.dayKey in FirstSeen(xs) {
        if i < n { assert xs[i] == init[i]; }
      }
      forall k | k in FirstSeen(xs) ensures OnDay(xs, k) != [] {
        OnDaySnoc(init, xs[n], k);
        if k !in FirstSeen(init) {
          assert k == xs[n].start.dayKey;
        }
      }
    }
  }

  /** Every event is listed under its own day. */
  lemma EventUnderItsDay(xs: seq<DayEvent>, i: nat)
    requires i < |xs|
    ensures xs[i] in OnDay(xs, xs[i].start.dayKey)
    ensures multiset(OnDay(xs, xs[i].start.dayKey))[xs[i]] == multiset(xs)[xs[i]]
  {
    FilterCount(xs, (x: DayEvent) => x.start.dayKey == xs[i].start.dayKey, xs[i]);
  }

  // ---------------------------------------------------------------------
  // `sorted(days.keys())`

  function Insert(x: string, s: seq<string>): seq<string>
  {
    if s == [] then [x]
    else if LexLeq(x, s[0]) then [x] + s
    else [s[0]] + Insert(x, s[1..])
  }

  function SortStrings(s: seq<string>): seq<string>
  {
    if s == [] then [] else Insert(s[0], SortStrings(s[1..]))
  }

  predicate SortedLex(s: seq<string>)
  {
    forall i, j :: 0 <= i < j < |s| ==> LexLeq(s[i], s[j])
  }

  lemma {:induction false} InsertPermutes(x: string, s: seq<string>)
    ensures multiset(Insert(x, s)) == multiset(s) + multiset{x}
  {
    if s != [] && !LexLeq(x, s[0]) {
      InsertPermutes(x, s[1..]);
      assert s == [s[0]] + s[1..];
    }
  }

  lemma InsertElements(x: string, s: seq<string>)
    ensures forall y :: y in Insert(x, s) <==> y == x || y in s
  {
    InsertPermutes(x, s);
    forall y ensures y in Insert(x, s) <==> y == x || y in s {
      assert y in Insert(x, s) <==> y in multiset(Insert(x, s));
      assert y in s <==> y in multiset(s);
    }
  }

  lemma {:induction false} InsertSorted(x: string, s: seq<string>)
    requires SortedLex(s)
    ensures SortedLex(Insert(x, s))
  {
    if s == [] {
    } else if LexLeq(x, s[0]) {
      var r := [x] + s;
      forall i, j | 0 <= i < j < |r| ensures LexLeq(r[i], r[j]) {
        if i == 0 && j > 1 {
          LexLeqTransitive(x, s[0], s[j - 1]);
        }
      }
    } else {
      var tail := s[1..];
      assert SortedLex(tail) by {
        forall i, j | 0 <= i < j < |tail| ensures LexLeq(tail[i], tail[j]) {
          assert tail[i] == s[i + 1] && tail[j] == s[j + 1];
        }
      }
      InsertSorted(x, tail);
      InsertElements(x, tail);
      LexLeqTotal(x, s[0]);
      assert forall m :: 0 <= m < |tail| ==> LexLeq(s[0], tail[m]) by {
        forall m | 0 <= m < |tail| ensures LexLeq(s[0], tail[m]) {
          assert tail[m] == s[m + 1];
        }
      }
      var ins := Insert(x, tail);
      var r := [s[0]] + ins;
      forall i, j | 0 <= i < j < |r| ensures LexLeq(r[i], r[j]) {
        if i == 0 {
          assert r[j] == ins[j - 1] && ins[j - 1] in ins;
        } else {
          assert r[i] == ins[i - 1] && r[j] == ins[j - 1];
        }
      }
    }
  }

  lemma {:induction false} InsertDistinct(x: string, s: seq<string>)
    requires Distinct(s) && x !in s
    ensures Distinct(Insert(x, s))
  {
    if s != [] && !LexLeq(x, s[0]) {
      var tail := s[1..];
      assert Distinct(tail) by {
        forall i, j | 0 <= i < j < |tail| ensures tail[i] != tail[j] {
          assert tail[i] == s[i + 1] && tail[j] == s[j + 1];
        }
      }
      assert s[0] !in tail by {
        forall m | 0 <= m < |tail| ensures tail[m] != s[0] {
          assert tail[m] == s[m + 1];
        }
      }
      InsertDistinct(x, tail);
      InsertElements(x, tail);
      var ins := Insert(x, tail);
      assert s[0] !in ins;
      var r := [s[0]] + ins;
      forall i, j | 0 <= i < j < |r| ensures r[i] != r[j] {
        if i == 0 {
          assert r[j] == ins[j - 1] && ins[j - 1] in ins;
        } else {
          assert r[i] == ins[i - 1] && r[j] == ins[j - 1];
        }
      }
    }
  }

  /** `sorted` returns the same keys, each as often as before, in ascending order. */
  lemma {:induction false} SortStringsCorrect(s: seq<string>)
    ensures multiset(SortStrings(s)) == multiset(s)
    ensures SortedLex(SortStrings(s))
  {
    if s != [] {
      SortStringsCorrect(s[1..]);
      InsertPermutes(s[0], SortStrings(s[1..]));
      InsertSorted(s[0], SortStrings(s[1..]));
      assert s == [s[0]] + s[1..];
    }
  }

  lemma {:induction false} SortStringsDistinct(s: seq<string>)
    requires Distinct(s)
    ensures Distinct(SortStrings(s))
  {
    if s != [] {
      var tail := s[1..];
      assert Distinct(tail) by {
        forall i, j | 0 <= i < j < |tail| ensures tail[i] != tail[j] {
          assert tail[i] == s[i + 1] && tail[j] == s[j + 1];
        }
      }
      SortStringsDistinct(tail);
      SortStringsCorrect(tail);
      assert s[0] !in multiset(tail);
      InsertDistinct(s[0], SortStrings(tail));
    }
  }

  /** The visiting order of the second loop: the day keys, each once, strictly ascending. */
  function DayOrder(xs: seq<DayEvent>): seq<string>
  {
    SortStrings(FirstSeen(xs))
  }

  /**
   * One summary per distinct day that has an event, in strictly ascending
   * key order.
   */
  lemma DayOrderAscending(xs: seq<DayEvent>)
    ensures var order := DayOrder(xs);
      && (forall i, j :: 0 <= i < j < |order| ==> LexLeq(order[i], order[j]) && order[i] != order[j])
      && (forall i :: 0 <= i < |xs| ==> xs[i].start.dayKey in order)
      && (forall k :: k in order ==> OnDay(xs, k) != [])
  {
    var keys := FirstSeen(xs);
    FirstSeenDistinct(xs);
    FirstSeenComplete(xs);
    SortStringsCorrect(keys);
    SortStringsDistinct(keys);
    var order := SortStrings(keys);
    forall k ensures k in order <==> k in keys {
      assert k in order <==> k in multiset(order);
      assert k in keys <==> k in multiset(keys);
    }
  }

  // ---------------------------------------------------------------------
  // The sentences

  /** `f"{event['summary']} from {start} to {end}"` with the two '%I:%M %p' clocks. */
  function EntryText(d: DayEvent): string
  {
    d.summary + " from " + d.start.clock + " to " + d.end.clock
  }

  function Plural(n: nat): string
  {
    if n > 1 then "s" else ""
  }

  /** `f"On {day_str}, you have {len(events_str)} event{'s' if len(events_str) > 1 else ''}: "` */
  function Header(heading: string, n: nat): string
  {
    "On " + heading + ", you have " + NatToString(n) + " event" + Plural(n) + ": "
  }

  function DaySummary(heading: string, day: seq<DayEvent>): string
  {
    Header(heading, |day|) + Join(Map(day, EntryText), "; ")
  }

  /**
   * The count in a day's sentence reads back as the number of its events,
   * and the noun is "events" exactly when there are more than one.
   */
  lemma HeaderCount(heading: string, n: nat)
    ensures ParseDecimal(NatToString(n)) == n
    ensures Header(heading, n) == "On " + heading + ", you have " + NatToString(n) + (if n > 1 then " events: " else " event: ")
  {
    ParseNatToString(n);
    if n > 1 {
      assert " event" + "s" + ": " == " events: ";
    } else {
      assert " event" + "" + ": " == " event: ";
    }
  }

  /** The `summary` list: one sentence per key of `keys`. */
  function DaySummaries(keys: seq<string>, xs: seq<DayEvent>, clock: Clock): (r: seq<string>)
    ensures |r| == |keys|
  {
    if keys == [] then []
    else
      var n := |keys| - 1;
      DaySummaries(keys[..n], xs, clock) + [DaySummary(clock.dayHeading(keys[n]), OnDay(xs, keys[n]))]
  }

  lemma {:induction false} DaySummariesAt(keys: seq<string>, xs: seq<DayEvent>, clock: Clock, i: nat)
    requires i < |keys|
    ensures DaySummaries(keys, xs, clock)[i] == DaySummary(clock.dayHeading(keys[i]), OnDay(xs, keys[i]))
  {
    var n := |keys| - 1;
    if i < n {
      DaySummariesAt(keys[..n], xs, clock, i);
    }
  }

  /** The value `get_two_week_availability` returns; `None` where it raises. */
  function TwoWeekAvailability(events: seq<GoogleEvent>, clock: Clock): (r: Option<string>)
    ensures events == [] ==> r == Some(NoEventsMessage)
    ensures r.None? <==> exists i :: 0 <= i < |events| && ToDayEvent(events[i], clock).None?
  {
    if events == [] then Some(NoEventsMessage)
    else
      match DayEvents(events, clock)
      case None => None
      case Some(xs) => Some(Join(DaySummaries(DayOrder(xs), xs, clock), "\n\n"))
  }

  /**
   * Sentence `i` of a successful summary is about the `i`-th day in
   * ascending key order, with that day's events in their original order.
   */
  lemma SummarySentences(events: seq<GoogleEvent>, clock: Clock)
    requires events != [] && DayEvents(events, clock).Some?
    ensures var xs := DayEvents(events, clock).value;
      var order := DayOrder(xs);
      && TwoWeekAvailability(events, clock) == Some(Join(DaySummaries(order, xs, clock), "\n\n"))
      && |order| >= 1
      && forall i :: 0 <= i < |order| ==>
           DaySummaries(order, xs, clock)[i] == DaySummary(clock.dayHeading(order[i]), OnDay(xs, order[i]))
  {
    var xs := DayEvents(events, clock).value;
    DayOrderAscending(xs);
    assert xs[0].start.dayKey in DayOrder(xs);
    forall i | 0 <= i < |DayOrder(xs)|
      ensures DaySummaries(DayOrder(xs), xs, clock)[i] == DaySummary(clock.dayHeading(DayOrder(xs)[i]), OnDay(xs, DayOrder(xs)[i]))
    {
      DaySummariesAt(DayOrder(xs), xs, clock, i);
    }
  }

  /** A day with a single event has a singular header and that event's entry. */
  lemma SingleEventSentence(heading: string, d: DayEvent)
    ensures DaySummary(heading, [d]) == "On " + heading + ", you have 1 event: " + EntryText(d)
  {
    assert Map([d], EntryText) == [EntryText(d)];
    assert NatToString(1) == "1";
    HeaderCount(heading, 1);
  }

  /** Events that all fall on one day: the summary is that day's sentence alone. */
  lemma SingleDaySummaries(d: DayEvent, clock: Clock)
    ensures Join(DaySummaries(DayOrder([d]), [d], clock), "\n\n")
      == DaySummary(clock.dayHeading(d.start.dayKey), [d])
  {
    assert [d][..0] == [];
    assert FirstSeen([d]) == [d.start.dayKey];
    var one := [d.start.dayKey];
    assert one[1..] == [];
    assert SortStrings(one) == Insert(d.start.dayKey, []);
    assert DayOrder([d]) == one;
    assert OnDay([d], d.start.dayKey) == [d] by {
      OnDaySnoc([], d, d.start.dayKey);
    }
    assert one[..0] == [];
  }

  /** A calendar with one untitled event gives one singular sentence. */
  lemma OneUntitledEvent(e: GoogleEvent, clock: Clock, s: string, t: string, start: Stamp, end: Stamp)
    requires e.summary.None? && TimeText(e.start) == Some(s) && TimeText(e.end) == Some(t)
    requires clock.parse(ReplaceZ(s)) == Some(start) && clock.parse(ReplaceZ(t)) == Some(end)
    ensures TwoWeekAvailability([e], clock)
      == Some(("On " + clock.dayHeading(start.dayKey) + ", you have 1 event: ")
              + (Untitled + " from " + start.clock + " to " + end.clock))
  {
    var d := DayEvent(Untitled, start, end);
    assert ToDayEvent(e, clock) == Some(d);
    var evs := DayEvents([e], clock);
    assert evs.Some? && |evs.value| == 1 && evs.value[0] == d;
    assert evs.value == [d];
    assert TwoWeekAvailability([e], clock) == Some(Join(DaySummaries(DayOrder([d]), [d], clock), "\n\n"));
    SingleDaySummaries(d, clock);
    var h := clock.dayHeading(start.dayKey);
    SingleEventSentence(h, d);
  }

  // ---------------------------------------------------------------------
  // The method with the source's loops

  lemma OnDayOnlyKeys(xs: seq<DayEvent>, key: string)
    ensures key !in FirstSeen(xs) ==> OnDay(xs, key) == []
  {
    FirstSeenComplete(xs);
    forall x | x in OnDay(xs, key) ensures key in FirstSeen(xs) {
      var i :| 0 <= i < |xs| && xs[i] == x;
    }
    if OnDay(xs, key) != [] {
      assert OnDay(xs, key)[0] in OnDay(xs, key);
    }
  }

  /** What the first loop keeps: the keys in insertion order, and each key's list of events. */
  ghost predicate Grouped(xs: seq<DayEvent>, keys: seq<string>, days: map<string, seq<DayEvent>>)
  {
    && keys == FirstSeen(xs)
    && (forall k :: k in days <==> k in keys)
    && (forall k :: k in keys ==> days[k] == OnDay(xs, k))
  }

  lemma GroupedSnoc(xs: seq<DayEvent>, keys: seq<string>, days: map<string, seq<DayEvent>>, d: DayEvent)
    requires Grouped(xs, keys, days)
    ensures var key := d.start.dayKey;
      var days' := if key in days then days else days[key := []];
      var keys' := if key in days then keys else keys + [key];
      Grouped(xs + [d], keys', days'[key := days'[key] + [d]])
  {
    assert (xs + [d])[..|xs|] == xs;
    var key := d.start.dayKey;
    var days' := if key in days then days else days[key := []];
    var keys' := if key in days then keys else keys + [key];
    OnDayOnlyKeys(xs, key);
    forall k | k in keys' ensures (days'[key := days'[key] + [d]])[k] == OnDay(xs + [d], k) {
      OnDaySnoc(xs, d, k);
    }
  }

  /** `xs` holds the converted first `|xs|` events. */
  ghost predicate Converted(events: seq<GoogleEvent>, clock: Clock, xs: seq<DayEvent>)
  {
    |xs| <= |events| && forall j :: 0 <= j < |xs| ==> ToDayEvent(events[j], clock) == Some(xs[j])
  }

  lemma ConvertedSnoc(events: seq<GoogleEvent>, clock: Clock, xs: seq<DayEvent>, d: DayEvent)
    requires Converted(events, clock, xs) && |xs| < |events| && ToDayEvent(events[|xs|], clock) == Some(d)
    ensures Converted(events, clock, xs + [d])
  {
    forall j | 0 <= j < |xs| + 1 ensures ToDayEvent(events[j], clock) == Some((xs + [d])[j]) {
      if j < |xs| {
        assert (xs + [d])[j] == xs[j];
      }
    }
  }

  /** Lines 97-110 for one event: read and parse its start and end, default its summary. */
  method ConvertEvent(e: GoogleEvent, clock: Clock) returns (d: Option<DayEvent>)
    ensures d == ToDayEvent(e, clock)
  {
    var start := TimeText(e.start);
    if start.None? {
      return None;
    }
    var startDt := clock.parse(ReplaceZ(start.value));
    if startDt.None? {
      return None;
    }
    var end := TimeText(e.end);
    if end.None? {
      return None;
    }
    var endDt := clock.parse(ReplaceZ(end.value));
    if endDt.None? {
      return None;
    }
    d := Some(DayEvent(if e.summary.Some? then e.summary.value else Untitled, startDt.value, endDt.value));
  }

  /** The first loop: fill `days` in event order, or stop at the first event that raises. */
  method GroupByDay(events: seq<GoogleEvent>, clock: Clock)
    returns (ok: bool, keys: seq<string>, days: map<string, seq<DayEvent>>, ghost xs: seq<DayEvent>)
    ensures ok <==> DayEvents(events, clock).Some?
    ensures ok ==> xs == DayEvents(events, clock).value && Grouped(xs, keys, days)
  {
    keys, days, xs := [], map[], [];
    for i := 0 to |events|
      invariant |xs| == i && Converted(events, clock, xs)
      invariant Grouped(xs, keys, days)
    {
      var converted := ConvertEvent(events[i], clock);
      if converted.None? {
        return false, keys, days, xs;
      }
      var d := converted.value;
      var dayKey := d.start.dayKey;
      GroupedSnoc(xs, keys, days, d);
      if dayKey !in days {
        days := days[dayKey := []];
        keys := keys + [dayKey];
      }
      days := days[dayKey := days[dayKey] + [d]];
      ConvertedSnoc(events, clock, xs, d);
      xs := xs + [d];
    }
    ok := true;
  }

  method DescribeDay(dayStr: string, dayEvents: seq<DayEvent>) returns (daySummary: string)
    ensures daySummary == DaySummary(dayStr, dayEvents)
  {
    var eventsStr: seq<string> := [];
    for m := 0 to |dayEvents|
      invariant eventsStr == Map(dayEvents[..m], EntryText)
    {
      var event := dayEvents[m];
      var timeStr := event.start.clock + " to " + event.end.clock;
      assert event.summary + " from " + timeStr == EntryText(event);
      assert dayEvents[..m + 1] == dayEvents[..m] + [event];
      MapSnoc(dayEvents[..m], event, EntryText);
      eventsStr := eventsStr + [event.summary + " from " + timeStr];
    }
    assert dayEvents[..|dayEvents|] == dayEvents;
    daySummary := "On " + dayStr + ", you have " + NatToString(|eventsStr|) + " event"
      + (if |eventsStr| > 1 then "s" else "") + ": ";
    assert daySummary == Header(dayStr, |dayEvents|);
    daySummary := daySummary + Join(eventsStr, "; ");
  }

  /** The second loop: one sentence per key, in the order given. */
  method DescribeDays(order: seq<string>, days: map<string, seq<DayEvent>>, clock: Clock, ghost xs: seq<DayEvent>)
    returns (summary: seq<string>)
    requires forall k :: k in order ==> k in days && days[k] == OnDay(xs, k)
    ensures summary == DaySummaries(order, xs, clock)
  {
    summary := [];
    for j := 0 to |order|
      invariant summary == DaySummaries(order[..j], xs, clock)
    {
      var dayKey := order[j];
      var dayEvents := days[dayKey];
      var dayStr := clock.dayHeading(dayKey);
      var daySummary := DescribeDay(dayStr, dayEvents);
      assert order[..j + 1][..j] == order[..j];
      summary := summary + [daySummary];
    }
    assert order[..|order|] == order;
  }

  /** `get_two_week_availability` after the calendar query; its result is the one the function above defines. */
  method GetTwoWeekAvailability(events: seq<GoogleEvent>, clock: Clock) returns (r: Option<string>)
    ensures r == TwoWeekAvailability(events, clock)
  {
    if |events| == 0 {
      return Some(NoEventsMessage);
    }
    var ok, keys, days, xs := GroupByDay(events, clock);
    if !ok {
      return None;
    }
    var order := SortStrings(keys);
    SortStringsCorrect(keys);
    forall k | k in order ensures k in days && days[k] == OnDay(xs, k) {
      assert k in multiset(keys);
    }
    var summary := DescribeDays(order, days, clock, xs);
    r := Some(Join(summary, "\n\n"));
  }
}
