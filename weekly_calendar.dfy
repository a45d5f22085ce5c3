/**
 * WeeklyCalendar.jsx: seven day columns, Sunday to Saturday. The events are
 * bucketed by the weekday of their start with one `filter` per day; there is
 * no date-range filter, so events of any week share the columns.
 */
module WeeklyCalendar {
  import opened CalendarEvents
  import opened Sequences
  import opened DayColumn

  const DayNames: seq<string> := ["Sunday", "Monday", "Tuesday", "Wednesday", "Thursday", "Friday", "Saturday"]

  /** `event => event.start.getDay() === index` */
  function StartsOnWeekday(d: int): CalendarEvent -> bool
  {
    (e: CalendarEvent) => Weekday(e.start) == d
  }

  /** `eventsByDay`: bucket `d` holds the events whose start falls on weekday `d`. */
  function EventsByDay(events: seq<CalendarEvent>): (r: seq<seq<CalendarEvent>>)
    ensures |r| == |DayNames| == 7
    ensures forall d :: 0 <= d < 7 ==> r[d] == Filter(events, StartsOnWeekday(d))
  {
    seq(|DayNames|, d requires 0 <= d < |DayNames| => Filter(events, StartsOnWeekday(d)))
  }

  /** Every event in bucket `d` is an input event starting on weekday `d`. */
  lemma BucketsAreHomogeneous(events: seq<CalendarEvent>, d: nat, e: CalendarEvent)
    requires d < 7 && e in EventsByDay(events)[d]
    ensures e in events && Weekday(e.start) == d
  {
    assert StartsOnWeekday(d)(e);
  }

  /** Each input event lands in the bucket of its start weekday and in no other. */
  lemma {:induction false} EachEventInExactlyOneBucket(events: seq<CalendarEvent>, e: CalendarEvent)
    requires e in events
    ensures var w := Weekday(e.start);
      && e in EventsByDay(events)[w]
      && forall d :: 0 <= d < 7 && d != w ==> e !in EventsByDay(events)[d]
  {
    var w := Weekday(e.start);
    FilterCount(events, StartsOnWeekday(w), e);
    assert multiset(events)[e] > 0;
    forall d | 0 <= d < 7 && d != w ensures e !in EventsByDay(events)[d] {
      FilterCount(events, StartsOnWeekday(d), e);
    }
  }

  /**
   * The buckets partition the input: together they hold every event exactly
   * as often as the input does, so their sizes add up to the input length.
   */
  lemma {:induction false} BucketsPartitionEvents(events: seq<CalendarEvent>)
    ensures var r := EventsByDay(events);
      && multiset(r[0]) + multiset(r[1]) + multiset(r[2]) + multiset(r[3])
         + multiset(r[4]) + multiset(r[5]) + multiset(r[6]) == multiset(events)
      && |r[0]| + |r[1]| + |r[2]| + |r[3]| + |r[4]| + |r[5]| + |r[6]| == |events|
  {
    var r := EventsByDay(events);
    var all := multiset(r[0]) + multiset(r[1]) + multiset(r[2]) + multiset(r[3])
               + multiset(r[4]) + multiset(r[5]) + multiset(r[6]);
    forall e ensures all[e] == multiset(events)[e] {
      FilterCount(events, StartsOnWeekday(0), e);
      FilterCount(events, StartsOnWeekday(1), e);
      FilterCount(events, StartsOnWeekday(2), e);
      FilterCount(events, StartsOnWeekday(3), e);
      FilterCount(events, StartsOnWeekday(4), e);
      FilterCount(events, StartsOnWeekday(5), e);
      FilterCount(events, StartsOnWeekday(6), e);
    }
    assert all == multiset(events);
    assert |all| == |multiset(events)|;
  }

  /**
   * Within a bucket the events keep their input order: bucket `d` lists the
   * events at the increasing positions `p` whose start is on weekday `d`, and
   * every such position is in `p`.
   */
  lemma BucketKeepsInputOrder(events: seq<CalendarEvent>, d: nat)
    requires d < 7
    ensures var b, p := EventsByDay(events)[d], KeptPositions(events, StartsOnWeekday(d));
      && |b| == |p| && StrictlyIncreasing(p)
      && (forall j :: 0 <= j < |p| ==> p[j] < |events| && b[j] == events[p[j]])
      && (forall k :: 0 <= k < |events| && Weekday(events[k].start) == d ==> k in p)
  {
    FilterIsOrderedSelection(events, StartsOnWeekday(d));
    forall k | 0 <= k < |events| && Weekday(events[k].start) == d
      ensures k in KeptPositions(events, StartsOnWeekday(d))
    {
      assert StartsOnWeekday(d)(events[k]);
    }
  }

  /** Moving a whole number of weeks leaves the remainder of `day + 4` by 7 unchanged. */
  lemma WeekdayRepeatsWeekly(m: Moment, n: Moment, weeks: int)
    requires n.day == m.day + 7 * weeks
    ensures Weekday(n) == Weekday(m)
  {
    var q, r := (m.day + 4) / 7, (m.day + 4) % 7;
    assert n.day + 4 == 7 * (q + weeks) + r;
  }

  /**
   * No week window: two input events whose starts are a whole number of weeks
   * apart are shown in the same column, however far apart they are.
   */
  lemma SameWeekdayShareBucket(events: seq<CalendarEvent>, a: CalendarEvent, b: CalendarEvent, weeks: int)
    requires a in events && b in events
    requires b.start.day == a.start.day + 7 * weeks
    ensures var w := Weekday(a.start);
      a in EventsByDay(events)[w] && b in EventsByDay(events)[w]
  {
    WeekdayRepeatsWeekly(a.start, b.start, weeks);
    EachEventInExactlyOneBucket(events, a);
    EachEventInExactlyOneBucket(events, b);
  }

  /** The rendered week: column `d` is the `DayColumn` of bucket `d`. */
  function WeekView(events: seq<CalendarEvent>): (r: seq<seq<PlacedEvent>>)
    ensures |r| == 7
    ensures forall d :: 0 <= d < 7 ==> r[d] == ColumnLayout(EventsByDay(events)[d])
  {
    var buckets := EventsByDay(events);
    seq(|DayNames|, d requires 0 <= d < |DayNames| => ColumnLayout(buckets[d]))
  }

  /** Every box drawn in column `d` belongs to an input event starting on weekday `d`. */
  lemma WeekViewPlacement(events: seq<CalendarEvent>, d: nat, j: nat)
    requires d < 7 && j < |WeekView(events)[d]|
    ensures var pe := WeekView(events)[d][j];
      pe.event in events && Weekday(pe.event.start) == d && pe.box == EventBox(pe.event)
  {
    var pe := WeekView(events)[d][j];
    assert pe.event == EventsByDay(events)[d][j];
    BucketsAreHomogeneous(events, d, pe.event);
  }
}
