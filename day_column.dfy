/**
 * DayColumn.jsx: one column of the weekly grid, 1440 px high at 60 px per
 * hour (one pixel per minute), with 24 hour guidelines and one absolutely
 * positioned box per event.
 */
module DayColumn {
  import opened CalendarEvents
  import opened Sequences

  const PixelsPerHour: int := 60
  const HoursPerDay: int := 24
  /** The fixed column height set in WeeklyCalendar.jsx (`h-[1440px]`). */
  const ColumnHeight: int := 1440

  /** The `top` and `height` style of an absolutely positioned element, in pixels. */
  datatype Box = Box(top: int, height: int)

  datatype PlacedEvent = PlacedEvent(event: CalendarEvent, box: Box)

  /**
   * The box of one event: its top is the start's minute of the day and its
   * height the end's minute of the day minus that. Nothing is clamped: an
   * event ending at the same time of day has height 0, and one ending at an
   * earlier time of day (crossing midnight) has a negative height.
   */
  function EventBox(e: CalendarEvent): (b: Box)
    ensures b.top == MinuteOfDay(e.start)
    ensures b.height == MinuteOfDay(e.end) - MinuteOfDay(e.start)
    ensures b.top + b.height == MinuteOfDay(e.end)
    ensures ValidMoment(e.start) ==> 0 <= b.top < ColumnHeight
    ensures ValidMoment(e.end) ==> 0 <= b.top + b.height < ColumnHeight
    ensures b.height == 0 <==> MinuteOfDay(e.end) == MinuteOfDay(e.start)
    ensures b.height < 0 <==> MinuteOfDay(e.end) < MinuteOfDay(e.start)
  {
    var top := e.start.hours * PixelsPerHour + e.start.minutes;
    var height := (e.end.hours * PixelsPerHour + e.end.minutes) - top;
    Box(top, height)
  }

  /** The 09:15-10:00 event is drawn 555 px from the top and 45 px high. */
  lemma QuarterPastNineExample(e: CalendarEvent)
    requires e.start.hours == 9 && e.start.minutes == 15
    requires e.end.hours == 10 && e.end.minutes == 0
    ensures EventBox(e) == Box(555, 45)
  {
  }

  /** The 24 hour guidelines: guideline `i` starts at `i * 60` px and is 60 px high. */
  function Guidelines(): (r: seq<Box>)
    ensures |r| == HoursPerDay
    ensures forall i :: 0 <= i < |r| ==> r[i] == Box(i * PixelsPerHour, PixelsPerHour)
  {
    seq(HoursPerDay, i => Box(i * PixelsPerHour, PixelsPerHour))
  }

  /** The guidelines tile the column: they start at 0, abut, and end at 1440 px. */
  lemma GuidelinesTileColumn()
    ensures Guidelines()[0].top == 0
    ensures forall i :: 0 <= i < HoursPerDay - 1 ==>
      Guidelines()[i].top + Guidelines()[i].height == Guidelines()[i + 1].top
    ensures Guidelines()[HoursPerDay - 1].top + Guidelines()[HoursPerDay - 1].height == ColumnHeight
  {
  }

  /** An event's top edge falls inside the guideline of its start hour. */
  lemma EventStartsInItsHourRow(e: CalendarEvent)
    requires ValidMoment(e.start)
    ensures var g := Guidelines()[e.start.hours];
      g.top <= EventBox(e).top < g.top + g.height
  {
  }

  /** `events.map(...)`: one box per event, in input order. */
  function ColumnLayout(events: seq<CalendarEvent>): (r: seq<PlacedEvent>)
    ensures |r| == |events|
    ensures forall i :: 0 <= i < |r| ==> r[i].event == events[i] && r[i].box == EventBox(events[i])
  {
    Map(events, (e: CalendarEvent) => PlacedEvent(e, EventBox(e)))
  }
}
