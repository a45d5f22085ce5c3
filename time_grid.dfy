/** TimeGrid.jsx: the hour-label column to the left of the day columns. */
module TimeGrid {
  import opened Wrappers
  import opened Text
  import opened DayColumn

  /** The label of hour row `i`, written as the component's nested conditional. */
  function HourLabel(i: nat): string
  {
    if i == 0 then "12 AM"
    else if i < 12 then NatToString(i) + " AM"
    else if i == 12 then "12 PM"
    else NatToString(i - 12) + " PM"
  }

  datatype Row = Row(box: Box, caption: string)

  /** The 24 rows: row `i` starts at `i * 60` px, is 60 px high and carries `HourLabel(i)`. */
  function Rows(): (r: seq<Row>)
    ensures |r| == HoursPerDay
    ensures forall i :: 0 <= i < |r| ==> r[i] == Row(Box(i * PixelsPerHour, PixelsPerHour), HourLabel(i))
  {
    seq(HoursPerDay, i requires 0 <= i => Row(Box(i * PixelsPerHour, PixelsPerHour), HourLabel(i)))
  }

  /** The label rows line up with the hour guidelines of every day column. */
  lemma RowsAlignWithGuidelines(i: nat)
    requires i < HoursPerDay
    ensures Rows()[i].box == Guidelines()[i]
  {
  }

  /**
   * Every label is a 12-hour clock reading: the number is `i mod 12`, with 12
   * standing for 0, so it lies in 1..12, and the suffix is AM exactly for the
   * hours before noon.
   */
  lemma {:induction false} HourLabelIsTwelveHourClock(i: nat)
    requires i < HoursPerDay
    ensures var n := if i % 12 == 0 then 12 else i % 12;
      && 1 <= n <= 12
      && HourLabel(i) == NatToString(n) + (if i < 12 then " AM" else " PM")
  {
    if i == 0 || i == 12 {
      assert i % 12 == 0;
      assert NatToString(12) == NatToString(1) + [DigitChar(2)];
    } else if i < 12 {
      assert i % 12 == i;
    } else {
      assert i % 12 == i - 12;
    }
  }

  /** Reads a label back as an hour of the day (0..23), or `None` if it is not one. */
  function ParseHourLabel(s: string): Option<nat>
  {
    if |s| < 4 then None
    else
      var digits, suffix := s[..|s| - 3], s[|s| - 3..];
      if !AllDigits(digits) || (suffix != " AM" && suffix != " PM") then None
      else
        var n := ParseDecimal(digits);
        if n < 1 || 12 < n then None
        else if suffix == " AM" then Some(if n == 12 then 0 else n)
        else Some(if n == 12 then 12 else n + 12)
  }

  /** A 12-hour reading `n AM` / `n PM` parses back to its hour of the day. */
  lemma ParseTwelveHourReading(n: nat, pm: bool)
    requires 1 <= n <= 12
    ensures ParseHourLabel(NatToString(n) + (if pm then " PM" else " AM"))
      == Some(if pm then (if n == 12 then 12 else n + 12) else (if n == 12 then 0 else n))
  {
    var suffix := if pm then " PM" else " AM";
    var s := NatToString(n) + suffix;
    assert s[..|s| - 3] == NatToString(n);
    assert s[|s| - 3..] == suffix;
    ParseNatToString(n);
  }

  /** Each label names its own hour: reading it back gives the row index. */
  lemma HourLabelRoundTrip(i: nat)
    requires i < HoursPerDay
    ensures ParseHourLabel(HourLabel(i)) == Some(i)
  {
    if i == 0 || i == 12 {
      HourLabelIsTwelveHourClock(i);
      ParseTwelveHourReading(12, i == 12);
    } else if i < 12 {
      ParseTwelveHourReading(i, false);
    } else {
      ParseTwelveHourReading(i - 12, true);
    }
  }

  /** No two rows carry the same label. */
  lemma HourLabelsDistinct(i: nat, j: nat)
    requires i < HoursPerDay && j < HoursPerDay && i != j
    ensures HourLabel(i) != HourLabel(j)
  {
    HourLabelRoundTrip(i);
    HourLabelRoundTrip(j);
  }
}
