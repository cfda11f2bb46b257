/** The pieces of a JavaScript `Date` the calendars use, in local time:
    the day, the hour, the minute, and the seconds and milliseconds below the
    minute lumped together. Time zones and daylight saving are not modelled. */
module CalendarTime {
  import opened Seqs

  type Hour = h: nat | h < 24
  type Minute = m: nat | m < 60
  /** Seconds and milliseconds below the minute, in milliseconds. */
  type Millis = ms: nat | ms < 60000

  const MinutesPerDay: nat := 24 * 60

  /** `day` counts days from 1970-01-01 (day 0), negative before it. */
  datatype Date = Date(day: int, hour: Hour, minute: Minute, millis: Millis)

  /** A range picked on the calendar grid: `{ start, end }`. */
  datatype Slot = Slot(start: Date, end: Date)

  /** What an entry editor hands to its `onAddEvent` callback; `desc` is the
      optional description the full-calendar container also accepts. */
  datatype EventData = EventData(title: string, start: Date, end: Date, desc: Option<string>)

  /** `date.setHours(h, m)` on a copy of `d`: hours and minutes are replaced,
      seconds and milliseconds kept, and minutes past 59 or hours past 23
      carry into the next hour or day as JavaScript's `Date` does. */
  function SetHours(d: Date, h: nat, m: nat): (r: Date)
    ensures r.millis == d.millis
    ensures (r.day - d.day) * MinutesPerDay + r.hour * 60 + r.minute == h * 60 + m
    ensures h < 24 && m < 60 ==> r == d.(hour := h, minute := m)
  {
    var total := h * 60 + m;
    Date(d.day + total / MinutesPerDay, (total / 60) % 24, total % 60, d.millis)
  }
}
