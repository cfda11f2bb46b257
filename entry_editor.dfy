/** What the two entry editors (the desktop modal and the mobile drawer)
    have in common: the callbacks they invoke, their default times, and how a
    submit turns the form's date and `"HH:MM"` fields into start and end. */
module EntryEditor {
  import opened Seqs
  import opened CalendarTime
  import opened TimeText

  /** Times a form shows before anything is prefilled, and after a submit. */
  const DefaultStartTime: string := "11:00"
  const DefaultEndTime: string := "12:00"

  /** The editors' `selectedEvent` prop: the fields they read of it. */
  datatype SelectedEntry = SelectedEntry(id: string, title: string, start: Date, end: Date)

  /** A call an editor makes into its container, in the order made. */
  datatype Callback = AddEvent(data: EventData) | Close | Delete

  lemma DefaultTimesWellFormed()
    ensures WellFormedTime(DefaultStartTime) && HoursOf(DefaultStartTime) == 11 && MinutesOf(DefaultStartTime) == 0
    ensures WellFormedTime(DefaultEndTime) && HoursOf(DefaultEndTime) == 12 && MinutesOf(DefaultEndTime) == 0
  {
  }

  /** `const d = new Date(date); const [h, m] = time.split(':').map(Number);
      d.setHours(h, m)`: the same day as `date`, at the time the text names,
      so that formatting it again shows the same text. */
  function AtTime(date: Date, time: string): (r: Date)
    requires WellFormedTime(time)
    ensures r.day == date.day && r.millis == date.millis
    ensures r.hour == HoursOf(time) && r.minute == MinutesOf(time)
    ensures FormatTime(r) == time
  {
    WellFormedIsFormatted(time, date);
    SetHours(date, HoursOf(time), MinutesOf(time))
  }

  /** The clock `AtTime` sets is the pair that `time.split(':').map(Number)`
      reads from the text. */
  lemma AtTimeParses(date: Date, time: string)
    requires WellFormedTime(time)
    ensures ParseTime(time) == Some((AtTime(date, time).hour, AtTime(date, time).minute))
  {
    ParseWellFormed(time);
  }

  /** The record a successful submit hands to `onAddEvent`: start and end lie
      on the form's day, at the times the two fields show. */
  function Submission(title: string, startTime: string, endTime: string, date: Date): (r: EventData)
    requires WellFormedTime(startTime) && WellFormedTime(endTime)
    ensures r.title == title && r.desc == None
    ensures r.start.day == date.day && r.end.day == date.day
    ensures FormatTime(r.start) == startTime && FormatTime(r.end) == endTime
  {
    EventData(title, AtTime(date, startTime), AtTime(date, endTime), None)
  }

  /** Submitting a form that was prefilled from an entry and left untouched
      gives the entry's start back exactly, but its end only when the end lies
      on the start's day with the same seconds: an entry spanning midnight
      comes back ending on its first day. */
  lemma ResubmitPrefilled(title: string, start: Date, end: Date)
    ensures WellFormedTime(FormatTime(start)) && WellFormedTime(FormatTime(end))
    ensures Submission(title, FormatTime(start), FormatTime(end), start).start == start
    ensures Submission(title, FormatTime(start), FormatTime(end), start).end == end
        <==> end.day == start.day && end.millis == start.millis
  {
  }
}
