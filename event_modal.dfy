/** The desktop entry editor: a dialog that prefills from the selected event
    or, failing that, from the selected slot, and that offers Delete only when
    editing an event. */
module EventModal {
  import opened Seqs
  import opened CalendarTime
  import opened TimeText
  import opened EntryEditor

  /** The dialog's heading. */
  function Heading(editing: bool): (r: string)
    ensures r == "Edit Event" <==> editing
    ensures r == "Add New Event" <==> !editing
  {
    if editing then "Edit Event" else "Add New Event"
  }

  /** The label of the submit button. */
  function SubmitLabel(editing: bool): (r: string)
    ensures r == "Update Event" <==> editing
    ensures r == "Add Event" <==> !editing
  {
    (if editing then "Update" else "Add") + " Event"
  }

  /** The Delete button is rendered only with both a selected event and a
      delete handler. */
  function ShowsDelete(hasSelectedEvent: bool, hasDeleteHandler: bool): (r: bool)
    ensures r ==> hasSelectedEvent
    ensures r ==> hasDeleteHandler
    ensures hasSelectedEvent && hasDeleteHandler ==> r
  {
    hasSelectedEvent && hasDeleteHandler
  }

  /** A click on Delete calls `onDeleteEvent`; where the button is not
      rendered there is nothing to click and no call. */
  function DeleteClick(hasSelectedEvent: bool, hasDeleteHandler: bool): (calls: seq<Callback>)
    ensures calls == [Delete] <==> ShowsDelete(hasSelectedEvent, hasDeleteHandler)
    ensures calls != [Delete] ==> calls == []
  {
    if ShowsDelete(hasSelectedEvent, hasDeleteHandler) then [Delete] else []
  }

  /** The dialog's form state. It stays mounted while closed, so the fields
      keep their values between openings. */
  class Modal {
    var title: string
    var startTime: string
    var endTime: string
    var selectedDate: Date

    /** The time fields always hold what a time input produces. */
    predicate Valid()
      reads this
    {
      WellFormedTime(startTime) && WellFormedTime(endTime)
    }

    /** The initial state: empty title, the default times, and today. */
    constructor (now: Date)
      ensures Valid()
      ensures title == "" && startTime == DefaultStartTime && endTime == DefaultEndTime
      ensures selectedDate == now
    {
      title := "";
      startTime := DefaultStartTime;
      endTime := DefaultEndTime;
      selectedDate := now;
      DefaultTimesWellFormed();
    }

    /** The effect run when `selectedSlot` or `selectedEvent` changes: a
        selected event fills every field; otherwise a slot fills the date and
        the times and leaves the title as it was; with neither nothing changes. */
    method Prefill(slot: Option<Slot>, entry: Option<SelectedEntry>)
      requires Valid()
      modifies this
      ensures Valid()
      ensures entry.Some? ==>
        && title == entry.value.title
        && selectedDate == entry.value.start
        && startTime == FormatTime(entry.value.start)
        && endTime == FormatTime(entry.value.end)
      ensures entry.None? && slot.Some? ==>
        && title == old(title)
        && selectedDate == slot.value.start
        && startTime == FormatTime(slot.value.start)
        && endTime == FormatTime(slot.value.end)
      ensures entry.None? && slot.None? ==>
        title == old(title) && startTime == old(startTime) && endTime == old(endTime) && selectedDate == old(selectedDate)
    {
      if entry.Some? {
        title := entry.value.title;
        selectedDate := entry.value.start;
        startTime := FormatTime(entry.value.start);
        endTime := FormatTime(entry.value.end);
        FormatTimeRoundTrip(entry.value.start);
        FormatTimeRoundTrip(entry.value.end);
      } else if slot.Some? {
        selectedDate := slot.value.start;
        startTime := FormatTime(slot.value.start);
        endTime := FormatTime(slot.value.end);
        FormatTimeRoundTrip(slot.value.start);
        FormatTimeRoundTrip(slot.value.end);
      }
    }

    /** Typing in the title field. */
    method SetTitle(t: string)
      modifies this`title
      ensures title == t
    {
      title := t;
    }

    /** Picking a start time in the time input. */
    method SetStartTime(t: string)
      requires Valid() && WellFormedTime(t)
      modifies this`startTime
      ensures Valid() && startTime == t
    {
      startTime := t;
    }

    /** Picking an end time in the time input. */
    method SetEndTime(t: string)
      requires Valid() && WellFormedTime(t)
      modifies this`endTime
      ensures Valid() && endTime == t
    {
      endTime := t;
    }

    /** Picking a date in the date input. */
    method SetDate(d: Date)
      modifies this`selectedDate
      ensures selectedDate == d
    {
      selectedDate := d;
    }

    /** `handleSubmit`: with an empty title nothing is called and nothing
        changes; otherwise `onAddEvent` is called once with the form's entry,
        and the title and times are reset while the date is kept. */
    method HandleSubmit() returns (calls: seq<Callback>)
      requires Valid()
      modifies this
      ensures Valid()
      ensures old(title) == "" ==>
        calls == [] && title == old(title) && startTime == old(startTime)
        && endTime == old(endTime) && selectedDate == old(selectedDate)
      ensures old(title) != "" ==>
        && calls == [AddEvent(Submission(old(title), old(startTime), old(endTime), old(selectedDate)))]
        && title == "" && startTime == DefaultStartTime && endTime == DefaultEndTime
        && selectedDate == old(selectedDate)
    {
      if title == "" {
        return [];
      }
      var data := Submission(title, startTime, endTime, selectedDate);
      calls := [AddEvent(data)];
      title := "";
      startTime := DefaultStartTime;
      endTime := DefaultEndTime;
      DefaultTimesWellFormed();
    }
  }
}
