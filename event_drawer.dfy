/** The mobile entry editor: a panel that prefills only from the selected
    slot, is add-only (its heading is always "Add New Event" and it has no
    Delete path), and closes itself after a successful submit. */
module EventDrawer {
  import opened Seqs
  import opened CalendarTime
  import opened TimeText
  import opened EntryEditor

  /** The panel's heading, whatever is selected. */
  const DrawerHeading: string := "Add New Event"

  /** The panel's form state; like the dialog's, it outlives closing. */
  class Drawer {
    var title: string
    var startTime: string
    var endTime: string
    var selectedDate: Date

    /** The time fields always hold what a time input produces. */
    predicate Valid()
      reads this
    {
      WellFormedTime(startTime) && WellFormedTime(endTime)
    }

    /** The initial state: empty title, the default times, and today. */
    constructor (now: Date)
      ensures Valid()
      ensures title == "" && startTime == DefaultStartTime && endTime == DefaultEndTime
      ensures selectedDate == now
    {
      title := "";
      startTime := DefaultStartTime;
      endTime := DefaultEndTime;
      selectedDate := now;
      DefaultTimesWellFormed();
    }

    /** The effect run when `selectedSlot` changes: a slot fills the date and
        the times; the title is never prefilled. */
    method Prefill(slot: Option<Slot>)
      requires Valid()
      modifies this
      ensures Valid()
      ensures title == old(title)
      ensures slot.Some? ==>
        && selectedDate == slot.value.start
        && startTime == FormatTime(slot.value.start)
        && endTime == FormatTime(slot.value.end)
      ensures slot.None? ==>
        startTime == old(startTime) && endTime == old(endTime) && selectedDate == old(selectedDate)
    {
      if slot.Some? {
        selectedDate := slot.value.start;
        startTime := FormatTime(slot.value.start);
        endTime := FormatTime(slot.value.end);
        FormatTimeRoundTrip(slot.value.start);
        FormatTimeRoundTrip(slot.value.end);
      }
    }

    /** Typing in the title field. */
    method SetTitle(t: string)
      modifies this`title
      ensures title == t
    {
      title := t;
    }

    /** Picking a start time in the time input. */
    method SetStartTime(t: string)
      requires Valid() && WellFormedTime(t)
      modifies this`startTime
      ensures Valid() && startTime == t
    {
      startTime := t;
    }

    /** Picking an end time in the time input. */
    method SetEndTime(t: string)
      requires Valid() && WellFormedTime(t)
      modifies this`endTime
      ensures Valid() && endTime == t
    {
      endTime := t;
    }

    /** Picking a date in the date input. */
    method SetDate(d: Date)
      modifies this`selectedDate
      ensures selectedDate == d
    {
      selectedDate := d;
    }

    /** `handleSubmit` (the form's submit and the Save button): with an empty
        title nothing is called and nothing changes; otherwise `onAddEvent`
        is called with the form's entry, the form is reset, and then
        `onClose` is called. */
    method HandleSubmit() returns (calls: seq<Callback>)
      requires Valid()
      modifies this
      ensures Valid()
      ensures old(title) == "" ==>
        calls == [] && title == old(title) && startTime == old(startTime)
        && endTime == old(endTime) && selectedDate == old(selectedDate)
      ensures old(title) != "" ==>
        && calls == [AddEvent(Submission(old(title), old(startTime), old(endTime), old(selectedDate))), Close]
        && title == "" && startTime == DefaultStartTime && endTime == DefaultEndTime
        && selectedDate == old(selectedDate)
    {
      if title == "" {
        return [];
      }
      var data := Submission(title, startTime, endTime, selectedDate);
      calls := [AddEvent(data)];
      title := "";
      startTime := DefaultStartTime;
      endTime := DefaultEndTime;
      DefaultTimesWellFormed();
      calls := calls + [Close];
    }
  }
}
