/** The timesheet page: a react-big-calendar week/day grid whose view follows
    the viewport on every resize, where picking a slot opens an editor and
    picking an event deletes it after a confirmation. */
module TimesheetCalendar {
  import opened Seqs
  import opened CalendarTime
  import opened Responsive
  import opened BigCalendarEvents

  datatype View = Week | Day

  /** The view a width notification sets: day on a phone, week otherwise. */
  function DefaultView(mobile: bool): (v: View)
    ensures v == Day <==> mobile
  {
    if mobile then Day else Week
  }

  datatype PageState = PageState(
    events: seq<Event<string>>,
    isModalOpen: bool,
    isDrawerOpen: bool,
    selectedSlot: Option<Slot>,
    isMobile: bool,
    view: View)

  class Page {
    var events: seq<Event<string>>
    var isModalOpen: bool
    var isDrawerOpen: bool
    var selectedSlot: Option<Slot>
    var isMobile: bool
    var view: View

    function State(): PageState
      reads this
    {
      PageState(events, isModalOpen, isDrawerOpen, selectedSlot, isMobile, view)
    }

    /** The page as first rendered, with the initial entries it imports. */
    constructor (initial: seq<Event<string>>)
      ensures State() == PageState(initial, false, false, None, false, Week)
    {
      events := initial;
      isModalOpen, isDrawerOpen := false, false;
      selectedSlot := None;
      isMobile := false;
      view := Week;
    }

    /** `checkIsMobile`, run on mount and on every resize notification: it
        overwrites whatever view was chosen by hand. */
    method CheckIsMobile(width: int)
      modifies this
      ensures State() == old(State()).(isMobile := IsMobile(width), view := DefaultView(IsMobile(width)))
    {
      var mobile := IsMobile(width);
      isMobile := mobile;
      view := DefaultView(mobile);
    }

    /** `handleSelectSlot`: remember the slot and open the drawer on a phone
        or the dialog otherwise. */
    method HandleSelectSlot(slot: Slot)
      modifies this
      ensures State() == old(State()).(
        selectedSlot := Some(slot),
        isDrawerOpen := old(isDrawerOpen) || old(isMobile),
        isModalOpen := old(isModalOpen) || !old(isMobile))
    {
      selectedSlot := Some(slot);
      if isMobile {
        isDrawerOpen := true;
      } else {
        isModalOpen := true;
      }
    }

    /** `handleAddEvent`: append one record under `newId` (the caller's clock
        reading) and close both editors. */
    method HandleAddEvent(data: EventData, newId: int)
      modifies this
      ensures State() == old(State()).(
        events := old(events) + [NewEvent(newId, data)],
        isModalOpen := false, isDrawerOpen := false)
    {
      events := events + [NewEvent(newId, data)];
      isModalOpen := false;
      isDrawerOpen := false;
    }

    /** `handleSelectEvent`: when the user confirms, drop every record with
        the event's id; otherwise nothing changes. */
    method HandleSelectEvent(e: Event<string>, confirmed: bool)
      modifies this
      ensures State() == old(State()).(events := if confirmed then DeleteById(old(events), e.id) else old(events))
    {
      if confirmed {
        events := DeleteById(events, e.id);
      }
    }

    /** `handleCloseModal`. */
    method HandleCloseModal()
      modifies this
      ensures State() == old(State()).(isModalOpen := false)
    {
      isModalOpen := false;
    }

    /** `handleCloseDrawer`. */
    method HandleCloseDrawer()
      modifies this
      ensures State() == old(State()).(isDrawerOpen := false)
    {
      isDrawerOpen := false;
    }

    /** `handleViewChange`, bound to the Week and Day buttons. */
    method HandleViewChange(newView: View)
      modifies this
      ensures State() == old(State()).(view := newView)
    {
      view := newView;
    }

    /** The grid's own `onView` callback is bound to a function that does
        nothing. */
    method OnView(requested: View)
      modifies this
      ensures State() == old(State())
    {
    }
  }
}
