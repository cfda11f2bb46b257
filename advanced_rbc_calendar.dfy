/** The full-screen react-big-calendar page: like the timesheet, but the
    viewport decides only which editor opens, never the view. */
module AdvancedRbcCalendar {
  import opened Seqs
  import opened CalendarTime
  import opened Responsive
  import opened BigCalendarEvents

  datatype PageState = PageState(
    events: seq<Event<bool>>,
    isModalOpen: bool,
    isDrawerOpen: bool,
    selectedSlot: Option<Slot>,
    isMobile: bool)

  class Page {
    var events: seq<Event<bool>>
    var isModalOpen: bool
    var isDrawerOpen: bool
    var selectedSlot: Option<Slot>
    var isMobile: bool

    function State(): PageState
      reads this
    {
      PageState(events, isModalOpen, isDrawerOpen, selectedSlot, isMobile)
    }

    /** The page as first rendered, with the initial entries it imports. */
    constructor (initial: seq<Event<bool>>)
      ensures State() == PageState(initial, false, false, None, false)
    {
      events := initial;
      isModalOpen, isDrawerOpen := false, false;
      selectedSlot := None;
      isMobile := false;
    }

    /** `checkIsMobile`, run on mount and on every resize notification. */
    method CheckIsMobile(width: int)
      modifies this
      ensures State() == old(State()).(isMobile := IsMobile(width))
    {
      isMobile := IsMobile(width);
    }

    /** `handleSelectSlot`: remember the slot and open the drawer on a phone
        or the dialog otherwise. */
    method HandleSelectSlot(slot: Slot)
      modifies this
      ensures State() == old(State()).(
        selectedSlot := Some(slot),
        isDrawerOpen := old(isDrawerOpen) || old(isMobile),
        isModalOpen := old(isModalOpen) || !old(isMobile))
    {
      selectedSlot := Some(slot);
      if isMobile {
        isDrawerOpen := true;
      } else {
        isModalOpen := true;
      }
    }

    /** `handleAddEvent`: append one record under `newId` (the caller's clock
        reading) and close both editors. */
    method HandleAddEvent(data: EventData, newId: int)
      modifies this
      ensures State() == old(State()).(
        events := old(events) + [NewEvent(newId, data)],
        isModalOpen := false, isDrawerOpen := false)
    {
      events := events + [NewEvent(newId, data)];
      isModalOpen := false;
      isDrawerOpen := false;
    }

    /** `handleSelectEvent`: when the user confirms, drop every record with
        the event's id; otherwise nothing changes. */
    method HandleSelectEvent(e: Event<bool>, confirmed: bool)
      modifies this
      ensures State() == old(State()).(events := if confirmed then DeleteById(old(events), e.id) else old(events))
    {
      if confirmed {
        events := DeleteById(events, e.id);
      }
    }

    /** `handleCloseModal`. */
    method HandleCloseModal()
      modifies this
      ensures State() == old(State()).(isModalOpen := false)
    {
      isModalOpen := false;
    }

    /** `handleCloseDrawer`. */
    method HandleCloseDrawer()
      modifies this
      ensures State() == old(State()).(isDrawerOpen := false)
    {
      isDrawerOpen := false;
    }
  }
}
