/** The FullCalendar-based container: an event list keyed by string ids that
    the editors add to, edit and delete from, and that drag and resize
    reschedule; plus the open/selected flags and the view choice. */
module AdvancedFullCalendar {
  import opened Seqs
  import opened CalendarTime
  import opened Responsive
  import EntryEditor
  import EventModal

  datatype Priority = Low | Medium | High

  /** `extendedProps`; a missing object is the one with every field absent. */
  datatype ExtendedProps = ExtendedProps(desc: Option<string>, location: Option<string>, priority: Option<Priority>)

  datatype CalendarEvent = CalendarEvent(
    id: string,
    title: string,
    start: Date,
    end: Date,
    allDay: Option<bool>,
    extendedProps: ExtendedProps)

  const InitialView: string := "timeGridWeek"
  const MobileView: string := "timeGridDay"

  /** The two entries the page starts with (17 and 18 June 2024), under
      different ids, so a delete by one id leaves the other entry. */
  function SampleEvents(): (r: seq<CalendarEvent>)
    ensures |r| == 2 && UniqueKeys(r, IdOf)
  {
    [ CalendarEvent("1", "Team Meeting", Date(19891, 10, 0, 0), Date(19891, 11, 30, 0), None,
        ExtendedProps(Some("Weekly team sync meeting"), None, Some(High))),
      CalendarEvent("2", "Project Workshop", Date(19892, 14, 0, 0), Date(19892, 16, 0, 0), None,
        ExtendedProps(Some("Project planning session"), None, Some(Medium))) ]
  }

  /** The view the calendar is switched to: the day grid on a phone,
      otherwise the view last chosen. */
  function ActiveView(mobile: bool, currentView: string): (v: string)
    ensures mobile ==> v == MobileView
    ensures !mobile ==> v == currentView
  {
    if mobile then MobileView else currentView
  }

  /** `eventData.desc || ''`. */
  function DescOrEmpty(desc: Option<string>): (r: string)
    ensures desc.Some? ==> r == desc.value
    ensures desc.None? ==> r == ""
  {
    if desc.Some? then desc.value else ""
  }

  /** The record `handleAddEvent` appends. */
  function NewEvent(id: string, data: EventData): (e: CalendarEvent)
    ensures e.id == id && e.title == data.title && e.start == data.start && e.end == data.end
    ensures e.allDay == None
    ensures e.extendedProps == ExtendedProps(Some(DescOrEmpty(data.desc)), None, None)
  {
    CalendarEvent(id, data.title, data.start, data.end, None, ExtendedProps(Some(DescOrEmpty(data.desc)), None, None))
  }

  /** One record rewritten by `handleUpdateEvent`: title, times and
      description replaced, everything else kept. */
  function Edited(e: CalendarEvent, data: EventData): (r: CalendarEvent)
    ensures r.id == e.id && r.allDay == e.allDay
    ensures r.title == data.title && r.start == data.start && r.end == data.end
    ensures r.extendedProps.desc == Some(DescOrEmpty(data.desc))
    ensures r.extendedProps.location == e.extendedProps.location
    ensures r.extendedProps.priority == e.extendedProps.priority
  {
    e.(title := data.title, start := data.start, end := data.end,
       extendedProps := e.extendedProps.(desc := Some(DescOrEmpty(data.desc))))
  }

  /** One record moved or resized: only its times change. */
  function Rescheduled(e: CalendarEvent, start: Date, end: Date): (r: CalendarEvent)
    ensures r.id == e.id && r.title == e.title && r.allDay == e.allDay && r.extendedProps == e.extendedProps
    ensures r.start == start && r.end == end
  {
    e.(start := start, end := end)
  }

  function HasId(id: string): CalendarEvent -> bool {
    (e: CalendarEvent) => e.id == id
  }

  function IdOf(e: CalendarEvent): string {
    e.id
  }

  function EditWith(data: EventData): CalendarEvent -> CalendarEvent {
    e => Edited(e, data)
  }

  function MoveTo(start: Date, end: Date): CalendarEvent -> CalendarEvent {
    e => Rescheduled(e, start, end)
  }

  /** `events.map(e => e.id === id ? {...edited} : e)`. */
  function UpdateById(events: seq<CalendarEvent>, id: string, data: EventData): seq<CalendarEvent> {
    MapWhere(events, HasId(id), EditWith(data))
  }

  /** `events.map(e => e.id === id ? {...e, start, end} : e)`. */
  function MoveById(events: seq<CalendarEvent>, id: string, start: Date, end: Date): seq<CalendarEvent> {
    MapWhere(events, HasId(id), MoveTo(start, end))
  }

  /** `events.filter(e => e.id !== id)`. */
  function DeleteById(events: seq<CalendarEvent>, id: string): seq<CalendarEvent> {
    RemoveKey(events, IdOf, id)
  }

  /** Update rewrites title, times and description of every record with the
      id, keeps their other fields, and leaves every other record as it was. */
  lemma UpdateByIdEffect(events: seq<CalendarEvent>, id: string, data: EventData)
    ensures |UpdateById(events, id, data)| == |events|
    ensures forall i :: 0 <= i < |events| && events[i].id == id ==>
      var r := UpdateById(events, id, data)[i];
      && r.id == id && r.allDay == events[i].allDay
      && r.title == data.title && r.start == data.start && r.end == data.end
      && r.extendedProps == events[i].extendedProps.(desc := Some(DescOrEmpty(data.desc)))
    ensures forall i :: 0 <= i < |events| && events[i].id != id ==>
      UpdateById(events, id, data)[i] == events[i]
  {
  }

  /** Update of an id no record has is a silent no-op. */
  lemma UpdateAbsentId(events: seq<CalendarEvent>, id: string, data: EventData)
    requires forall i :: 0 <= i < |events| ==> events[i].id != id
    ensures UpdateById(events, id, data) == events
  {
  }

  /** Repeating the same update changes nothing more. */
  lemma UpdateIdempotent(events: seq<CalendarEvent>, id: string, data: EventData)
    ensures UpdateById(UpdateById(events, id, data), id, data) == UpdateById(events, id, data)
  {
  }

  /** Drop and resize change only the times of the records with the id, and
      leave every other record as it was. */
  lemma MoveByIdEffect(events: seq<CalendarEvent>, id: string, start: Date, end: Date)
    ensures |MoveById(events, id, start, end)| == |events|
    ensures forall i :: 0 <= i < |events| ==>
      MoveById(events, id, start, end)[i] ==
        if events[i].id == id then events[i].(start := start, end := end) else events[i]
  {
  }

  /** Of two moves of the same record, the last one wins. */
  lemma MoveLastWins(events: seq<CalendarEvent>, id: string, start1: Date, end1: Date, start2: Date, end2: Date)
    ensures MoveById(MoveById(events, id, start1, end1), id, start2, end2) == MoveById(events, id, start2, end2)
  {
  }

  /** Adding a record under a fresh id and then deleting that id restores the
      list; a fresh id also keeps the ids unique. */
  lemma AddThenDelete(events: seq<CalendarEvent>, id: string, data: EventData)
    requires forall i :: 0 <= i < |events| ==> events[i].id != id
    ensures DeleteById(events + [NewEvent(id, data)], id) == events
    ensures UniqueKeys(events, IdOf) ==> UniqueKeys(events + [NewEvent(id, data)], IdOf)
  {
    AppendThenRemoveKey(events, IdOf, NewEvent(id, data));
  }

  /** The page state as one value. */
  datatype PageState = PageState(
    events: seq<CalendarEvent>,
    isModalOpen: bool,
    isDrawerOpen: bool,
    selectedSlot: Option<Slot>,
    selectedEvent: Option<CalendarEvent>,
    isMobile: bool,
    currentView: string,
    calendarView: string)

  /** The page component. `calendarView` is the view the calendar widget
      shows, set through its `changeView`. */
  class Page {
    var events: seq<CalendarEvent>
    var isModalOpen: bool
    var isDrawerOpen: bool
    var selectedSlot: Option<Slot>
    var selectedEvent: Option<CalendarEvent>
    var isMobile: bool
    var currentView: string
    var calendarView: string

    function State(): PageState
      reads this
    {
      PageState(events, isModalOpen, isDrawerOpen, selectedSlot, selectedEvent, isMobile, currentView, calendarView)
    }

    constructor ()
      ensures State() == PageState(SampleEvents(), false, false, None, None, false, InitialView, InitialView)
    {
      events := SampleEvents();
      isModalOpen, isDrawerOpen := false, false;
      selectedSlot, selectedEvent := None, None;
      isMobile := false;
      currentView, calendarView := InitialView, InitialView;
    }

    /** `checkIsMobile`, run on mount and on every resize notification. */
    method CheckIsMobile(width: int)
      modifies this
      ensures State() == old(State()).(isMobile := IsMobile(width), calendarView := ActiveView(IsMobile(width), old(currentView)))
    {
      isMobile := IsMobile(width);
      calendarView := ActiveView(isMobile, currentView);
    }

    /** `handleSelect`: remember the slot, forget the selected event, and open
        the drawer on a phone or the dialog otherwise. */
    method HandleSelect(slot: Slot)
      modifies this
      ensures State() == old(State()).(
        selectedSlot := Some(slot), selectedEvent := None,
        isDrawerOpen := old(isDrawerOpen) || old(isMobile),
        isModalOpen := old(isModalOpen) || !old(isMobile))
    {
      selectedSlot := Some(slot);
      selectedEvent := None;
      if isMobile {
        isDrawerOpen := true;
      } else {
        isModalOpen := true;
      }
    }

    /** `handleEventClick`: select the event and its time range, and open the
        drawer on a phone or the dialog otherwise. */
    method HandleEventClick(e: CalendarEvent)
      modifies this
      ensures State() == old(State()).(
        selectedEvent := Some(e), selectedSlot := Some(Slot(e.start, e.end)),
        isDrawerOpen := old(isDrawerOpen) || old(isMobile),
        isModalOpen := old(isModalOpen) || !old(isMobile))
    {
      selectedEvent := Some(e);
      selectedSlot := Some(Slot(e.start, e.end));
      if isMobile {
        isDrawerOpen := true;
      } else {
        isModalOpen := true;
      }
    }

    /** `handleAddEvent`: append one record under `newId` (the caller's
        clock reading) and close both editors. */
    method HandleAddEvent(data: EventData, newId: string)
      modifies this
      ensures State() == old(State()).(
        events := old(events) + [NewEvent(newId, data)],
        isModalOpen := false, isDrawerOpen := false)
    {
      events := events + [NewEvent(newId, data)];
      isModalOpen := false;
      isDrawerOpen := false;
    }

    /** `handleUpdateEvent`: with a selected event, rewrite every record with
        its id; either way close both editors and clear the selection. */
    method HandleUpdateEvent(data: EventData)
      modifies this
      ensures State() == old(State()).(
        events := if old(selectedEvent).Some? then UpdateById(old(events), old(selectedEvent).value.id, data) else old(events),
        isModalOpen := false, isDrawerOpen := false, selectedEvent := None)
    {
      if selectedEvent.Some? {
        events := UpdateById(events, selectedEvent.value.id, data);
      }
      isModalOpen := false;
      isDrawerOpen := false;
      selectedEvent := None;
    }

    /** `handleEventDrop`: the dragged record takes its new times. */
    method HandleEventDrop(id: string, start: Date, end: Date)
      modifies this
      ensures State() == old(State()).(events := MoveById(old(events), id, start, end))
    {
      events := MoveById(events, id, start, end);
    }

    /** `handleEventResize`: the resized record takes its new times. */
    method HandleEventResize(id: string, start: Date, end: Date)
      modifies this
      ensures State() == old(State()).(events := MoveById(old(events), id, start, end))
    {
      events := MoveById(events, id, start, end);
    }

    /** `handleDeleteEvent`: with a selected event, drop every record with its
        id, close both editors and clear the selection; with none, nothing
        changes at all. */
    method HandleDeleteEvent()
      modifies this
      ensures old(selectedEvent).None? ==> State() == old(State())
      ensures old(selectedEvent).Some? ==> State() == old(State()).(
        events := DeleteById(old(events), old(selectedEvent).value.id),
        isModalOpen := false, isDrawerOpen := false, selectedEvent := None)
    {
      if selectedEvent.Some? {
        events := DeleteById(events, selectedEvent.value.id);
        isModalOpen := false;
        isDrawerOpen := false;
        selectedEvent := None;
      }
    }

    /** `handleViewChange` followed by the resize effect, which React runs
        again only when `currentView` actually changed: on a phone that rerun
        switches the widget back to the day grid. */
    method HandleViewChange(newView: string, width: int)
      modifies this
      ensures newView == old(currentView) ==>
        State() == old(State()).(calendarView := newView)
      ensures newView != old(currentView) ==>
        State() == old(State()).(currentView := newView, isMobile := IsMobile(width),
                                 calendarView := ActiveView(IsMobile(width), newView))
    {
      var changed := newView != currentView;
      currentView := newView;
      calendarView := newView;
      if changed {
        CheckIsMobile(width);
      }
    }

    /** The dialog's `onClose`. */
    method CloseModal()
      modifies this
      ensures State() == old(State()).(isModalOpen := false, selectedEvent := None)
    {
      isModalOpen := false;
      selectedEvent := None;
    }

    /** The drawer's `onClose`. */
    method CloseDrawer()
      modifies this
      ensures State() == old(State()).(isDrawerOpen := false, selectedEvent := None)
    {
      isDrawerOpen := false;
      selectedEvent := None;
    }

    /** The editors' `onAddEvent`: update when an event is selected, add
        otherwise. */
    method SubmitFromEditor(data: EventData, newId: string)
      modifies this
      ensures old(selectedEvent).Some? ==> State() == old(State()).(
        events := UpdateById(old(events), old(selectedEvent).value.id, data),
        isModalOpen := false, isDrawerOpen := false, selectedEvent := None)
      ensures old(selectedEvent).None? ==> State() == old(State()).(
        events := old(events) + [NewEvent(newId, data)],
        isModalOpen := false, isDrawerOpen := false)
    {
      if selectedEvent.Some? {
        HandleUpdateEvent(data);
      } else {
        HandleAddEvent(data, newId);
      }
    }

    /** The editors' `onDeleteEvent` prop is set only while an event is
        selected, so the dialog's Delete button shows exactly then. */
    function ModalShowsDelete(): (shown: bool)
      reads this
      ensures shown <==> selectedEvent.Some?
    {
      var hasHandler := selectedEvent.Some?;
      EventModal.ShowsDelete(selectedEvent.Some?, hasHandler)
    }

    /** The editors' `selectedEvent` prop: the fields they read. */
    function EditorEntry(): (r: Option<EntryEditor.SelectedEntry>)
      reads this
      ensures r.Some? <==> selectedEvent.Some?
      ensures r.Some? ==>
        && r.value.id == selectedEvent.value.id && r.value.title == selectedEvent.value.title
        && r.value.start == selectedEvent.value.start && r.value.end == selectedEvent.value.end
    {
      if selectedEvent.Some? then
        var e := selectedEvent.value;
        Some(EntryEditor.SelectedEntry(e.id, e.title, e.start, e.end))
      else None
    }
  }
}
