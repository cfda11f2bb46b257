/** The event record of the two react-big-calendar containers (numeric ids)
    and the two list transforms they apply to it: append on add, and filter
    by id on a confirmed delete. The containers differ only in the type of
    the optional `allDay` flag, a string in one and a boolean in the other. */
module BigCalendarEvents {
  import opened Seqs
  import opened CalendarTime

  datatype Event<AllDay> = Event(
    id: int,
    title: string,
    start: Date,
    end: Date,
    allDay: Option<AllDay>,
    desc: Option<string>)

  /** The record `handleAddEvent` appends: id, title and times only; a
      description in the submitted data is dropped. */
  function NewEvent<A>(id: int, data: EventData): (e: Event<A>)
    ensures e.id == id && e.title == data.title && e.start == data.start && e.end == data.end
    ensures e.allDay == None && e.desc == None
  {
    Event(id, data.title, data.start, data.end, None, None)
  }

  function IdOf<A>(e: Event<A>): int {
    e.id
  }

  /** `events.filter(e => e.id !== id)`. */
  function DeleteById<A>(events: seq<Event<A>>, id: int): seq<Event<A>> {
    RemoveKey(events, IdOf, id)
  }

  /** Adding a record under a fresh id and then deleting that id restores the
      list; a fresh id also keeps the ids unique. */
  lemma AddThenDelete<A(!new)>(events: seq<Event<A>>, id: int, data: EventData)
    requires forall i :: 0 <= i < |events| ==> events[i].id != id
    ensures DeleteById(events + [NewEvent(id, data)], id) == events
    ensures UniqueKeys(events, IdOf) ==> UniqueKeys(events + [NewEvent<A>(id, data)], IdOf)
  {
    AppendThenRemoveKey(events, IdOf, NewEvent<A>(id, data));
  }
}
