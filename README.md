# Calendar demos: event store, entry editors and Persian week arithmetic

A Dafny model of the original logic of a set of React calendar demos.
Rendering, drag and resize geometry and locale formatting come from
third-party libraries and are not modelled. What is modelled:

- **Event store and page handlers** of the three container pages
  (`AdvancedFullCalendar`, `TimesheetCalendar`, `AdvancedRBCCalendar`).
  Each page is a class whose fields are the component's state: the event list
  and the UI flags (`isModalOpen`, `isDrawerOpen`, `selectedSlot`,
  `selectedEvent`, `isMobile`, the view). Every handler is a method whose
  postcondition gives the whole new state as the old state with named fields
  replaced. The list transforms behind them are pure functions, built on a
  generic `filter` (`Seqs.Filter`) and on a `map` that rewrites only
  selected elements (`Seqs.MapWhere`). Lemmas cover them: length and order
  kept, only matching records touched, a no-op for an absent id, removal of
  exactly one record when ids are unique, and add-then-delete restoring the
  list.
- **Entry editors** (`EventModal`, `EventDrawer`). Each is a class holding
  the form fields (title, `"HH:MM"` start and end, date). Its invariant is
  that the time fields hold well-formed clock text. Prefill is a method, and
  so is submit. Submit returns the callbacks it invokes, in order
  (`AddEvent`, then `Close` for the drawer). The shared arithmetic lives in
  `EntryEditor`: parse the time with `split(':').map(Number)`
  (`TimeText.Split`, `TimeText.JsNumber`), then recombine it with the day
  through `setHours`. `CalendarTime.SetHours` models JavaScript's carry.
  Lemmas prove that formatting and parsing are inverse. They also prove that
  a submitted start or end keeps the form's day and shows the typed time. A
  form that is prefilled from an entry and submitted untouched gives back the
  entry's start exactly. It gives back the end only when the end lies on the
  start's day with the same seconds, so an entry that spans midnight comes
  back ending on its first day.
- **Persian week arithmetic** (`IranianCalendar`). `(day + 1) % 7` moves the
  week start to Saturday, and the model proves this is a bijection on 0..6.
  The working-day filter keeps exactly the events that start Saturday to
  Wednesday, in order. The seven-name header lookup is always in bounds and
  gives each weekday its own name. The five-name label lookup runs past the
  end of its table on Thursday and Friday (indices 5 and 6); `|| ''` turns the
  resulting `undefined` into `''`. The month cell is shown exactly when the
  five-name label is non-empty.

A JavaScript `Date` is modelled as a local day number (days from 1970-01-01)
plus hour, minute and the milliseconds below the minute. The weekday is
`(day + 4) % 7`, since 1970-01-01 was a Thursday.

How the three pages treat views, deletion and closing:
- Only the timesheet page sets `'day'`/`'week'` on each width notification.
- The FullCalendar page switches to `timeGridDay` on a phone and otherwise to
  the view last chosen.
- The full-screen big-calendar page keeps no view state: its code never sets the view, and the width does not affect it. The widget's own toolbar still switches between its views.
- The FullCalendar page's Delete button deletes without confirmation.
- The two big-calendar pages delete on an event click after `window.confirm`.
- The editors do not close themselves on submit. The containers' add and
  update handlers close both editors. The drawer also calls `onClose`.
- The phone threshold is `width <= 768`: 768 itself counts as a phone.

## Model

| member | source | states |
|---|---|---|
| `Responsive.IsMobile` | src/AdvancedFullCalendar.tsx:58 | `window.innerWidth <= 768`, the same test as src/TimesheetCalendar.tsx:33 and src/AdvancedRBCCalendar.tsx:32. It is used by the `CheckIsMobile` contracts of all three pages |
| `Seqs.Filter` | src/AdvancedFullCalendar.tsx:204 | `filter` keeps only elements that pass. Every element that passes stays in the result, and the result is never longer than the input |
| `Seqs.FilterCounts` | src/TimesheetCalendar.tsx:75 | counted with multiplicity, `filter` keeps each passing element as often as it occurs and drops each failing one |
| `Seqs.FilterConcat` | src/AdvancedFullCalendar.tsx:204 | `filter` distributes over concatenation, so relative order is preserved |
| `Seqs.FilterIdentity` | src/AdvancedFullCalendar.tsx:204 | `filter` returns its input unchanged iff every element passes |
| `Seqs.FilterRemovesOne` | src/AdvancedFullCalendar.tsx:204 | when exactly one element fails, `filter` removes that one and keeps the rest in order |
| `Seqs.FilterAppendRejected` | src/AdvancedFullCalendar.tsx:100 | appending a failing element and filtering gives the same result as filtering without it |
| `Seqs.MapWhere` | src/AdvancedFullCalendar.tsx:151-159 | the `map` by id keeps the length and rewrites exactly the selected elements. All others are left untouched |
| `Seqs.FilterRejectedHead` | src/AdvancedFullCalendar.tsx:204 | `filter` drops a first element that fails |
| `Seqs.RemoveKeyEffect` | src/AdvancedFullCalendar.tsx:204 | delete by id (used by all three containers) leaves no record with the id, and every other record keeps its multiplicity |
| `Seqs.RemoveKeyAbsent` | src/AdvancedRBCCalendar.tsx:71 | delete by id changes the list iff some record has the id |
| `Seqs.RemoveKeyUnique` | src/TimesheetCalendar.tsx:75 | with unique ids, delete by a present id removes exactly the matching record and keeps the rest in order |
| `Seqs.AppendThenRemoveKey` | src/AdvancedFullCalendar.tsx:100 | appending under a fresh id and then deleting that id restores the list. A fresh id keeps ids unique |
| `CalendarTime.SetHours` | src/EventModal.tsx:61 | `setHours(h, m)` keeps the milliseconds and is exact over day boundaries, because overflow carries into the day. For h < 24 and m < 60 only hour and minute change |
| `TimeText.DigitChar` | src/EventModal.tsx:51 | a digit below 10 is written as the character with that value |
| `TimeText.TwoDigitsValue` | src/EventModal.tsx:60 | the value of two digit characters is ten times the first plus the second |
| `TimeText.Pad2` | src/EventModal.tsx:51 | a two-digit field of `toTimeString` is two digits whose value is the number |
| `TimeText.FormatTime` | src/EventModal.tsx:50-52 | `formatTime` is 5 characters: two digits of the hour, `':'`, two digits of the minute |
| `TimeText.Split` | src/EventModal.tsx:60 | `split(':')` always yields at least one piece, and no piece contains the separator. Joining the pieces with it gives the input back |
| `TimeText.JsNumber` | src/EventModal.tsx:60 | on the pieces a time field's value splits into (digits, or empty), `Number` gives the digits' value, with `''` as 0 |
| `TimeText.ParseTime` | src/EventModal.tsx:60-64 | `const [h, m] = time.split(':').map(Number)` as the pair handed to `setHours`. Its properties are stated by `TimeText.ParseWellFormed` (a well-formed text gives exactly its hours and minutes) and `EntryEditor.AtTimeParses`. The drawer's copy is src/EventDrawer.tsx:48-52 |
| `TimeText.SplitWithout` | src/EventModal.tsx:60 | splitting text without the separator gives that text alone |
| `TimeText.SplitFirst` | src/EventModal.tsx:60 | splitting at a first separator gives the text before it, then the split of the rest |
| `TimeText.ParseWellFormed` | src/EventModal.tsx:60 | `"HH:MM".split(':').map(Number)` gives exactly the hours and minutes written |
| `TimeText.FormatTimeRoundTrip` | src/EventModal.tsx:50-60 | `formatTime` output is well-formed clock text, and parsing it gives back the date's hours and minutes |
| `TimeText.WellFormedIsFormatted` | src/EventModal.tsx:59-65 | a well-formed clock text is what `formatTime` shows for any date set to its time |
| `TimeText.TwoDigitsDetermined` | src/EventModal.tsx:51 | two two-digit fields with the same value are the same text |
| `EntryEditor.DefaultTimesWellFormed` | src/EventModal.tsx:32-34 | the defaults `'11:00'` and `'12:00'` are well formed and mean 11:00 and 12:00 |
| `EntryEditor.AtTime` | src/EventModal.tsx:59-65 | copying the date and calling `setHours` with the parsed time keeps the day and the milliseconds. The result shows the typed time again |
| `EntryEditor.AtTimeParses` | src/EventModal.tsx:60-61 | the hours and minutes `AtTime` sets are the pair that `time.split(':').map(Number)` reads from the text |
| `EntryEditor.Submission` | src/EventModal.tsx:59-71 | the submitted record has the form's title and no description. Start and end lie on the form's day and format to the two time fields |
| `EntryEditor.ResubmitPrefilled` | src/EventModal.tsx:37-71 | an untouched prefilled form gives back the entry's start. It gives back the end iff the end is on the start's day with the same seconds |
| `EventModal.Heading` | src/EventModal.tsx:84 | the heading reads "Edit Event" iff an event is selected, otherwise "Add New Event" |
| `EventModal.SubmitLabel` | src/EventModal.tsx:155 | the submit button reads "Update Event" iff an event is selected, otherwise "Add Event" |
| `EventModal.ShowsDelete` | src/EventModal.tsx:142-150 | Delete is rendered iff both a selected event and a delete handler are present |
| `EventModal.DeleteClick` | src/EventModal.tsx:142-150 | a click on Delete makes exactly the call `onDeleteEvent` iff the button is rendered, and no call otherwise |
| `EventModal.Modal.constructor` | src/EventModal.tsx:32-35 | the form starts with an empty title, `'11:00'`, `'12:00'` and the current date |
| `EventModal.Modal.Prefill` | src/EventModal.tsx:37-48 | a selected event sets title, date and both times. Otherwise a slot sets date and times but keeps the title. With neither, nothing changes |
| `EventModal.Modal.SetTitle` | src/EventModal.tsx:98 | typing sets the title |
| `EventModal.Modal.SetStartTime` | src/EventModal.tsx:124 | the start-time input sets the start time |
| `EventModal.Modal.SetEndTime` | src/EventModal.tsx:134 | the end-time input sets the end time |
| `EventModal.Modal.SetDate` | src/EventModal.tsx:110 | the date input sets the date |
| `EventModal.Modal.HandleSubmit` | src/EventModal.tsx:54-76 | an empty title means no call and no change. Otherwise `onAddEvent` is called exactly once with `Submission` of the form, and the form is reset to `''`/`'11:00'`/`'12:00'` with the date kept |
| `EventDrawer.Drawer.constructor` | src/EventDrawer.tsx:25-28 | the form starts with an empty title, `'11:00'`, `'12:00'` and the current date |
| `EventDrawer.DrawerHeading` | src/EventDrawer.tsx:78 | the panel's heading is "Add New Event" whatever is selected |
| `EventDrawer.Drawer.Prefill` | src/EventDrawer.tsx:30-36 | only a slot prefills, setting date and times. The title is never touched |
| `EventDrawer.Drawer.SetTitle` | src/EventDrawer.tsx:92 | typing sets the title |
| `EventDrawer.Drawer.SetStartTime` | src/EventDrawer.tsx:118 | the start-time input sets the start time |
| `EventDrawer.Drawer.SetEndTime` | src/EventDrawer.tsx:128 | the end-time input sets the end time |
| `EventDrawer.Drawer.SetDate` | src/EventDrawer.tsx:104 | the date input sets the date |
| `EventDrawer.Drawer.HandleSubmit` | src/EventDrawer.tsx:42-66 | an empty title means no call and no change. Otherwise the calls are exactly `onAddEvent(Submission(...))` then `onClose`, never a delete, and the form is reset |
| `AdvancedFullCalendar.ActiveView` | src/AdvancedFullCalendar.tsx:63 | on a phone the widget shows `timeGridDay`, otherwise the view last chosen |
| `AdvancedFullCalendar.DescOrEmpty` | src/AdvancedFullCalendar.tsx:96 | `desc \|\| ''` is the given description, or `''` when there is none |
| `AdvancedFullCalendar.NewEvent` | src/AdvancedFullCalendar.tsx:90-98 | the new record carries the given id and the submitted title, start and end. It has no `allDay`, and its only extended prop is `desc`, defaulting to `''` |
| `AdvancedFullCalendar.Edited` | src/AdvancedFullCalendar.tsx:109-118 | an edited record takes title, start, end and desc from the data. It keeps id, `allDay`, `location` and `priority` |
| `AdvancedFullCalendar.Rescheduled` | src/AdvancedFullCalendar.tsx:153-157 | a moved record takes only the new start and end |
| `AdvancedFullCalendar.SampleEvents` | src/AdvancedFullCalendar.tsx:25-46 | the two initial entries, under different ids |
| `AdvancedFullCalendar.UpdateById` | src/AdvancedFullCalendar.tsx:107-120 | the update `map` by id. Its effect is stated by `UpdateByIdEffect`, `UpdateAbsentId` and `UpdateIdempotent` |
| `AdvancedFullCalendar.MoveById` | src/AdvancedFullCalendar.tsx:151-173 | the drop and resize `map`s by id. Their effect is stated by `MoveByIdEffect` and `MoveLastWins` |
| `AdvancedFullCalendar.DeleteById` | src/AdvancedFullCalendar.tsx:204 | the delete `filter` by id. Its effect is stated by `Seqs.RemoveKeyEffect`, `Seqs.RemoveKeyAbsent`, `Seqs.RemoveKeyUnique` and `AddThenDelete` |
| `AdvancedFullCalendar.UpdateByIdEffect` | src/AdvancedFullCalendar.tsx:105-121 | update keeps the length. Records with the id get the new title, times and desc and keep their other props. Every other record is unchanged |
| `AdvancedFullCalendar.UpdateAbsentId` | src/AdvancedFullCalendar.tsx:107-120 | updating an id that no record has leaves the list as it was |
| `AdvancedFullCalendar.UpdateIdempotent` | src/AdvancedFullCalendar.tsx:107-120 | applying the same update twice equals applying it once |
| `AdvancedFullCalendar.MoveByIdEffect` | src/AdvancedFullCalendar.tsx:149-175 | drop and resize keep the length and change only start and end of records with the id |
| `AdvancedFullCalendar.MoveLastWins` | src/AdvancedFullCalendar.tsx:149-175 | two moves of the same id equal the second move alone |
| `AdvancedFullCalendar.AddThenDelete` | src/AdvancedFullCalendar.tsx:89-100 | adding under a fresh id and then deleting that id restores the list. A fresh id keeps ids unique |
| `AdvancedFullCalendar.Page.constructor` | src/AdvancedFullCalendar.tsx:25-53 | the page starts with the two sample events, editors closed, nothing selected, not mobile, and view `timeGridWeek` |
| `AdvancedFullCalendar.Page.CheckIsMobile` | src/AdvancedFullCalendar.tsx:57-65 | mobile becomes `width <= 768`, and the widget view becomes `ActiveView`. Nothing else changes |
| `AdvancedFullCalendar.Page.HandleSelect` | src/AdvancedFullCalendar.tsx:75-87 | the slot is stored and `selectedEvent` is cleared. The drawer opens iff mobile, otherwise the modal |
| `AdvancedFullCalendar.Page.HandleEventClick` | src/AdvancedFullCalendar.tsx:128-147 | the event and its time range are selected. The drawer opens iff mobile, otherwise the modal |
| `AdvancedFullCalendar.Page.HandleAddEvent` | src/AdvancedFullCalendar.tsx:89-103 | exactly one record is appended, prior records are unchanged and in order, and both editors close |
| `AdvancedFullCalendar.Page.HandleUpdateEvent` | src/AdvancedFullCalendar.tsx:105-126 | with a selection the list becomes `UpdateById`, otherwise it is unchanged. Either way both editors close and the selection is cleared |
| `AdvancedFullCalendar.Page.HandleEventDrop` | src/AdvancedFullCalendar.tsx:149-161 | only the list changes, to `MoveById` |
| `AdvancedFullCalendar.Page.HandleEventResize` | src/AdvancedFullCalendar.tsx:163-175 | only the list changes, to `MoveById` |
| `AdvancedFullCalendar.Page.HandleDeleteEvent` | src/AdvancedFullCalendar.tsx:202-209 | with a selection the list becomes `DeleteById`, both editors close and the selection is cleared. Without one nothing changes |
| `AdvancedFullCalendar.Page.HandleViewChange` | src/AdvancedFullCalendar.tsx:177-183 | `currentView` and the widget's view become the chosen view. Because the resize effect (lines 56-73) depends on `currentView`, it reruns when the choice really changes and then shows `timeGridDay` again on a phone; choosing the current view again leaves `isMobile` as it was |
| `AdvancedFullCalendar.Page.CloseModal` | src/AdvancedFullCalendar.tsx:306-309 | the modal closes and the selection is cleared. Nothing else changes |
| `AdvancedFullCalendar.Page.CloseDrawer` | src/AdvancedFullCalendar.tsx:318-321 | the drawer closes and the selection is cleared. Nothing else changes |
| `AdvancedFullCalendar.Page.SubmitFromEditor` | src/AdvancedFullCalendar.tsx:310 | the editors' submit routes to update iff `selectedEvent` is set, otherwise to add |
| `AdvancedFullCalendar.Page.ModalShowsDelete` | src/AdvancedFullCalendar.tsx:311 | the modal offers Delete iff an event is selected |
| `AdvancedFullCalendar.Page.EditorEntry` | src/AdvancedFullCalendar.tsx:313 | the editors see an entry iff an event is selected, with its id, title, start and end |
| `BigCalendarEvents.NewEvent` | src/TimesheetCalendar.tsx:61-66 | the appended record has the given id and the submitted title, start and end, with no `allDay` and no `desc` |
| `BigCalendarEvents.DeleteById` | src/TimesheetCalendar.tsx:75 | the delete `filter` by numeric id, shared with src/AdvancedRBCCalendar.tsx:71. Its effect is stated by `Seqs.RemoveKeyEffect`, `Seqs.RemoveKeyAbsent`, `Seqs.RemoveKeyUnique` and `BigCalendarEvents.AddThenDelete` |
| `BigCalendarEvents.AddThenDelete` | src/TimesheetCalendar.tsx:60-77 | adding under a fresh id and then deleting that id restores the list. A fresh id keeps ids unique |
| `TimesheetCalendar.DefaultView` | src/TimesheetCalendar.tsx:36 | the view is `'day'` iff mobile |
| `TimesheetCalendar.Page.constructor` | src/TimesheetCalendar.tsx:22-28 | the page starts with its imported events, editors closed, no slot, not mobile, and view `'week'` |
| `TimesheetCalendar.Page.CheckIsMobile` | src/TimesheetCalendar.tsx:32-37 | each notification sets mobile to `width <= 768` and the view to `DefaultView`, overwriting a manual choice |
| `TimesheetCalendar.Page.HandleSelectSlot` | src/TimesheetCalendar.tsx:47-58 | the slot is stored, and the drawer opens iff mobile, otherwise the modal |
| `TimesheetCalendar.Page.HandleAddEvent` | src/TimesheetCalendar.tsx:60-71 | exactly one record is appended and both editors close |
| `TimesheetCalendar.Page.HandleSelectEvent` | src/TimesheetCalendar.tsx:73-77 | a confirmed click deletes every record with the event's id. A declined one changes nothing |
| `TimesheetCalendar.Page.HandleCloseModal` | src/TimesheetCalendar.tsx:79-81 | only the modal flag is cleared |
| `TimesheetCalendar.Page.HandleCloseDrawer` | src/TimesheetCalendar.tsx:83-85 | only the drawer flag is cleared |
| `TimesheetCalendar.Page.HandleViewChange` | src/TimesheetCalendar.tsx:87-89 | the view becomes exactly the argument |
| `TimesheetCalendar.Page.OnView` | src/TimesheetCalendar.tsx:121 | the grid's own view callback changes nothing |
| `AdvancedRbcCalendar.Page.constructor` | src/AdvancedRBCCalendar.tsx:22-27 | the page starts with its imported events, editors closed, no slot, not mobile |
| `AdvancedRbcCalendar.Page.CheckIsMobile` | src/AdvancedRBCCalendar.tsx:31-33 | mobile becomes `width <= 768` and nothing else changes, so no view is tied to it |
| `AdvancedRbcCalendar.Page.HandleSelectSlot` | src/AdvancedRBCCalendar.tsx:43-54 | the slot is stored, and the drawer opens iff mobile, otherwise the modal |
| `AdvancedRbcCalendar.Page.HandleAddEvent` | src/AdvancedRBCCalendar.tsx:56-67 | exactly one record is appended, prior records are unchanged, and both editors close |
| `AdvancedRbcCalendar.Page.HandleSelectEvent` | src/AdvancedRBCCalendar.tsx:69-73 | a confirmed click deletes every record with the event's id. A declined one changes nothing |
| `AdvancedRbcCalendar.Page.HandleCloseModal` | src/AdvancedRBCCalendar.tsx:75-77 | only the modal flag is cleared |
| `AdvancedRbcCalendar.Page.HandleCloseDrawer` | src/AdvancedRBCCalendar.tsx:79-81 | only the drawer flag is cleared |
| `IranianCalendar.ShiftToSaturday` | src/IranianCalendar.tsx:18-22 | `(day + 1) % 7` is in 0..6. JS Saturday (6) maps to 0, JS Friday (5) maps to 6, and every other day moves up by one |
| `IranianCalendar.WeekdayOf` | src/IranianCalendar.tsx:19 | `moment(date).day()`, with 1970-01-01 a Thursday. `NextDayNextIndex` and `SampleEventsAllShown` rely on it |
| `IranianCalendar.IranianDayOfWeek` | src/IranianCalendar.tsx:18-22 | `getIranianDayOfWeek`: an index in 0..6 that the inverse renumbering turns back into the JavaScript weekday, and that is 0 exactly on Saturday |
| `IranianCalendar.ShiftIsBijection` | src/IranianCalendar.tsx:21 | the shift has a two-sided inverse, so it is a bijection on 0..6 |
| `IranianCalendar.NextDayNextIndex` | src/IranianCalendar.tsx:18-22 | the next day gets the next index, and Friday wraps to Saturday |
| `IranianCalendar.SampleEvents` | src/IranianCalendar.tsx:25-38 | the two initial entries, under different ids |
| `IranianCalendar.WorkingDaysEvents` | src/IranianCalendar.tsx:41-44 | the `workingDaysEvents` filter. Its effect is stated by `WorkingDaysEventsEffect` and `WorkingDaysEventsConcat` |
| `IranianCalendar.WorkingDaysEventsEffect` | src/IranianCalendar.tsx:41-44 | every kept event starts Saturday to Wednesday, and each such event is kept with its multiplicity. Thursday and Friday events are dropped |
| `IranianCalendar.WorkingDaysEventsConcat` | src/IranianCalendar.tsx:41-44 | the working-day filter preserves order |
| `IranianCalendar.SampleEventsAllShown` | src/IranianCalendar.tsx:25-44 | both sample events (a Saturday and a Sunday) are shown |
| `IranianCalendar.DayNamesDistinct` | src/IranianCalendar.tsx:48 | the seven header names are pairwise different |
| `IranianCalendar.HeaderName` | src/IranianCalendar.tsx:46-52 | the header name is one of the seven names, and the one that sits at the day's index and at no other index |
| `IranianCalendar.HeaderNamesDistinct` | src/IranianCalendar.tsx:46-52 | two days get the same header name iff they have the same weekday |
| `IranianCalendar.MonthCellShown` | src/IranianCalendar.tsx:59-64 | a month cell renders nothing iff the index is 5 or more |
| `IranianCalendar.WorkingDayLabel` | src/IranianCalendar.tsx:93-102 | `dayFormat`/`weekdayFormat` give the 5-name entry for indices 0..4 and `''` for 5 and 6 |
| `IranianCalendar.LabelAgreesWithHeader` | src/IranianCalendar.tsx:59-102 | a day has a non-empty label iff its month cell is shown, and then the label equals its header name |

## Left out

- The calendar widgets themselves are not modelled: FullCalendar and react-big-calendar rendering, the view configuration objects, JSX, CSS, and the FullCalendar page's `handleNavigate` (`prev`, `next`, `today` are calls into the widget). `changeView` is modelled only as the field `calendarView`.
- The `resize` listener is not modelled: its registration and cleanup are left out, and every width notification is a call to `CheckIsMobile(width)`.
- `window.confirm` is a boolean parameter of `HandleSelectEvent`. The text of its prompt is not modelled.
- `Date.now()` ids are a `newId` parameter. Ids are not promised to be unique, because the source does not handle two creations in the same millisecond. Uniqueness or freshness appears only as a precondition of the lemmas that need it.
- Time zones and daylight saving are not modelled: a `Date` is local day, hour, minute and milliseconds. The date input's `toISOString()` display and `new Date("YYYY-MM-DD")` parsing (UTC midnight) are not modelled, and `SetDate` takes the resulting `Date`.
- `EventModal.Modal.SetStartTime` requires well-formed `"HH:MM"`, so a cleared start field, which becomes an invalid date on submit, is not modelled.
- `EventModal.Modal.SetEndTime` requires well-formed `"HH:MM"`, so a cleared end field is not modelled.
- `EventDrawer.Drawer.SetStartTime` requires well-formed `"HH:MM"`, so a cleared start field is not modelled. The drawer's Save button bypasses the `required` check, so it can submit such a field.
- `EventDrawer.Drawer.SetEndTime` requires well-formed `"HH:MM"`, so a cleared end field is not modelled, for the same reason.
- `TimeText.JsNumber` is `Number` only on digit strings and `''`. Any other string gives `None` here, although JavaScript reads some of them (`"+7"`, `" 7"`, `"1.5"`, `"1e2"`) as numbers. A time input's value never splits into such pieces.
- React's asynchronous, batched state updates are not modelled: each handler is one atomic step. The prefill effects are methods that whoever changes the props calls. Containers and editors are separate objects, and the wiring between them is described in the method comments, not composed into one object.
- The modal's and drawer's `isOpen` render gate is not modelled, nor their Cancel and overlay buttons, which only call `onClose`.
- moment's Persian locale setup and the Jalali `jD` day numbers in headers and cells are not modelled, because they are library internals.
- The initial events of the two big-calendar pages come from a module that is not part of this model, so they are a constructor parameter.
- `src/AgendaDemo.tsx` (static data and configuration) and `src/App.tsx` (provider wiring) are not part of this model.
