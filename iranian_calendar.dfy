/** The Persian-week page: weekdays are renumbered so the week starts on
    Saturday, events starting on Thursday or Friday are hidden, and the day
    names come from two tables, one of seven names and one of the five
    working days. */
module IranianCalendar {
  import opened Seqs
  import opened CalendarTime

  /** A JavaScript weekday number, Sunday = 0 ... Saturday = 6. */
  type JsWeekday = d: int | 0 <= d < 7
  /** A Persian weekday index, Saturday = 0 ... Friday = 6. */
  type IranianIndex = i: int | 0 <= i < 7

  const JsFriday: JsWeekday := 5
  const JsSaturday: JsWeekday := 6

  /** Indices below this are working days (Saturday to Wednesday). */
  const WorkingDays: int := 5

  /** Saturday to Friday. */
  const DayNames: seq<string> := ["شنبه", "یکشنبه", "دوشنبه", "سه‌شنبه", "چهارشنبه", "پنج‌شنبه", "جمعه"]
  /** Saturday to Wednesday. */
  const WorkingDayNames: seq<string> := ["شنبه", "یکشنبه", "دوشنبه", "سه‌شنبه", "چهارشنبه"]

  /** `moment(date).day()`: 1970-01-01 (day 0) was a Thursday. */
  function WeekdayOf(d: Date): JsWeekday {
    (d.day + 4) % 7
  }

  /** The renumbering `(day + 1) % 7`: Saturday becomes 0, Friday 6, and
      every weekday gets a different index. */
  function ShiftToSaturday(jsDay: JsWeekday): (i: IranianIndex)
    ensures jsDay == JsSaturday <==> i == 0
    ensures jsDay == JsFriday <==> i == 6
    ensures i == if jsDay == JsSaturday then 0 else jsDay + 1
  {
    (jsDay + 1) % 7
  }

  /** The inverse renumbering. */
  function ShiftToSunday(i: IranianIndex): (jsDay: JsWeekday) {
    (i + 6) % 7
  }

  /** The renumbering is a bijection on 0..6: each way round is the inverse
      of the other. */
  lemma ShiftIsBijection(jsDay: JsWeekday, i: IranianIndex)
    ensures ShiftToSunday(ShiftToSaturday(jsDay)) == jsDay
    ensures ShiftToSaturday(ShiftToSunday(i)) == i
    ensures ShiftToSaturday(jsDay) == i <==> jsDay == ShiftToSunday(i)
  {
  }

  /** `getIranianDayOfWeek(date)`: the Persian index of the date's weekday,
      which the inverse renumbering turns back into `moment(date).day()`. */
  function IranianDayOfWeek(d: Date): (i: IranianIndex)
    ensures ShiftToSunday(i) == WeekdayOf(d)
    ensures i == 0 <==> WeekdayOf(d) == JsSaturday
  {
    ShiftToSaturday(WeekdayOf(d))
  }

  /** The next day has the next index, Friday wrapping round to Saturday. */
  lemma NextDayNextIndex(d: Date)
    ensures IranianDayOfWeek(d.(day := d.day + 1)) == (IranianDayOfWeek(d) + 1) % 7
  {
  }

  predicate IsWorkingDay(d: Date) {
    IranianDayOfWeek(d) < WorkingDays
  }

  /** An event hides unless its start falls on Saturday to Wednesday. */
  predicate StartsOnWorkingDay(e: IranianEvent) {
    IsWorkingDay(e.start)
  }

  datatype IranianEvent = IranianEvent(id: int, title: string, start: Date, end: Date)

  /** The two entries the page starts with (15 and 16 June 2024). */
  function SampleEvents(): (r: seq<IranianEvent>)
    ensures |r| == 2 && r[0].id != r[1].id
  {
    [ IranianEvent(1, "جلسه تیم", Date(19889, 10, 0, 0), Date(19889, 11, 30, 0)),
      IranianEvent(2, "تحلیل پروژه", Date(19890, 14, 0, 0), Date(19890, 16, 0, 0)) ]
  }

  /** `workingDaysEvents`: `events.filter(e => getIranianDayOfWeek(e.start) < 5)`. */
  function WorkingDaysEvents(events: seq<IranianEvent>): seq<IranianEvent> {
    Filter(events, StartsOnWorkingDay)
  }

  /** The working-day filter keeps, in order and with multiplicity, exactly
      the events starting Saturday to Wednesday: every kept event starts on
      one of those days, and one that starts on Thursday or Friday is gone. */
  lemma WorkingDaysEventsEffect(events: seq<IranianEvent>, e: IranianEvent)
    ensures forall i :: 0 <= i < |WorkingDaysEvents(events)| ==> IranianDayOfWeek(WorkingDaysEvents(events)[i].start) < 5
    ensures multiset(WorkingDaysEvents(events))[e] == if IranianDayOfWeek(e.start) < 5 then multiset(events)[e] else 0
  {
    FilterCounts(events, StartsOnWorkingDay, e);
  }

  /** Filtering a page of events is filtering its parts: order is kept. */
  lemma WorkingDaysEventsConcat(a: seq<IranianEvent>, b: seq<IranianEvent>)
    ensures WorkingDaysEvents(a + b) == WorkingDaysEvents(a) + WorkingDaysEvents(b)
  {
    FilterConcat(a, b, StartsOnWorkingDay);
  }

  /** Both sample entries start on working days (Saturday and Sunday), so
      the page shows both. */
  lemma SampleEventsAllShown()
    ensures WorkingDaysEvents(SampleEvents()) == SampleEvents()
  {
  }

  /** The seven names are pairwise different. */
  lemma DayNamesDistinct()
    ensures forall a, b :: 0 <= a < b < |DayNames| ==> DayNames[a] != DayNames[b]
  {
    forall a, b | 0 <= a < b < |DayNames| ensures DayNames[a] != DayNames[b] {
      var x, y := DayNames[a], DayNames[b];
      assert |x| > 0 && |y| > 0;
      assert |x| != |y| || x[0] != y[0];
    }
  }

  /** `CustomHeader`: `dayNames[getIranianDayOfWeek(date)]`. The index is
      always within the seven-name table, and the name found there belongs to
      that weekday and to no other. */
  function HeaderName(d: Date): (name: string)
    ensures name in DayNames
    ensures forall j :: 0 <= j < |DayNames| ==> (DayNames[j] == name <==> j == IranianDayOfWeek(d))
  {
    DayNamesDistinct();
    DayNames[IranianDayOfWeek(d)]
  }

  /** Two days share a header name exactly when they share a weekday. */
  lemma HeaderNamesDistinct(d1: Date, d2: Date)
    ensures HeaderName(d1) == HeaderName(d2) <==> IranianDayOfWeek(d1) == IranianDayOfWeek(d2)
  {
  }

  /** `CustomMonthView`: whether a month cell renders anything. */
  function MonthCellShown(d: Date): (shown: bool)
    ensures shown <==> IranianDayOfWeek(d) < 5
  {
    !(IranianDayOfWeek(d) >= 5)
  }

  /** `dayFormat` and `weekdayFormat` (the same function):
      `workingDayNames[index] || ''`. */
  function WorkingDayLabel(d: Date): (text: string)
    ensures IranianDayOfWeek(d) < 5 ==> text == WorkingDayNames[IranianDayOfWeek(d)]
    ensures IranianDayOfWeek(d) >= 5 ==> text == ""
  {
    var i := IranianDayOfWeek(d);
    if i < |WorkingDayNames| && WorkingDayNames[i] != "" then WorkingDayNames[i] else ""
  }

  /** A day gets a label exactly when its month cell is shown, and then the
      label is the day's header name: the five-name table is the start of
      the seven-name one. */
  lemma LabelAgreesWithHeader(d: Date)
    ensures WorkingDayLabel(d) != "" <==> MonthCellShown(d)
    ensures MonthCellShown(d) ==> WorkingDayLabel(d) == HeaderName(d)
  {
  }
}
