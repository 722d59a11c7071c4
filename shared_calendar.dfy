/** The compact calendar of the dashboard (`SharedCalendar`): events and
    todos fetched together and shown as one list of entries, todo entries
    coloured by completion, and the view and month navigation. */
module SharedCalendar {
  import opened Base

  /** An event as the server sends it (the fields this calendar reads). */
  datatype ServerEvent = ServerEvent(id: Id, title: string, start: Time, end: Time)

  /** A todo as the server sends it (the fields this calendar reads). */
  datatype ServerTodo = ServerTodo(id: Id, task: string, dueDate: Time, completed: bool)

  /** A calendar entry. Event entries carry no `allDay`, `todo` or `completed`
      field; the absent field reads as `false`, which is all the calendar
      tests it for. */
  datatype Entry = Entry(id: Id, title: string, start: Time, end: Time,
                         allDay: bool, todo: bool, completed: bool)

  const CompletedColor := "#4CAF50"
  const PendingColor := "#FFA726"
  const TodoPrefix := "Todo: "

  /** `formattedEvents`' element. */
  function EventEntry(e: ServerEvent): (x: Entry)
    ensures x.id == e.id && x.title == e.title && x.start == e.start && x.end == e.end
    ensures !x.allDay && !x.todo && !x.completed
  {
    Entry(e.id, e.title, e.start, e.end, false, false, false)
  }

  /** `todoEvents`' element: an all-day entry on the due date titled "Todo: "
      and the task. */
  function TodoEntry(t: ServerTodo): (x: Entry)
    ensures x.id == t.id && x.title == TodoPrefix + t.task && x.start == x.end == t.dueDate
    ensures x.allDay && x.todo && x.completed == t.completed
  {
    Entry(t.id, TodoPrefix + t.task, t.dueDate, t.dueDate, true, true, t.completed)
  }

  /** `[...formattedEvents, ...todoEvents]`: every event, then one entry per todo. */
  function Combine(events: seq<ServerEvent>, todos: seq<ServerTodo>): (r: seq<Entry>)
    ensures |r| == |events| + |todos|
    ensures forall i :: 0 <= i < |events| ==> r[i] == EventEntry(events[i])
    ensures forall i :: 0 <= i < |todos| ==> r[|events| + i] == TodoEntry(todos[i])
  {
    seq(|events|, i requires 0 <= i < |events| => EventEntry(events[i]))
    + seq(|todos|, i requires 0 <= i < |todos| => TodoEntry(todos[i]))
  }

  /** The entries flagged as todos are exactly the ones made from todos. */
  lemma CombineKinds(events: seq<ServerEvent>, todos: seq<ServerTodo>, i: nat)
    requires i < |events| + |todos|
    ensures Combine(events, todos)[i].todo <==> i >= |events|
  {
  }

  /** `eventStyleGetter`'s background colour: green or orange for todo
      entries, none for the others. */
  function StyleOf(x: Entry): (color: Option<string>)
    ensures x.todo ==> color == Some(if x.completed then CompletedColor else PendingColor)
    ensures !x.todo ==> color.None?
  {
    if x.todo then Some(if x.completed then CompletedColor else PendingColor) else None
  }

  /** The entries drawn from todos are green exactly when their todo is completed;
      event entries are drawn with the calendar's own style. */
  lemma CombinedStyles(events: seq<ServerEvent>, todos: seq<ServerTodo>)
    ensures forall i :: 0 <= i < |events| ==> StyleOf(Combine(events, todos)[i]).None?
    ensures forall i :: 0 <= i < |todos| ==>
              (StyleOf(Combine(events, todos)[|events| + i]) == Some(CompletedColor) <==> todos[i].completed)
    ensures forall i :: 0 <= i < |todos| ==>
              (StyleOf(Combine(events, todos)[|events| + i]) == Some(PendingColor) <==> !todos[i].completed)
  {
  }

  // ---------------------------------------------------------------------------
  // Month navigation

  datatype View = Month | Week | Day | Agenda

  /** A calendar day: the year, the month counted from 0 as `getMonth` does, and the day of the month. */
  datatype CalDate = CalDate(year: int, month0: int, day: int)

  predicate ValidDate(d: CalDate) {
    0 <= d.month0 < 12 && 1 <= d.day <= 31
  }

  /** `new Date(year, month, 1)`: a month outside 0..11 rolls over into the
      neighbouring years. */
  function MonthStart(year: int, month: int): (d: CalDate)
    ensures ValidDate(d) && d.day == 1
    ensures d.year * 12 + d.month0 == year * 12 + month
  {
    CalDate(year + month / 12, month % 12, 1)
  }

  /** The Prev button's date. */
  function PrevMonth(d: CalDate): CalDate {
    MonthStart(d.year, d.month0 - 1)
  }

  /** The Next button's date. */
  function NextMonth(d: CalDate): CalDate {
    MonthStart(d.year, d.month0 + 1)
  }

  /** Prev goes to the first of the month before, January to December of the year before. */
  lemma PrevMonthSpec(d: CalDate)
    requires ValidDate(d)
    ensures d.month0 == 0 ==> PrevMonth(d) == CalDate(d.year - 1, 11, 1)
    ensures d.month0 > 0 ==> PrevMonth(d) == CalDate(d.year, d.month0 - 1, 1)
  {
  }

  /** Next goes to the first of the month after, December to January of the year after. */
  lemma NextMonthSpec(d: CalDate)
    requires ValidDate(d)
    ensures d.month0 == 11 ==> NextMonth(d) == CalDate(d.year + 1, 0, 1)
    ensures d.month0 < 11 ==> NextMonth(d) == CalDate(d.year, d.month0 + 1, 1)
  {
  }

  /** Next then Prev, or Prev then Next, comes back to the first of the month. */
  lemma NextPrevRoundTrip(d: CalDate)
    requires ValidDate(d)
    ensures PrevMonth(NextMonth(d)) == CalDate(d.year, d.month0, 1)
    ensures NextMonth(PrevMonth(d)) == CalDate(d.year, d.month0, 1)
  {
    NextMonthSpec(d);
    PrevMonthSpec(d);
    PrevMonthSpec(NextMonth(d));
    NextMonthSpec(PrevMonth(d));
  }

  class SharedCalendarState {
    var events: seq<Entry>
    var view: View
    var date: CalDate

    predicate Valid()
      reads this
    {
      ValidDate(date)
    }

    /** The first render; `today` is the date `new Date()` gives. */
    constructor (today: CalDate)
      requires ValidDate(today)
      ensures Valid() && events == [] && view == Month && date == today
    {
      events := [];
      view := Month;
      date := today;
    }

    /** `fetchEventsAndTodos`: both answers are needed; if either request
        fails the entries stay as they were. */
    method FetchEventsAndTodos(eventsAnswer: Option<seq<ServerEvent>>, todosAnswer: Option<seq<ServerTodo>>)
      modifies this`events
      ensures events == if eventsAnswer.Some? && todosAnswer.Some?
                        then Combine(eventsAnswer.value, todosAnswer.value) else old(events)
    {
      if eventsAnswer.None? || todosAnswer.None? {
        return;
      }
      events := Combine(eventsAnswer.value, todosAnswer.value);
    }

    /** `handleViewChange`: only the view changes. */
    method HandleViewChange(newView: View)
      modifies this`view
      ensures view == newView
    {
      view := newView;
    }

    /** `handleNavigate`: only the date changes. */
    method HandleNavigate(newDate: CalDate)
      requires ValidDate(newDate)
      modifies this`date
      ensures Valid() && date == newDate
    {
      date := newDate;
    }

    /** The Today button. */
    method Today(today: CalDate)
      requires ValidDate(today)
      modifies this`date
      ensures Valid() && date == today
    {
      HandleNavigate(today);
    }

    /** The Prev button. */
    method Prev()
      requires Valid()
      modifies this`date
      ensures Valid() && date == PrevMonth(old(date))
    {
      HandleNavigate(MonthStart(date.year, date.month0 - 1));
    }

    /** The Next button. */
    method Next()
      requires Valid()
      modifies this`date
      ensures Valid() && date == NextMonth(old(date))
    {
      HandleNavigate(MonthStart(date.year, date.month0 + 1));
    }
  }
}
