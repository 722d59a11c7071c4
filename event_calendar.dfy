/** The calendar page of events and todos (`EventCalendar`): one list of
    calendar items holding both the events and the todos (by due date), the
    two fetches that each replace their own kind of item, the
    events/todos/both selector, and the add-event dialog. */
module EventCalendar {
  import opened Base
  import EventSchema
  import EventRoutes

  /** An event as the server sends it. */
  datatype ServerEvent = ServerEvent(id: Id, title: string, start: Time, end: Time,
                                     description: Option<string>, color: Option<string>)

  /** A todo as the server sends it (the fields this page reads). */
  datatype ServerTodo = ServerTodo(id: Id, task: string, dueDate: Time, completed: bool)

  /** An entry of the page's list: an event, or a todo shown on its due date. */
  datatype Item = Item(id: Id, title: string, start: Time, end: Time,
                       description: Option<string>, color: Option<string>, isEvent: bool)

  const CompletedColor := "#4CAF50"
  const PendingColor := "#FFC107"
  /** The colour the colour input shows while none has been picked. */
  const DefaultColor := "#3788d8"

  predicate IsEventItem(x: Item) {
    x.isEvent
  }

  predicate IsTodoItem(x: Item) {
    !x.isEvent
  }

  /** An event from the server as an item: all its fields, marked as an event. */
  function EventItem(e: ServerEvent): (x: Item)
    ensures x.isEvent && x.id == e.id && x.title == e.title && x.start == e.start && x.end == e.end
    ensures x.description == e.description && x.color == e.color
  {
    Item(e.id, e.title, e.start, e.end, e.description, e.color, true)
  }

  /** A todo from the server as an item: its task on its due date, green
      when completed and amber otherwise. */
  function TodoItem(t: ServerTodo): (x: Item)
    ensures !x.isEvent && x.id == t.id && x.title == t.task && x.start == x.end == t.dueDate
    ensures x.description.None?
    ensures x.color == Some(CompletedColor) <==> t.completed
    ensures x.color == Some(PendingColor) <==> !t.completed
  {
    Item(t.id, t.task, t.dueDate, t.dueDate, None, Some(if t.completed then CompletedColor else PendingColor), false)
  }

  function EventItems(data: seq<ServerEvent>): (r: seq<Item>)
    ensures |r| == |data| && forall i :: 0 <= i < |data| ==> r[i] == EventItem(data[i])
  {
    seq(|data|, i requires 0 <= i < |data| => EventItem(data[i]))
  }

  function TodoItems(data: seq<ServerTodo>): (r: seq<Item>)
    ensures |r| == |data| && forall i :: 0 <= i < |data| ==> r[i] == TodoItem(data[i])
  {
    seq(|data|, i requires 0 <= i < |data| => TodoItem(data[i]))
  }

  /** `fetchEvents`' update: the todo items kept, the fetched events after them. */
  function MergeEvents(prev: seq<Item>, data: seq<ServerEvent>): seq<Item> {
    Filter(prev, IsTodoItem) + EventItems(data)
  }

  /** `fetchTodos`' update: the event items kept, the fetched todos after them. */
  function MergeTodos(prev: seq<Item>, data: seq<ServerTodo>): seq<Item> {
    Filter(prev, IsEventItem) + TodoItems(data)
  }

  /** An event fetch replaces exactly the events and keeps the todo items in order. */
  lemma MergeEventsSpec(prev: seq<Item>, data: seq<ServerEvent>)
    ensures Filter(MergeEvents(prev, data), IsEventItem) == EventItems(data)
    ensures Filter(MergeEvents(prev, data), IsTodoItem) == Filter(prev, IsTodoItem)
  {
    var kept := Filter(prev, IsTodoItem);
    FilterConcat(kept, EventItems(data), IsEventItem);
    FilterConcat(kept, EventItems(data), IsTodoItem);
    FilterDropsAll(kept, IsEventItem);
    FilterKeepsAll(kept, IsTodoItem);
    FilterKeepsAll(EventItems(data), IsEventItem);
    FilterDropsAll(EventItems(data), IsTodoItem);
  }

  /** A todo fetch replaces exactly the todos and keeps the event items in order. */
  lemma MergeTodosSpec(prev: seq<Item>, data: seq<ServerTodo>)
    ensures Filter(MergeTodos(prev, data), IsTodoItem) == TodoItems(data)
    ensures Filter(MergeTodos(prev, data), IsEventItem) == Filter(prev, IsEventItem)
  {
    var kept := Filter(prev, IsEventItem);
    FilterConcat(kept, TodoItems(data), IsEventItem);
    FilterConcat(kept, TodoItems(data), IsTodoItem);
    FilterDropsAll(kept, IsTodoItem);
    FilterKeepsAll(kept, IsEventItem);
    FilterKeepsAll(TodoItems(data), IsTodoItem);
    FilterDropsAll(TodoItems(data), IsEventItem);
  }

  /** The two fetches on mount may finish in either order: either way the list
      then holds exactly the fetched events and the fetched todos. */
  lemma FetchOrderIrrelevant(prev: seq<Item>, events: seq<ServerEvent>, todos: seq<ServerTodo>)
    ensures var a := MergeTodos(MergeEvents(prev, events), todos);
            Filter(a, IsEventItem) == EventItems(events) && Filter(a, IsTodoItem) == TodoItems(todos)
    ensures var b := MergeEvents(MergeTodos(prev, todos), events);
            Filter(b, IsEventItem) == EventItems(events) && Filter(b, IsTodoItem) == TodoItems(todos)
  {
    MergeEventsSpec(prev, events);
    MergeTodosSpec(MergeEvents(prev, events), todos);
    MergeTodosSpec(prev, todos);
    MergeEventsSpec(MergeTodos(prev, todos), events);
  }

  // ---------------------------------------------------------------------------
  // The selector

  /** `filteredEvents`: events when events are shown, todos when todos are shown. */
  function Visible(items: seq<Item>, showEvents: bool, showTodos: bool): (r: seq<Item>)
    ensures IsSubsequence(r, items)
    ensures forall x :: x in r <==> x in items && ((showEvents && x.isEvent) || (showTodos && !x.isEvent))
    ensures showEvents && showTodos ==> r == items
    ensures showEvents && !showTodos ==> r == Filter(items, IsEventItem)
    ensures !showEvents && showTodos ==> r == Filter(items, IsTodoItem)
  {
    if showEvents && showTodos then SubsequenceReflexive(items); items
    else if showEvents then Filter(items, IsEventItem)
    else if showTodos then Filter(items, IsTodoItem)
    else []
  }

  /** The value the select shows. */
  function SelectValue(showEvents: bool, showTodos: bool): string {
    if showEvents then (if showTodos then "both" else "events") else "todos"
  }

  /** `onValueChange`: the new `(showEvents, showTodos)`; any value other than
      "both" and "events" shows todos only. */
  function OnValueChange(value: string): (bool, bool) {
    if value == "both" then (true, true)
    else if value == "events" then (true, false)
    else (false, true)
  }

  /** Choosing an option makes the select show it, the select's value re-chosen
      keeps the state, and the select never leaves both kinds hidden. */
  lemma SelectRoundTrip(value: string, showEvents: bool, showTodos: bool)
    ensures value in {"both", "events", "todos"} ==> SelectValue(OnValueChange(value).0, OnValueChange(value).1) == value
    ensures value !in {"both", "events"} ==> OnValueChange(value) == (false, true)
    ensures showEvents || showTodos ==> OnValueChange(SelectValue(showEvents, showTodos)) == (showEvents, showTodos)
    ensures OnValueChange(value).0 || OnValueChange(value).1
  {
  }

  /** `eventPropGetter`: the background colour of an item. */
  function BackgroundColor(x: Item): Option<string> {
    x.color
  }

  /** After a todo fetch, every todo item is drawn green when its todo is
      completed and amber when it is not. */
  lemma TodoColors(prev: seq<Item>, data: seq<ServerTodo>, i: nat)
    requires i < |data|
    ensures var xs := Filter(MergeTodos(prev, data), IsTodoItem);
            |xs| == |data| && xs[i].id == data[i].id
            && (BackgroundColor(xs[i]) == Some(CompletedColor) <==> data[i].completed)
            && (BackgroundColor(xs[i]) == Some(PendingColor) <==> !data[i].completed)
  {
    MergeTodosSpec(prev, data);
  }

  // ---------------------------------------------------------------------------
  // The dialog and the page's state

  /** The add-event form (`newEvent`): each field absent until typed. */
  datatype Draft = Draft(title: Option<string>, start: Option<Time>, end: Option<Time>,
                         description: Option<string>, color: Option<string>)

  const EmptyDraft := Draft(None, None, None, None, None)

  /** `newEvent.title && newEvent.start && newEvent.end`: a non-empty title
      and both dates chosen. */
  predicate CanSubmit(d: Draft) {
    d.title.Some? && d.title.value != "" && d.start.Some? && d.end.Some?
  }

  /** `newEvent.title || ''`: what the title input shows. */
  function ShownTitle(d: Draft): (t: string)
    ensures d.title.Some? ==> t == d.title.value
    ensures d.title.None? ==> t == ""
  {
    d.title.GetOr("")
  }

  /** The Add Event button posts only while the title input shows some text. */
  lemma SubmitNeedsShownTitle(d: Draft)
    ensures CanSubmit(d) ==> ShownTitle(d) != ""
    ensures ShownTitle(d) == "" ==> !CanSubmit(d)
  {
  }

  /** `newEvent.color || '#3788d8'`: the empty string falls back to the default too. */
  function ShownColor(d: Draft): (c: string)
    ensures c != ""
    ensures d.color.Some? && d.color.value != "" ==> c == d.color.value
    ensures d.color.None? || d.color == Some("") ==> c == DefaultColor
  {
    if d.color.Some? && d.color.value != "" then d.color.value else DefaultColor
  }

  /** `JSON.stringify(newEvent)` as the server reads it: the fields typed so
      far, the others absent. */
  function PostedBody(d: Draft): (b: EventRoutes.EventBody)
    ensures b.title == d.title && b.start == d.start && b.end == d.end
    ensures b.description == d.description && b.color == d.color
  {
    EventRoutes.EventBody(d.title, d.start, d.end, d.description, d.color)
  }

  /** The event the server stores from a posted draft has the colour the
      dialog's colour input showed, whether or not one was picked. The
      colour input only ever produces a `#rrggbb` value, never "". */
  lemma StoredColorIsShownColor(d: Draft)
    requires d.color != Some("")
    ensures EventRoutes.CreateDoc(PostedBody(d)).color == ShownColor(d)
  {
  }

  /** The page posts exactly the drafts that the server's validation accepts. */
  lemma SubmittableIsValid(d: Draft)
    ensures EventSchema.IsValid(EventRoutes.CreateDoc(PostedBody(d))) <==> CanSubmit(d)
  {
  }

  class EventCalendarState {
    var events: seq<Item>
    var newEvent: Draft
    var isDialogOpen: bool
    var showEvents: bool
    var showTodos: bool

    /** What the calendar draws. */
    function Shown(): seq<Item>
      reads this
    {
      Visible(events, showEvents, showTodos)
    }

    constructor ()
      ensures events == [] && newEvent == EmptyDraft && !isDialogOpen && showEvents && showTodos
    {
      events := [];
      newEvent := EmptyDraft;
      isDialogOpen := false;
      showEvents := true;
      showTodos := true;
    }

    /** `fetchEvents`; `answer` is the server's list, absent on failure. */
    method FetchEvents(answer: Option<seq<ServerEvent>>)
      modifies this`events
      ensures events == if answer.Some? then MergeEvents(old(events), answer.value) else old(events)
    {
      if answer.Some? {
        events := Filter(events, IsTodoItem) + EventItems(answer.value);
      }
    }

    /** `fetchTodos`; `answer` is the server's list, absent on failure. */
    method FetchTodos(answer: Option<seq<ServerTodo>>)
      modifies this`events
      ensures events == if answer.Some? then MergeTodos(old(events), answer.value) else old(events)
    {
      if answer.Some? {
        events := Filter(events, IsEventItem) + TodoItems(answer.value);
      }
    }

    /** `handleAddEvent`: posts the draft (`request`) when it can be submitted;
        on the server's answer appends the created event, clears the draft
        and closes the dialog. */
    method AddEvent(answer: Option<ServerEvent>) returns (request: Option<Draft>)
      modifies this`events, this`newEvent, this`isDialogOpen
      ensures request.Some? <==> CanSubmit(old(newEvent))
      ensures request.Some? ==> request.value == old(newEvent)
      ensures request.Some? && answer.Some? ==>
                events == old(events) + [EventItem(answer.value)] && newEvent == EmptyDraft && !isDialogOpen
      ensures request.None? || answer.None? ==> unchanged(this`events, this`newEvent, this`isDialogOpen)
    {
      if newEvent.title.Some? && newEvent.title.value != "" && newEvent.start.Some? && newEvent.end.Some? {
        request := Some(newEvent);
        if answer.Some? {
          events := events + [EventItem(answer.value)];
          newEvent := EmptyDraft;
          isDialogOpen := false;
        }
      } else {
        request := None;
      }
    }

    /** `onValueChange` of the select. */
    method SelectShown(value: string)
      modifies this`showEvents, this`showTodos
      ensures (showEvents, showTodos) == OnValueChange(value)
    {
      if value == "both" {
        showEvents, showTodos := true, true;
      } else if value == "events" {
        showEvents, showTodos := true, false;
      } else {
        showEvents, showTodos := false, true;
      }
    }

    /** `onOpenChange` of the dialog. */
    method SetDialogOpen(open: bool)
      modifies this`isDialogOpen
      ensures isDialogOpen == open
    {
      isDialogOpen := open;
    }

    method SetTitle(title: string)
      modifies this`newEvent
      ensures newEvent == old(newEvent).(title := Some(title))
    {
      newEvent := newEvent.(title := Some(title));
    }

    method SetStart(start: Time)
      modifies this`newEvent
      ensures newEvent == old(newEvent).(start := Some(start))
    {
      newEvent := newEvent.(start := Some(start));
    }

    method SetEnd(end: Time)
      modifies this`newEvent
      ensures newEvent == old(newEvent).(end := Some(end))
    {
      newEvent := newEvent.(end := Some(end));
    }

    method SetDescription(description: string)
      modifies this`newEvent
      ensures newEvent == old(newEvent).(description := Some(description))
    {
      newEvent := newEvent.(description := Some(description));
    }

    method SetColor(color: string)
      modifies this`newEvent
      ensures newEvent == old(newEvent).(color := Some(color))
    {
      newEvent := newEvent.(color := Some(color));
    }
  }
}
