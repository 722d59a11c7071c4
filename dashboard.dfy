/** The dashboard's list of recent tasks (`Dashboard`): the first five todos
    the server returns, each with a checkbox that toggles its completion. */
module Dashboard {
  import opened Base

  /** A todo as the dashboard reads it. */
  datatype Todo = Todo(id: Id, task: string, completed: bool, dueDate: Time, priority: string)

  /** How many todos the dashboard keeps. */
  const RecentCount := 5

  /** `data.slice(0, 5)`: the first five todos, in order. */
  function Recent(data: seq<Todo>): (r: seq<Todo>)
    ensures |r| == if |data| < RecentCount then |data| else RecentCount
    ensures r <= data
  {
    Take(data, RecentCount)
  }

  predicate HasId(id: Id, t: Todo) {
    t.id == id
  }

  /** The body `toggleTodo` sends: the opposite of the first todo with the id,
      or no request at all when the list has no todo with that id. */
  function ToggleRequest(todos: seq<Todo>, id: Id): (completed: Option<bool>)
    ensures completed.None? <==> forall i :: 0 <= i < |todos| ==> todos[i].id != id
    ensures completed.Some? ==> exists i :: 0 <= i < |todos| && todos[i].id == id
                                            && completed.value == !todos[i].completed
                                            && forall j :: 0 <= j < i ==> todos[j].id != id
  {
    var found := Find(todos, t => HasId(id, t));
    if found.Some? then Some(!found.value.completed) else None
  }

  /** The list after the server answered the toggle with `updated`. */
  function Replace(todos: seq<Todo>, id: Id, updated: Todo): (r: seq<Todo>)
    ensures |r| == |todos|
    ensures forall i :: 0 <= i < |todos| ==> r[i] == if todos[i].id == id then updated else todos[i]
  {
    ReplaceWhere(todos, t => HasId(id, t), updated)
  }

  /** A todo with a single matching id: the toggle changes that one position only. */
  lemma ReplaceOnly(todos: seq<Todo>, id: Id, updated: Todo, k: nat)
    requires k < |todos| && todos[k].id == id
    requires forall i :: 0 <= i < |todos| && i != k ==> todos[i].id != id
    ensures Replace(todos, id, updated) == todos[k := updated]
  {
  }

  class DashboardState {
    var todos: seq<Todo>

    constructor ()
      ensures todos == []
    {
      todos := [];
    }

    /** `fetchTodos`: the first five of the server's list, or no change on failure. */
    method FetchTodos(answer: Option<seq<Todo>>)
      modifies this
      ensures todos == if answer.Some? then Recent(answer.value) else old(todos)
    {
      if answer.Some? {
        todos := Recent(answer.value);
      }
    }

    /** `toggleTodo`: returns the `completed` value sent, none when the id is
        not listed; on the server's answer replaces the todos with that id. */
    method ToggleTodo(id: Id, answer: Option<Todo>) returns (request: Option<bool>)
      modifies this
      ensures request == ToggleRequest(old(todos), id)
      ensures todos == if request.Some? && answer.Some? then Replace(old(todos), id, answer.value) else old(todos)
    {
      var todoToUpdate := Find(todos, t => HasId(id, t));
      if todoToUpdate.None? {
        return None;
      }
      request := Some(!todoToUpdate.value.completed);
      if answer.Some? {
        todos := Replace(todos, id, answer.value);
      }
    }
  }
}
