/** The client side of the todo page (`TodoList`): the status and tag
    filters and the sort that produce the displayed list, the sort toggle,
    drag-and-drop reordering, comma-separated tag input, the list of known
    tags, and the local list updates that follow the server's answers. */
module TodoList {
  import opened Base
  import opened Text

  datatype Priority = Low | Medium | High

  /** A todo as the page receives it from the server. */
  datatype Todo = Todo(id: Id, task: string, completed: bool, dueDate: Time, memo: string,
                       tags: seq<string>, priority: Priority)

  datatype StatusFilter = All | Active | Completed
  datatype SortKey = ByDueDate | ByTask | ByCompleted
  datatype SortOrder = Asc | Desc

  /** The tag select's value that turns the tag filter off. */
  const AllTagsValue := "__all__"

  // ---------------------------------------------------------------------------
  // Tags typed as text

  /** `text.split(',').map(tag => tag.trim())`. */
  function ParseTags(text: string): (tags: seq<string>)
    ensures |tags| == Count(text, ',') + 1
    ensures forall i :: 0 <= i < |tags| ==> ',' !in tags[i]
    ensures forall i :: 0 <= i < |tags| && tags[i] != [] ==>
              !IsSpace(tags[i][0]) && !IsSpace(tags[i][|tags[i]| - 1])
  {
    var pieces := Split(text, ',');
    seq(|pieces|, i requires 0 <= i < |pieces| => Trim(pieces[i]))
  }

  /** Tags typed with commas between them come back one by one, trimmed;
      an empty input gives one empty tag. */
  lemma ParseTagsJoin(tags: seq<string>)
    requires |tags| >= 1 && forall i :: 0 <= i < |tags| ==> ',' !in tags[i]
    ensures |ParseTags(Join(tags, ','))| == |tags|
    ensures forall i :: 0 <= i < |tags| ==> ParseTags(Join(tags, ','))[i] == Trim(tags[i])
  {
    SplitJoin(tags, ',');
  }

  /** The edit form starts from `todo.tags.join(', ')`; left untouched, the
      edit request carries the todo's tags trimmed, except that for a todo
      without tags it carries the single tag `""`. */
  lemma ParseTagsEditText(tags: seq<string>)
    requires forall i :: 0 <= i < |tags| ==> ',' !in tags[i]
    ensures tags == [] ==> ParseTags(JoinWith(tags, ", ")) == [""]
    ensures tags != [] ==> |ParseTags(JoinWith(tags, ", "))| == |tags|
    ensures tags != [] ==> forall i :: 0 <= i < |tags| ==> ParseTags(JoinWith(tags, ", "))[i] == Trim(tags[i])
  {
    if tags != [] {
      SplitCommaSpaceJoin(tags);
      forall i | 0 <= i < |tags| ensures ParseTags(JoinWith(tags, ", "))[i] == Trim(tags[i]) {
        ParseTagsEditPiece(tags, i);
      }
    }
  }

  lemma ParseTagsEditPiece(tags: seq<string>, i: nat)
    requires i < |tags| && forall k :: 0 <= k < |tags| ==> ',' !in tags[k]
    ensures |ParseTags(JoinWith(tags, ", "))| == |tags|
    ensures ParseTags(JoinWith(tags, ", "))[i] == Trim(tags[i])
  {
    SplitCommaSpaceJoin(tags);
    var piece := Split(JoinWith(tags, ", "), ',')[i];
    if i > 0 {
      assert piece == " " + tags[i];
      TrimSpacePrefix(tags[i]);
    }
  }

  lemma ParseTagsEmpty()
    ensures ParseTags("") == [""]
  {
  }

  // ---------------------------------------------------------------------------
  // allTags

  /** `todos.flatMap(todo => todo.tags)`. */
  function FlatTags(todos: seq<Todo>): (r: seq<string>)
    ensures forall i, tag :: 0 <= i < |todos| && tag in todos[i].tags ==> tag in r
    ensures forall tag :: tag in r ==> exists i :: 0 <= i < |todos| && tag in todos[i].tags
  {
    if todos == [] then []
    else
      var rest := FlatTags(todos[1..]);
      assert forall tag :: tag in rest ==> exists i :: 0 <= i < |todos| && tag in todos[i].tags by {
        forall tag | tag in rest ensures exists i :: 0 <= i < |todos| && tag in todos[i].tags {
          var i :| 0 <= i < |todos[1..]| && tag in todos[1..][i].tags;
          assert todos[i + 1] == todos[1..][i];
        }
      }
      forall i, tag | 0 <= i < |todos| && tag in todos[i].tags ensures tag in todos[0].tags + rest {
        if i > 0 { assert todos[i] == todos[1..][i - 1]; }
      }
      todos[0].tags + rest
  }

  /** `Array.from(new Set(todos.flatMap(todo => todo.tags)))`: every tag of
      every todo exactly once, in the order tags first appear. */
  function AllTags(todos: seq<Todo>): (r: seq<string>)
    ensures NoDuplicates(r)
    ensures forall tag :: tag in r <==> tag in FlatTags(todos)
    ensures forall tag :: tag in r <==> exists i :: 0 <= i < |todos| && tag in todos[i].tags
    ensures forall i, j :: 0 <= i < j < |r| ==> FirstIndex(FlatTags(todos), r[i]) < FirstIndex(FlatTags(todos), r[j])
  {
    Distinct(FlatTags(todos))
  }

  // ---------------------------------------------------------------------------
  // sortedAndFilteredTodos

  predicate KeepsStatus(f: StatusFilter, t: Todo) {
    match f
    case Active => !t.completed
    case Completed => t.completed
    case All => true
  }

  function StatusTest(f: StatusFilter): Todo -> bool {
    t => KeepsStatus(f, t)
  }

  /** The first `filter`: active todos, completed ones, or all, in list order. */
  function FilterByStatus(todos: seq<Todo>, f: StatusFilter): (r: seq<Todo>)
    ensures IsSubsequence(r, todos)
    ensures f == All ==> r == todos
    ensures f == Active ==> forall t :: t in r <==> t in todos && !t.completed
    ensures f == Completed ==> forall t :: t in r <==> t in todos && t.completed
    ensures forall t :: multiset(r)[t] == if KeepsStatus(f, t) then multiset(todos)[t] else 0
  {
    forall t ensures multiset(Filter(todos, StatusTest(f)))[t] == if KeepsStatus(f, t) then multiset(todos)[t] else 0 {
      FilterMultiset(todos, StatusTest(f), t);
    }
    if f == All then FilterKeepsAll(todos, StatusTest(f)); Filter(todos, StatusTest(f))
    else Filter(todos, StatusTest(f))
  }

  predicate KeepsTag(tagFilter: string, t: Todo) {
    tagFilter == AllTagsValue || tagFilter == "" || tagFilter in t.tags
  }

  /** The second `filter`: off for `"__all__"` and `""`, otherwise the todos carrying that tag. */
  function FilterByTag(todos: seq<Todo>, tagFilter: string): (r: seq<Todo>)
    ensures IsSubsequence(r, todos)
    ensures tagFilter == AllTagsValue || tagFilter == "" ==> r == todos
    ensures tagFilter != AllTagsValue && tagFilter != "" ==>
              forall t :: t in r <==> t in todos && tagFilter in t.tags
    ensures forall t :: multiset(r)[t] == if KeepsTag(tagFilter, t) then multiset(todos)[t] else 0
  {
    forall t ensures multiset(Filter(todos, t => KeepsTag(tagFilter, t)))[t]
                     == if KeepsTag(tagFilter, t) then multiset(todos)[t] else 0 {
      FilterMultiset(todos, t => KeepsTag(tagFilter, t), t);
    }
    if tagFilter == AllTagsValue || tagFilter == "" then
      FilterKeepsAll(todos, t => KeepsTag(tagFilter, t)); Filter(todos, t => KeepsTag(tagFilter, t))
    else Filter(todos, t => KeepsTag(tagFilter, t))
  }

  function BoolRank(b: bool): int {
    if b then 1 else 0
  }

  /** The comparator handed to `sort` in ascending order. */
  function KeyCompare(key: SortKey, a: Todo, b: Todo): int {
    match key
    case ByDueDate => a.dueDate - b.dueDate
    case ByTask => Compare(a.task, b.task)
    case ByCompleted => BoolRank(a.completed) - BoolRank(b.completed)
  }

  /** The comparator handed to `sort`: descending order swaps the arguments. */
  function Comparator(key: SortKey, order: SortOrder, a: Todo, b: Todo): int {
    if order == Asc then KeyCompare(key, a, b) else KeyCompare(key, b, a)
  }

  lemma ComparatorAntisymmetric(key: SortKey, order: SortOrder, a: Todo, b: Todo)
    ensures Comparator(key, order, b, a) == -Comparator(key, order, a, b)
  {
    if key == ByTask { CompareAntisymmetric(a.task, b.task); }
  }

  lemma ComparatorTransitive(key: SortKey, order: SortOrder, a: Todo, b: Todo, c: Todo)
    requires Comparator(key, order, a, b) <= 0 && Comparator(key, order, b, c) <= 0
    ensures Comparator(key, order, a, c) <= 0
  {
    if key == ByTask {
      if order == Asc { CompareTransitive(a.task, b.task, c.task); }
      else { CompareTransitive(c.task, b.task, a.task); }
    }
  }

  /** Every todo sorts no later than every todo after it. */
  ghost predicate SortedBy(xs: seq<Todo>, key: SortKey, order: SortOrder) {
    forall i, j :: 0 <= i < j < |xs| ==> Comparator(key, order, xs[i], xs[j]) <= 0
  }

  /** Sorting by due date: rising dates ascending, falling dates descending. */
  lemma SortedByDueDateMeaning(xs: seq<Todo>)
    ensures SortedBy(xs, ByDueDate, Asc) <==> forall i, j :: 0 <= i < j < |xs| ==> xs[i].dueDate <= xs[j].dueDate
    ensures SortedBy(xs, ByDueDate, Desc) <==> forall i, j :: 0 <= i < j < |xs| ==> xs[i].dueDate >= xs[j].dueDate
  {
  }

  /** Sorting by task: the string order ascending, its reverse descending. */
  lemma SortedByTaskMeaning(xs: seq<Todo>)
    ensures SortedBy(xs, ByTask, Asc) <==> forall i, j :: 0 <= i < j < |xs| ==> Compare(xs[i].task, xs[j].task) <= 0
    ensures SortedBy(xs, ByTask, Desc) <==> forall i, j :: 0 <= i < j < |xs| ==> Compare(xs[j].task, xs[i].task) <= 0
  {
  }

  /** Sorting by completion: incomplete todos first ascending, last descending. */
  lemma SortedByCompletedMeaning(xs: seq<Todo>)
    ensures SortedBy(xs, ByCompleted, Asc) <==> forall i, j :: 0 <= i < j < |xs| && xs[i].completed ==> xs[j].completed
    ensures SortedBy(xs, ByCompleted, Desc) <==> forall i, j :: 0 <= i < j < |xs| && xs[j].completed ==> xs[i].completed
  {
  }

  /** One step of insertion sort: `x` goes ahead of the first element of
      `ys` it does not sort after. */
  function Insert(x: Todo, ys: seq<Todo>, key: SortKey, order: SortOrder): seq<Todo> {
    if ys == [] then [x]
    else if Comparator(key, order, x, ys[0]) <= 0 then [x] + ys
    else [ys[0]] + Insert(x, ys[1..], key, order)
  }

  /** Inserting adds exactly one occurrence of `x`. */
  lemma {:induction false} InsertPermutes(x: Todo, ys: seq<Todo>, key: SortKey, order: SortOrder)
    ensures multiset(Insert(x, ys, key, order)) == multiset(ys) + multiset{x}
  {
    if ys != [] && Comparator(key, order, x, ys[0]) > 0 {
      InsertPermutes(x, ys[1..], key, order);
      assert ys == [ys[0]] + ys[1..];
    }
  }

  /** Inserting into a sorted list leaves it sorted. */
  lemma {:induction false} InsertSorted(x: Todo, ys: seq<Todo>, key: SortKey, order: SortOrder)
    requires SortedBy(ys, key, order)
    ensures SortedBy(Insert(x, ys, key, order), key, order)
  {
    if ys == [] {
    } else if Comparator(key, order, x, ys[0]) <= 0 {
      forall j | 0 <= j < |ys| ensures Comparator(key, order, x, ys[j]) <= 0 {
        if j > 0 { ComparatorTransitive(key, order, x, ys[0], ys[j]); }
      }
    } else {
      var rest := Insert(x, ys[1..], key, order);
      InsertSorted(x, ys[1..], key, order);
      InsertPermutes(x, ys[1..], key, order);
      ComparatorAntisymmetric(key, order, x, ys[0]);
      forall j | 0 <= j < |rest| ensures Comparator(key, order, ys[0], rest[j]) <= 0 {
        assert rest[j] in multiset(rest);
        assert rest[j] == x || rest[j] in ys[1..];
      }
    }
  }

  /** `sort` with the page's comparator. */
  function SortTodos(xs: seq<Todo>, key: SortKey, order: SortOrder): (r: seq<Todo>)
    ensures multiset(r) == multiset(xs)
    ensures SortedBy(r, key, order)
  {
    if xs == [] then []
    else
      var rest := SortTodos(xs[1..], key, order);
      InsertPermutes(xs[0], rest, key, order);
      InsertSorted(xs[0], rest, key, order);
      assert xs == [xs[0]] + xs[1..];
      Insert(xs[0], rest, key, order)
  }

  /** `sortedAndFilteredTodos`: both filters, then the sort. */
  function SortedAndFiltered(todos: seq<Todo>, f: StatusFilter, tagFilter: string,
                             key: SortKey, order: SortOrder): (r: seq<Todo>)
    ensures |r| <= |todos|
    ensures SortedBy(r, key, order)
    ensures multiset(r) == multiset(FilterByTag(FilterByStatus(todos, f), tagFilter))
    ensures forall t :: t in r <==> t in todos && KeepsStatus(f, t) && KeepsTag(tagFilter, t)
  {
    var kept := FilterByTag(FilterByStatus(todos, f), tagFilter);
    assert forall t :: t in kept <==> t in multiset(kept);
    var r := SortTodos(kept, key, order);
    assert forall t :: t in r <==> t in multiset(r);
    SubsequenceLength(FilterByStatus(todos, f), todos);
    SubsequenceLength(kept, FilterByStatus(todos, f));
    assert |r| == |multiset(r)| == |multiset(kept)| == |kept|;
    r
  }

  lemma {:induction false} SubsequenceLength(a: seq<Todo>, b: seq<Todo>)
    requires IsSubsequence(a, b)
    ensures |a| <= |b|
  {
    if a != [] && b != [] {
      if a[0] == b[0] { SubsequenceLength(a[1..], b[1..]); }
      else { SubsequenceLength(a, b[1..]); }
    }
  }

  // ---------------------------------------------------------------------------
  // toggleSort

  /** The sort key and order after clicking the button for `newKey`. */
  function ToggleSortOf(key: SortKey, order: SortOrder, newKey: SortKey): (SortKey, SortOrder) {
    if key == newKey then (key, if order == Asc then Desc else Asc) else (newKey, Asc)
  }

  /** Clicking the current key flips the order; another key is selected
      ascending; clicking the current key twice restores the state. */
  lemma ToggleSortSpec(key: SortKey, order: SortOrder, newKey: SortKey)
    ensures key == newKey ==> ToggleSortOf(key, order, newKey).0 == key
                              && ToggleSortOf(key, order, newKey).1 != order
    ensures key != newKey ==> ToggleSortOf(key, order, newKey) == (newKey, Asc)
    ensures var (k1, o1) := ToggleSortOf(key, order, key); ToggleSortOf(k1, o1, key) == (key, order)
  {
  }

  // ---------------------------------------------------------------------------
  // onDragEnd

  datatype DropResult = DropResult(source: nat, destination: Option<nat>)

  /** `b` is `a` with the element at `src` taken out and put back at `dst`. */
  ghost predicate IsMove(a: seq<Todo>, b: seq<Todo>, src: nat, dst: nat) {
    src < |a| && dst < |a| && |b| == |a| && b[dst] == a[src] && RemoveAt(b, dst) == RemoveAt(a, src)
  }

  /** A move is determined by the list and the two positions, and it keeps every element. */
  lemma MoveUnique(a: seq<Todo>, b: seq<Todo>, c: seq<Todo>, src: nat, dst: nat)
    requires IsMove(a, b, src, dst) && IsMove(a, c, src, dst)
    ensures b == c
    ensures multiset(b) == multiset(a)
  {
    InsertRemoved(b, dst);
    InsertRemoved(c, dst);
    InsertRemoved(a, src);
    var rest := RemoveAt(a, src);
    calc {
      multiset(b);
      multiset(InsertAt(rest, dst, a[src]));
      { assert InsertAt(rest, dst, a[src]) == rest[..dst] + [a[src]] + rest[dst..];
        assert rest == rest[..dst] + rest[dst..]; }
      multiset(rest) + multiset{a[src]};
      { assert rest == a[..src] + a[src + 1..];
        assert a == a[..src] + [a[src]] + a[src + 1..]; }
      multiset(a);
    }
  }

  /** The two splices of `onDragEnd` on a copy of the list. */
  method Reorder(todos: seq<Todo>, src: nat, dst: nat) returns (items: seq<Todo>)
    requires src < |todos| && dst < |todos|
    ensures IsMove(todos, items, src, dst)
    ensures multiset(items) == multiset(todos)
  {
    items := todos;
    var reorderedItem := items[src];
    items := items[..src] + items[src + 1..];
    items := items[..dst] + [reorderedItem] + items[dst..];
    assert RemoveAt(items, dst) == todos[..src] + todos[src + 1..] by {
      assert items[..dst] + items[dst + 1..] == (todos[..src] + todos[src + 1..])[..dst] + (todos[..src] + todos[src + 1..])[dst..];
    }
    MoveUnique(todos, items, items, src, dst);
  }

  /** Moving a todo that the status filter hides leaves the displayed list
      as it was, whatever the tag filter and the sort. */
  lemma MoveHiddenKeepsView(a: seq<Todo>, b: seq<Todo>, src: nat, dst: nat, f: StatusFilter,
                            tagFilter: string, key: SortKey, order: SortOrder)
    requires IsMove(a, b, src, dst) && !KeepsStatus(f, a[src])
    ensures SortedAndFiltered(b, f, tagFilter, key, order) == SortedAndFiltered(a, f, tagFilter, key, order)
  {
    FilterRemoveDropped(a, src, StatusTest(f));
    FilterRemoveDropped(b, dst, StatusTest(f));
    assert FilterByStatus(b, f) == FilterByStatus(a, f);
  }

  /** The drag positions are positions in the displayed list but are applied
      to the whole list: with completed todos hidden, dragging the first
      shown todo onto the second moves the hidden one, and the displayed
      list is the same as before whatever the tag filter and the sort. */
  lemma DragUsesUnfilteredPositions(hidden: Todo, first: Todo, second: Todo, moved: seq<Todo>,
                                    tagFilter: string, key: SortKey, order: SortOrder)
    requires hidden.completed && !first.completed && !second.completed
    requires IsMove([hidden, first, second], moved, 0, 1)
    ensures moved == [first, hidden, second]
    ensures SortedAndFiltered(moved, Active, tagFilter, key, order)
            == SortedAndFiltered([hidden, first, second], Active, tagFilter, key, order)
  {
    MoveFirstDown(hidden, first, second, moved);
    MoveHiddenKeepsView([hidden, first, second], moved, 0, 1, Active, tagFilter, key, order);
  }

  /** Moving the first of three elements to the second position swaps the first two. */
  lemma MoveFirstDown(x: Todo, y: Todo, z: Todo, moved: seq<Todo>)
    requires IsMove([x, y, z], moved, 0, 1)
    ensures moved == [y, x, z]
  {
    assert IsMove([x, y, z], [y, x, z], 0, 1) by {
      assert RemoveAt([y, x, z], 1) == [y, z] == RemoveAt([x, y, z], 0);
    }
    MoveUnique([x, y, z], moved, [y, x, z], 0, 1);
  }

  // ---------------------------------------------------------------------------
  // The page's state and handlers

  /** The body `addTask` posts. */
  datatype NewTodoRequest = NewTodoRequest(task: string, dueDate: Time, memo: string,
                                           tags: seq<string>, priority: Priority)

  /** The partial todo `handleEdit` sends to `editTask`. */
  datatype EditRequest = EditRequest(task: string, dueDate: Time, memo: string,
                                     tags: seq<string>, priority: Priority)

  /** `handleEdit`'s body: the edited fields, with the tag text split into tags. */
  function HandleEdit(task: string, dueDate: Time, memo: string, tagText: string, priority: Priority): (r: EditRequest)
    ensures r.task == task && r.dueDate == dueDate && r.memo == memo && r.priority == priority
    ensures r.tags == ParseTags(tagText)
    ensures |r.tags| == Count(tagText, ',') + 1
  {
    EditRequest(task, dueDate, memo, ParseTags(tagText), priority)
  }

  /** `items` with every todo whose id is `id` replaced by `t`. */
  function ReplaceById(items: seq<Todo>, id: Id, t: Todo): (r: seq<Todo>)
    ensures |r| == |items|
    ensures forall i :: 0 <= i < |items| ==> r[i] == if items[i].id == id then t else items[i]
  {
    ReplaceWhere(items, (x: Todo) => x.id == id, t)
  }

  /** `items` without the todos whose id is `id`, the rest in order. */
  function RemoveById(items: seq<Todo>, id: Id): (r: seq<Todo>)
    ensures IsSubsequence(r, items)
    ensures forall x :: x in r <==> x in items && x.id != id
    ensures forall x :: multiset(r)[x] == if x.id != id then multiset(items)[x] else 0
  {
    var p := (x: Todo) => x.id != id;
    forall x ensures multiset(Filter(items, p))[x] == if x.id != id then multiset(items)[x] else 0 {
      FilterMultiset(items, p, x);
    }
    Filter(items, p)
  }

  /** The `completed` value `toggleCompletion` sends: the negation of the
      first todo with the id, and `true` when there is none. */
  function ToggleRequest(todos: seq<Todo>, id: Id): (completed: bool)
    ensures completed == !(exists i :: 0 <= i < |todos| && todos[i].id == id && todos[i].completed
                                      && forall j :: 0 <= j < i ==> todos[j].id != id)
  {
    var found := Find(todos, (t: Todo) => t.id == id);
    !(found.Some? && found.value.completed)
  }

  /** The add form's fields. */
  datatype Draft = Draft(task: string, dueDate: Option<Time>, memo: string, tags: string, priority: Priority)

  /** The form after a todo was added, due `today`. */
  function ClearedDraft(today: Time): Draft {
    Draft("", Some(today), "", "", Medium)
  }

  /** `addTask`'s request: posted only when the task is not blank and a due
      date is set, with the tag text split into tags. */
  function AddRequest(d: Draft): (r: Option<NewTodoRequest>)
    ensures r.Some? <==> Trim(d.task) != "" && d.dueDate.Some?
    ensures r.Some? ==> r.value.task == d.task && Some(r.value.dueDate) == d.dueDate && r.value.memo == d.memo
                        && r.value.tags == ParseTags(d.tags) && r.value.priority == d.priority
  {
    if Trim(d.task) != "" && d.dueDate.Some? then
      Some(NewTodoRequest(d.task, d.dueDate.value, d.memo, ParseTags(d.tags), d.priority))
    else None
  }

  class TodoListState {
    var todos: seq<Todo>
    var newTask: string
    var newDueDate: Option<Time>
    var newMemo: string
    var newTags: string
    var newPriority: Priority
    var filter: StatusFilter
    var sortBy: SortKey
    var sortOrder: SortOrder
    var tagFilter: string

    /** The list on screen. */
    function View(): seq<Todo>
      reads this
    {
      SortedAndFiltered(todos, filter, tagFilter, sortBy, sortOrder)
    }

    /** The tag select's options after the built-in "All Tags". */
    function Tags(): seq<string>
      reads this
    {
      AllTags(todos)
    }

    /** The first render; `today` is the date `new Date()` gives. */
    constructor (today: Time)
      ensures todos == [] && newTask == "" && newDueDate == Some(today) && newMemo == ""
      ensures newTags == "" && newPriority == Medium
      ensures filter == All && sortBy == ByDueDate && sortOrder == Asc && tagFilter == AllTagsValue
    {
      todos := [];
      newTask := "";
      newDueDate := Some(today);
      newMemo := "";
      newTags := "";
      newPriority := Medium;
      filter := All;
      sortBy := ByDueDate;
      sortOrder := Asc;
      tagFilter := AllTagsValue;
    }

    /** `fetchTodos`: the server's list, or nothing on failure. */
    method FetchTodos(answer: Option<seq<Todo>>)
      modifies this`todos
      ensures todos == if answer.Some? then answer.value else old(todos)
    {
      if answer.Some? {
        todos := answer.value;
      }
    }

    /** The add form's fields. */
    function CurrentDraft(): Draft
      reads this
    {
      Draft(newTask, newDueDate, newMemo, newTags, newPriority)
    }

    /** `addTask`: posts the draft when `AddRequest` gives a request, and on
        the server's answer appends the created todo and clears the draft,
        with `today` as the new due date. */
    method AddTask(answer: Option<Todo>, today: Time) returns (request: Option<NewTodoRequest>)
      modifies this`todos, this`newTask, this`newDueDate, this`newMemo, this`newTags, this`newPriority
      ensures request == AddRequest(old(CurrentDraft()))
      ensures request.Some? && answer.Some? ==>
                todos == old(todos) + [answer.value] && CurrentDraft() == ClearedDraft(today)
      ensures request.None? || answer.None? ==>
                todos == old(todos) && CurrentDraft() == old(CurrentDraft())
    {
      request := AddRequest(CurrentDraft());
      if request.Some? && answer.Some? {
        todos := todos + [answer.value];
        newTask := "";
        newDueDate := Some(today);
        newMemo := "";
        newTags := "";
        newPriority := Medium;
      }
    }

    /** `toggleCompletion`: requests `completed = !todo?.completed` (true when
        no todo has the id) and, on the server's answer, puts the updated
        todo in place of every todo with that id. */
    method ToggleCompletion(id: Id, answer: Option<Todo>) returns (completedRequested: bool)
      modifies this`todos
      ensures completedRequested == ToggleRequest(old(todos), id)
      ensures todos == if answer.Some? then ReplaceById(old(todos), id, answer.value) else old(todos)
    {
      completedRequested := ToggleRequest(todos, id);
      if answer.Some? {
        todos := ReplaceById(todos, id, answer.value);
      }
    }

    /** `removeTask`: after a successful DELETE, drops the todos with that id. */
    method RemoveTask(id: Id, deleted: bool)
      modifies this`todos
      ensures todos == if deleted then RemoveById(old(todos), id) else old(todos)
    {
      if deleted {
        todos := RemoveById(todos, id);
      }
    }

    /** `editTask`: on the server's answer to the PATCH, puts the updated todo
        in place of every todo with that id. */
    method EditTask(id: Id, answer: Option<Todo>)
      modifies this`todos
      ensures todos == if answer.Some? then ReplaceById(old(todos), id, answer.value) else old(todos)
    {
      if answer.Some? {
        todos := ReplaceById(todos, id, answer.value);
      }
    }

    method SetFilter(f: StatusFilter)
      modifies this`filter
      ensures filter == f
    {
      filter := f;
    }

    method SetTagFilter(tag: string)
      modifies this`tagFilter
      ensures tagFilter == tag
    {
      tagFilter := tag;
    }

    /** `toggleSort`. */
    method ToggleSort(newSortBy: SortKey)
      modifies this`sortBy, this`sortOrder
      ensures (sortBy, sortOrder) == ToggleSortOf(old(sortBy), old(sortOrder), newSortBy)
    {
      if sortBy == newSortBy {
        sortOrder := if sortOrder == Asc then Desc else Asc;
      } else {
        sortBy := newSortBy;
        sortOrder := Asc;
      }
    }

    /** `onDragEnd`: the drag library reports positions in the displayed
        list; they are applied to the whole list. */
    method OnDragEnd(result: DropResult)
      requires result.destination.Some? ==> result.source < |View()| && result.destination.value < |View()|
      modifies this`todos
      ensures result.destination.None? ==> todos == old(todos)
      ensures result.destination.Some? ==> IsMove(old(todos), todos, result.source, result.destination.value)
    {
      if result.destination.None? {
        return;
      }
      todos := Reorder(todos, result.source, result.destination.value);
    }
  }
}
