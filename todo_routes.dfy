/** The todo endpoints of the server (`routes/todoRoutes.js`) over a store
    of documents keyed by id: create, the two partial updates (the todo's
    fields and its timer) and delete. */
module TodoRoutes {
  import opened Base
  import opened TodoSchema

  /** A request body: each field absent when missing or `null`. */
  type TodoBody = Fields

  /** What a handler answers. */
  datatype Reply =
    | Created(id: Id, doc: TodoDoc)
    | Updated(doc: TodoDoc)
    | Deleted(message: string)
    | Failed(status: int)

  function Status(r: Reply): int {
    match r
    case Created(_, _) => 201
    case Updated(_) => 200
    case Deleted(_) => 200
    case Failed(s) => s
  }

  /** `v || d` on a number: an absent value and `0` both give `d`. */
  function NumberOr(v: Option<int>, d: int): (n: int)
    ensures v.Some? && v.value != 0 ==> n == v.value
    ensures v.None? || v.value == 0 ==> n == d
  {
    if v.Some? && v.value != 0 then v.value else d
  }

  /** The fields POST / passes to `new Todo`: task and due date as given,
      the timer fields with `||` defaults, and nothing else. */
  function CreateFields(body: TodoBody): Fields {
    NoFields.(task := body.task, dueDate := body.dueDate,
              workTime := Some(NumberOr(body.workTime, DefaultWorkTime)),
              breakTime := Some(NumberOr(body.breakTime, DefaultBreakTime)),
              currentTime := Some(NumberOr(body.currentTime, DefaultWorkTime)),
              isBreak := Some(body.isBreak == Some(true)))
  }

  /** The document POST / builds. */
  function CreateDoc(body: TodoBody): (d: TodoDoc)
    ensures d.task == body.task && d.dueDate == body.dueDate
    ensures d.workTime == NumberOr(body.workTime, 1500) && d.breakTime == NumberOr(body.breakTime, 300)
    ensures d.currentTime == NumberOr(body.currentTime, 1500)
    ensures d.isBreak <==> body.isBreak == Some(true)
    ensures !d.completed && d.memo == "" && d.tags == [] && d.priority == "medium" && d.pomodorosCompleted == 0
  {
    NewTodo(CreateFields(body))
  }

  /** Only the task, the due date and the four timer fields of the body
      reach the new document: memo, tags, priority, completed and
      pomodorosCompleted in the body are ignored. */
  lemma CreateIgnoresOtherFields(b1: TodoBody, b2: TodoBody)
    requires b1.task == b2.task && b1.dueDate == b2.dueDate && b1.workTime == b2.workTime
    requires b1.breakTime == b2.breakTime && b1.currentTime == b2.currentTime && b1.isBreak == b2.isBreak
    ensures CreateDoc(b1) == CreateDoc(b2)
  {
  }

  /** A zero timer value in the body is replaced by the default, like an absent one. */
  lemma CreateZeroIsDefault(body: TodoBody)
    requires body.workTime == Some(0) && body.breakTime == Some(0) && body.currentTime == Some(0)
    ensures CreateDoc(body).workTime == 1500 && CreateDoc(body).breakTime == 300
    ensures CreateDoc(body).currentTime == 1500
  {
  }

  /** PATCH /:id on a stored document: each of task, completed and due date
      is replaced when the body has it (so `false` is applied); nothing else changes. */
  function PatchDoc(d: TodoDoc, body: TodoBody): (r: TodoDoc)
    ensures r.task == if body.task.Some? then body.task else d.task
    ensures r.completed == body.completed.GetOr(d.completed)
    ensures r.dueDate == if body.dueDate.Some? then body.dueDate else d.dueDate
    ensures r.(task := d.task, completed := d.completed, dueDate := d.dueDate) == d
  {
    d.(task := if body.task.Some? then body.task else d.task,
       completed := body.completed.GetOr(d.completed),
       dueDate := if body.dueDate.Some? then body.dueDate else d.dueDate)
  }

  /** Only the task, completed and the due date of the body reach the stored
      document: memo, tags and priority sent by an edit are dropped. */
  lemma PatchIgnoresOtherFields(d: TodoDoc, b1: TodoBody, b2: TodoBody)
    requires b1.task == b2.task && b1.completed == b2.completed && b1.dueDate == b2.dueDate
    ensures PatchDoc(d, b1) == PatchDoc(d, b2)
    ensures PatchDoc(d, b1).memo == d.memo && PatchDoc(d, b1).tags == d.tags
    ensures PatchDoc(d, b1).priority == d.priority
  {
  }

  /** PATCH /:id/timer on a stored document: the same rule for the five timer fields. */
  function PatchTimerDoc(d: TodoDoc, body: TodoBody): (r: TodoDoc)
    ensures r.workTime == body.workTime.GetOr(d.workTime)
    ensures r.breakTime == body.breakTime.GetOr(d.breakTime)
    ensures r.currentTime == body.currentTime.GetOr(d.currentTime)
    ensures r.isBreak == body.isBreak.GetOr(d.isBreak)
    ensures r.pomodorosCompleted == body.pomodorosCompleted.GetOr(d.pomodorosCompleted)
    ensures r.(workTime := d.workTime, breakTime := d.breakTime, currentTime := d.currentTime,
               isBreak := d.isBreak, pomodorosCompleted := d.pomodorosCompleted) == d
  {
    d.(workTime := body.workTime.GetOr(d.workTime),
       breakTime := body.breakTime.GetOr(d.breakTime),
       currentTime := body.currentTime.GetOr(d.currentTime),
       isBreak := body.isBreak.GetOr(d.isBreak),
       pomodorosCompleted := body.pomodorosCompleted.GetOr(d.pomodorosCompleted))
  }

  /** Applying a patch twice is applying it once, and an empty body changes nothing. */
  lemma PatchIdempotent(d: TodoDoc, body: TodoBody)
    ensures PatchDoc(PatchDoc(d, body), body) == PatchDoc(d, body)
    ensures PatchTimerDoc(PatchTimerDoc(d, body), body) == PatchTimerDoc(d, body)
    ensures PatchDoc(d, NoFields) == d && PatchTimerDoc(d, NoFields) == d
  {
  }

  /** The two patches touch disjoint fields, so they commute, and a timer
      patch never makes a valid document invalid. */
  lemma PatchesCommute(d: TodoDoc, b1: TodoBody, b2: TodoBody)
    ensures PatchDoc(PatchTimerDoc(d, b2), b1) == PatchTimerDoc(PatchDoc(d, b1), b2)
    ensures IsValid(d) ==> IsValid(PatchTimerDoc(d, b2))
  {
  }

  class TodoStore {
    var docs: map<Id, TodoDoc>

    /** Every stored document passed validation. */
    ghost predicate Valid()
      reads this
    {
      forall id :: id in docs ==> IsValid(docs[id])
    }

    constructor ()
      ensures Valid() && docs == map[]
    {
      docs := map[];
    }

    /** POST /: 201 with the new document under the fresh id the database
        picks, or 400 when validation or the write fails. */
    method Create(body: TodoBody, freshId: Id, writeFails: bool) returns (reply: Reply)
      requires Valid() && freshId !in docs
      modifies this
      ensures Valid()
      ensures var d := CreateDoc(body);
              if IsValid(d) && !writeFails
              then reply == Created(freshId, d) && docs == old(docs)[freshId := d]
              else reply == Failed(400) && docs == old(docs)
    {
      var todo := NewTodo(CreateFields(body));
      if !IsValid(todo) || writeFails {
        return Failed(400);
      }
      docs := docs[freshId := todo];
      reply := Created(freshId, todo);
    }

    /** PATCH /:id: the fields of the body that are present are assigned one
        by one to the stored document, which is then saved. An unknown id,
        a document that no longer validates, or a failed write answer 400. */
    method Patch(id: Id, body: TodoBody, writeFails: bool) returns (reply: Reply)
      requires Valid()
      modifies this
      ensures Valid()
      ensures id !in old(docs) ==> reply == Failed(400) && docs == old(docs)
      ensures id in old(docs) ==>
                var d := PatchDoc(old(docs)[id], body);
                if IsValid(d) && !writeFails
                then reply == Updated(d) && docs == old(docs)[id := d]
                else reply == Failed(400) && docs == old(docs)
    {
      if id !in docs {
        return Failed(400);
      }
      var todo := docs[id];
      if body.task.Some? {
        todo := todo.(task := body.task);
      }
      if body.completed.Some? {
        todo := todo.(completed := body.completed.value);
      }
      if body.dueDate.Some? {
        todo := todo.(dueDate := body.dueDate);
      }
      if !IsValid(todo) || writeFails {
        return Failed(400);
      }
      docs := docs[id := todo];
      reply := Updated(todo);
    }

    /** PATCH /:id/timer: as PATCH /:id, for the five timer fields. */
    method PatchTimer(id: Id, body: TodoBody, writeFails: bool) returns (reply: Reply)
      requires Valid()
      modifies this
      ensures Valid()
      ensures id !in old(docs) ==> reply == Failed(400) && docs == old(docs)
      ensures id in old(docs) ==>
                var d := PatchTimerDoc(old(docs)[id], body);
                if !writeFails
                then reply == Updated(d) && docs == old(docs)[id := d]
                else reply == Failed(400) && docs == old(docs)
    {
      if id !in docs {
        return Failed(400);
      }
      var todo := docs[id];
      if body.workTime.Some? {
        todo := todo.(workTime := body.workTime.value);
      }
      if body.breakTime.Some? {
        todo := todo.(breakTime := body.breakTime.value);
      }
      if body.currentTime.Some? {
        todo := todo.(currentTime := body.currentTime.value);
      }
      if body.isBreak.Some? {
        todo := todo.(isBreak := body.isBreak.value);
      }
      if body.pomodorosCompleted.Some? {
        todo := todo.(pomodorosCompleted := body.pomodorosCompleted.value);
      }
      if !IsValid(todo) || writeFails {
        return Failed(400);
      }
      docs := docs[id := todo];
      reply := Updated(todo);
    }

    /** DELETE /:id: "Todo deleted" whether or not the id was stored, 500
        when the database fails. */
    method Delete(id: Id, storeFails: bool) returns (reply: Reply)
      requires Valid()
      modifies this
      ensures Valid()
      ensures !storeFails ==> reply == Deleted("Todo deleted") && docs == old(docs) - {id}
      ensures storeFails ==> reply == Failed(500) && docs == old(docs)
    {
      if storeFails {
        return Failed(500);
      }
      docs := docs - {id};
      reply := Deleted("Todo deleted");
    }
  }
}
