/** The event endpoints of the server (`routes/eventRoutes.js`) over a store
    of documents keyed by id: create, partial update and delete. */
module EventRoutes {
  import opened Base
  import opened EventSchema

  /** A request body: each field absent when missing or `null`. */
  datatype EventBody = EventBody(title: Option<string>, start: Option<Time>, end: Option<Time>,
                                 description: Option<string>, color: Option<string>)

  const EmptyBody := EventBody(None, None, None, None, None)

  datatype Reply =
    | Created(id: Id, doc: EventDoc)
    | Updated(doc: EventDoc)
    | Deleted(message: string)
    | Failed(status: int)

  function Status(r: Reply): int {
    match r
    case Created(_, _) => 201
    case Updated(_) => 200
    case Deleted(_) => 200
    case Failed(s) => s
  }

  /** The document POST / builds: the five fields of the body, with the
      default colour when the body has none. */
  function CreateDoc(body: EventBody): (d: EventDoc)
    ensures d.title == body.title && d.start == body.start && d.end == body.end
    ensures d.description == body.description
    ensures d.color == body.color.GetOr(EventSchema.DefaultColor)
  {
    NewEvent(body.title, body.start, body.end, body.description, body.color)
  }

  /** PATCH /:id on a stored event: each of the five fields is replaced when
      the body has it. */
  function PatchDoc(d: EventDoc, body: EventBody): (r: EventDoc)
    ensures r.title == if body.title.Some? then body.title else d.title
    ensures r.start == if body.start.Some? then body.start else d.start
    ensures r.end == if body.end.Some? then body.end else d.end
    ensures r.description == if body.description.Some? then body.description else d.description
    ensures r.color == body.color.GetOr(d.color)
  {
    EventDoc(if body.title.Some? then body.title else d.title,
             if body.start.Some? then body.start else d.start,
             if body.end.Some? then body.end else d.end,
             if body.description.Some? then body.description else d.description,
             body.color.GetOr(d.color))
  }

  /** Applying a patch twice is applying it once, an empty body changes
      nothing, and a body with every field replaces the whole event. */
  lemma PatchSpec(d: EventDoc, body: EventBody)
    ensures PatchDoc(PatchDoc(d, body), body) == PatchDoc(d, body)
    ensures PatchDoc(d, EmptyBody) == d
    ensures body.title.Some? && body.start.Some? && body.end.Some? && body.description.Some? && body.color.Some? ==>
              PatchDoc(d, body) == CreateDoc(body)
  {
  }

  class EventStore {
    var docs: map<Id, EventDoc>

    /** Every stored event passed validation. */
    ghost predicate Valid()
      reads this
    {
      forall id :: id in docs ==> IsValid(docs[id])
    }

    constructor ()
      ensures Valid() && docs == map[]
    {
      docs := map[];
    }

    /** POST /: 201 with the new event under the fresh id the database picks,
        or 400 when validation or the write fails. */
    method Create(body: EventBody, freshId: Id, writeFails: bool) returns (reply: Reply)
      requires Valid() && freshId !in docs
      modifies this
      ensures Valid()
      ensures var d := CreateDoc(body);
              if IsValid(d) && !writeFails
              then reply == Created(freshId, d) && docs == old(docs)[freshId := d]
              else reply == Failed(400) && docs == old(docs)
    {
      var event := NewEvent(body.title, body.start, body.end, body.description, body.color);
      if !IsValid(event) || writeFails {
        return Failed(400);
      }
      docs := docs[freshId := event];
      reply := Created(freshId, event);
    }

    /** PATCH /:id: the fields present in the body are assigned one by one to
        the stored event, which is then saved; an unknown id, an event that
        no longer validates, or a failed write answer 400. */
    method Patch(id: Id, body: EventBody, writeFails: bool) returns (reply: Reply)
      requires Valid()
      modifies this
      ensures Valid()
      ensures id !in old(docs) ==> reply == Failed(400) && docs == old(docs)
      ensures id in old(docs) ==>
                var d := PatchDoc(old(docs)[id], body);
                if IsValid(d) && !writeFails
                then reply == Updated(d) && docs == old(docs)[id := d]
                else reply == Failed(400) && docs == old(docs)
    {
      if id !in docs {
        return Failed(400);
      }
      var event := docs[id];
      if body.title.Some? {
        event := event.(title := body.title);
      }
      if body.start.Some? {
        event := event.(start := body.start);
      }
      if body.end.Some? {
        event := event.(end := body.end);
      }
      if body.description.Some? {
        event := event.(description := body.description);
      }
      if body.color.Some? {
        event := event.(color := body.color.value);
      }
      if !IsValid(event) || writeFails {
        return Failed(400);
      }
      docs := docs[id := event];
      reply := Updated(event);
    }

    /** DELETE /:id: "Event deleted" whether or not the id was stored, 500
        when the database fails. */
    method Delete(id: Id, storeFails: bool) returns (reply: Reply)
      requires Valid()
      modifies this
      ensures Valid()
      ensures !storeFails ==> reply == Deleted("Event deleted") && docs == old(docs) - {id}
      ensures storeFails ==> reply == Failed(500) && docs == old(docs)
    {
      if storeFails {
        return Failed(500);
      }
      docs := docs - {id};
      reply := Deleted("Event deleted");
    }
  }
}
