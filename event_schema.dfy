/** The stored event (`models/Event.js`): a titled span of time with an
    optional description and a colour. */
module EventSchema {
  import opened Base

  datatype EventDoc = EventDoc(title: Option<string>, start: Option<Time>, end: Option<Time>,
                               description: Option<string>, color: string)

  const DefaultColor := "#3788d8"

  /** `new Event({title, start, end, description, color})`: the colour
      defaults when it is not given; the description has no default. */
  function NewEvent(title: Option<string>, start: Option<Time>, end: Option<Time>,
                    description: Option<string>, color: Option<string>): (d: EventDoc)
    ensures d.title == title && d.start == start && d.end == end && d.description == description
    ensures color.Some? ==> d.color == color.value
    ensures color.None? ==> d.color == DefaultColor
  {
    EventDoc(title, start, end, description, color.GetOr(DefaultColor))
  }

  /** What `save` checks: a non-empty title, a start and an end. */
  predicate IsValid(d: EventDoc) {
    d.title.Some? && d.title.value != "" && d.start.Some? && d.end.Some?
  }

  /** A document without a title, a start or an end is refused; the
      description never matters. */
  lemma RequiredFields(d: EventDoc, description: Option<string>)
    ensures d.title.None? || d.start.None? || d.end.None? ==> !IsValid(d)
    ensures IsValid(d.(description := description)) == IsValid(d)
  {
  }
}
