/**
 * The values that flow through the action-item extractor: what the sentence
 * tagger hands over and the action items the extractor produces.
 */
module Items {
  import opened Wrappers

  /** The status choices of a task; the extractor only ever creates pending ones. */
  datatype Status = Pending | Completed | Cancelled

  /**
   * The dictionary the extractor builds for one action: 'description',
   * 'assignee' (possibly empty), 'deadline' (None when no deadline is found)
   * and 'status'.
   */
  datatype ActionItem = ActionItem(description: string, assignee: string, deadline: Option<string>, status: Status)

  /** A named entity of a tagged text: its label (`label_`: `PERSON`, `DATE`, ...) and its text. */
  datatype Entity = Entity(kind: string, text: string)

  /** What the spaCy pipeline returns for a text: its sentences and its entities, in order. */
  datatype Doc = Doc(sents: seq<string>, ents: seq<Entity>)

  /** The spaCy pipeline called on a text; None when the call raises. */
  type Tagger = string -> Option<Doc>
}
