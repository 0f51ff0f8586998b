/** The browser's `localStorage` entry "cardDraft" through which the customize page hands
    the draft to the create page. Only this one key is modelled; JSON encoding is left
    out, so the slot holds the decoded document, or a marker for content that does not
    parse. */
module DraftStorage {
  import opened Js

  /** The draft document `{ templateId, cardFields, title }`. Each member is either
      present with the type the pages write, or absent (missing or of another type). */
  datatype DraftDoc = DraftDoc(
    templateId: Option<string>,
    cardFields: Option<map<string, string>>,
    title: Option<string>)

  /** What `localStorage.getItem("cardDraft")` finds: nothing (or ""), text that
      `JSON.parse` rejects or that parses to a falsy value, or a parsed document. */
  datatype SlotContent = Empty | Corrupt | Stored(doc: DraftDoc)

  /** The outcome of reading and parsing the slot, as both pages do on mount: an empty
      slot and corrupt content are both treated as absent. */
  function ParsedDraft(c: SlotContent): (r: Option<DraftDoc>)
    ensures r.Some? <==> c.Stored?
    ensures c.Stored? ==> r.value == c.doc
  {
    match c
    case Stored(d) => Some(d)
    case _ => None
  }

  /** The single, global draft slot. */
  class DraftSlot {
    var content: SlotContent

    constructor (initial: SlotContent)
      ensures content == initial
    {
      content := initial;
    }

    /** `localStorage.setItem("cardDraft", JSON.stringify(doc))`: overwrites the slot
        wholesale. */
    method SetItem(doc: DraftDoc)
      modifies this
      ensures content == Stored(doc)
    {
      content := Stored(doc);
    }

    /** `localStorage.removeItem("cardDraft")`. */
    method RemoveItem()
      modifies this
      ensures content == Empty
    {
      content := Empty;
    }
  }
}
