/** The customize page (src/pages/customize.js): the draft being edited, its persistence
    in the "cardDraft" slot, required-field validation and the step to the create page. */
module Customize {
  import opened Js
  import opened Templates
  import opened DraftStorage

  /** The page's two pieces of state. */
  datatype Editor = Editor(templateId: string, cardFields: map<string, string>)

  /** The state a freshly mounted page starts from. */
  const INITIAL_EDITOR := Editor(DEFAULT_TEMPLATE_ID, map[])

  /** The route `handleContinue` navigates to. */
  const CREATE_ROUTE := "/create"

  /** What `handleContinue` does: alert the validation message, or navigate. */
  datatype ContinueResult = Alerted(message: string) | Navigated(route: string)

  /** The document `saveDraft(nextFields, nextTemplateId)` writes: no title member. */
  function SavedDoc(nextFields: map<string, string>, nextTemplateId: string): (d: DraftDoc)
    ensures d.title.None?
    ensures d.templateId == Some(nextTemplateId) && d.cardFields == Some(nextFields)
  {
    DraftDoc(Some(nextTemplateId), Some(nextFields), None)
  }

  /** The load-on-mount effect: a stored template id is applied only when it is a
      non-empty string and stored fields only when they are an object; an empty slot or
      corrupt content changes nothing. */
  function Loaded(e: Editor, c: SlotContent): (r: Editor)
    ensures !c.Stored? ==> r == e
    ensures c.Stored? ==> r.templateId == (match c.doc.templateId
                                           case Some(t) => if t != "" then t else e.templateId
                                           case None => e.templateId)
    ensures c.Stored? ==> r.cardFields == (match c.doc.cardFields
                                           case Some(m) => m
                                           case None => e.cardFields)
  {
    match ParsedDraft(c)
    case None => e
    case Some(d) =>
      var t := if d.templateId.Some? && d.templateId.value != "" then d.templateId.value else e.templateId;
      var f := if d.cardFields.Some? then d.cardFields.value else e.cardFields;
      Editor(t, f)
  }

  /** Saving a draft and loading it on a later mount gives back the saved state (a
      non-empty template id is restored, the fields always are), whatever the page held
      before loading. */
  lemma SaveLoadRoundTrip(before: Editor, saved: Editor)
    ensures Loaded(before, Stored(SavedDoc(saved.cardFields, saved.templateId))) ==
            if saved.templateId != "" then saved else saved.(templateId := before.templateId)
  {
  }

  /** `{ ...prev, [key]: value }`: exactly `key` is set to `value`; every other key keeps
      its value, and no key disappears. */
  function WithField(prev: map<string, string>, key: string, value: string): (r: map<string, string>)
    ensures r.Keys == prev.Keys + {key}
    ensures key in r && r[key] == value
    ensures forall k :: k in prev && k != key ==> r[k] == prev[k]
  {
    prev[key := value]
  }

  /** A field of the schema blocks progress when it is required and its value is
      missing, empty or whitespace only (`!String(cardFields[f.key] || "").trim()`,
      see TrimEmptyIffBlank). */
  predicate Missing(f: FieldDef, fields: map<string, string>)
  {
    f.required && Blank(Get(fields, f.key))
  }

  /** The message reported for a missing field. */
  function MissingMessage(f: FieldDef): string
  {
    "Please fill in: " + f.labelText
  }

  /** The position, in schema order, of the first missing field. */
  function FirstMissing(defs: seq<FieldDef>, fields: map<string, string>): (r: Option<nat>)
    ensures r.Some? ==> r.value < |defs| && Missing(defs[r.value], fields)
    ensures r.Some? ==> forall j :: 0 <= j < r.value ==> !Missing(defs[j], fields)
    ensures r.None? <==> forall j :: 0 <= j < |defs| ==> !Missing(defs[j], fields)
  {
    if defs == [] then None
    else if Missing(defs[0], fields) then Some(0)
    else match FirstMissing(defs[1..], fields)
         case None => None
         case Some(k) => Some(k + 1)
  }

  /** What `validateRequired` returns for a template and its field values: the message
      naming the first missing field of `FIELD_DEFS[templateId] || []`, or None. */
  function Validation(templateId: string, fields: map<string, string>): Option<string>
  {
    SchemaValidation(FieldDefsFor(templateId), fields)
  }

  /** The message naming the first missing field of a schema, or None. */
  function SchemaValidation(defs: seq<FieldDef>, fields: map<string, string>): Option<string>
  {
    match FirstMissing(defs, fields)
    case None => None
    case Some(i) => Some(MissingMessage(defs[i]))
  }

  /** Validation fails exactly when some required field is blank, and then names the
      first such field in schema order. */
  lemma ValidationNamesFirstMissing(defs: seq<FieldDef>, fields: map<string, string>)
    ensures SchemaValidation(defs, fields).None? <==>
        forall j :: 0 <= j < |defs| && defs[j].required ==> !Blank(Get(fields, defs[j].key))
    ensures SchemaValidation(defs, fields).Some? ==>
        exists i :: 0 <= i < |defs| && defs[i].required && Blank(Get(fields, defs[i].key)) &&
          (forall j :: 0 <= j < i ==> !Missing(defs[j], fields)) &&
          SchemaValidation(defs, fields).value == "Please fill in: " + defs[i].labelText
  {
    match FirstMissing(defs, fields)
    case None =>
    case Some(i) => assert Missing(defs[i], fields);
  }

  /** An id without a schema never blocks progress. */
  lemma UnknownTemplateAlwaysValid(templateId: string, fields: map<string, string>)
    requires !IsTemplateId(templateId)
    ensures Validation(templateId, fields).None?
  {
    UnknownTemplateFallback(templateId);
  }

  /** A graduation draft whose "Class of" holds only spaces is blocked with the message
      naming that field, even though the fields after it are filled. */
  lemma GraduationMissingClassOf(name: string, school: string, program: string)
    requires name != "" && !IsWhitespace(name[0])
    ensures Validation("graduation",
      map["name" := name, "classOf" := "  ", "schoolName" := school, "programName" := program])
      == Some("Please fill in: Class of")
  {
    var fields := map["name" := name, "classOf" := "  ", "schoolName" := school, "programName" := program];
    var defs := FieldDefsFor("graduation");
    GraduationFormStart();
    assert !Missing(defs[0], fields);
    assert Missing(defs[1], fields);
    assert FirstMissing(defs, fields) == Some(1);
    assert MissingMessage(defs[1]) == "Please fill in: Class of";
  }

  /** `fields.name || fields.location || fields.brideGroom || "Your Card Title"`: the
      headline of the live preview. */
  function PreviewTitle(fields: map<string, string>): (r: string)
    ensures r != ""
    ensures FirstFilled(fields, PRIMARY_KEYS) != "" ==> r == FirstFilled(fields, PRIMARY_KEYS)
    ensures FirstFilled(fields, PRIMARY_KEYS) == "" ==> r == "Your Card Title"
  {
    Or(FirstFilled(fields, PRIMARY_KEYS), "Your Card Title")
  }

  /** The loop of `validateRequired`: walks the schema in order and stops at the first
      required field whose value is blank. */
  method FirstMissingField(defs: seq<FieldDef>, fields: map<string, string>) returns (msg: Option<string>)
    ensures msg == SchemaValidation(defs, fields)
  {
    for i := 0 to |defs|
      invariant forall j :: 0 <= j < i ==> !Missing(defs[j], fields)
    {
      var f := defs[i];
      if f.required && Blank(Get(fields, f.key)) {
        return Some(MissingMessage(f));
      }
    }
    return None;
  }

  /** The customize page. `storage` is the shared slot; the router is represented by the
      route `HandleContinue` returns. */
  class CustomizePage {
    var templateId: string
    var cardFields: map<string, string>
    const storage: DraftSlot

    function State(): Editor
      reads this
    {
      Editor(templateId, cardFields)
    }

    /** The page always holds a non-empty template id: it starts at "graduation", a
        loaded id is applied only when non-empty, and the template picker passes ids of
        TEMPLATES. */
    predicate Valid()
      reads this
    {
      templateId != ""
    }

    /** `useState("graduation")` and `useState({})`. */
    constructor (storage: DraftSlot)
      ensures this.storage == storage
      ensures State() == INITIAL_EDITOR
      ensures Valid()
    {
      this.storage := storage;
      templateId := DEFAULT_TEMPLATE_ID;
      cardFields := map[];
    }

    /** The load-on-mount effect (customize.js:187-195). */
    method LoadDraft()
      modifies this`templateId, this`cardFields
      ensures State() == Loaded(old(State()), storage.content)
      ensures old(Valid()) ==> Valid()
    {
      var parsed := ParsedDraft(storage.content);
      if parsed.None? {
        return;
      }
      var d := parsed.value;
      if d.templateId.Some? && d.templateId.value != "" {
        templateId := d.templateId.value;
      }
      if d.cardFields.Some? {
        cardFields := d.cardFields.value;
      }
    }

    /** The template the page shows: an unknown id shows the first template. */
    function SelectedTemplateInfo(): (r: TemplateInfo)
      reads this
      ensures IsTemplateId(templateId) ==> r.id == templateId
      ensures !IsTemplateId(templateId) ==> r == TEMPLATES[0]
    {
      SelectedTemplate(templateId)
    }

    /** The inputs the page shows: none for an unknown id. */
    function FieldDefs(): (r: seq<FieldDef>)
      reads this
      ensures IsTemplateId(templateId) ==> r == FIELD_DEFS[templateId]
      ensures !IsTemplateId(templateId) ==> r == []
    {
      TablesShareIds();
      FieldDefsFor(templateId)
    }

    /** `saveDraft(nextFields, nextTemplateId)`; the call without arguments passes the
        current state. */
    method SaveDraft(nextFields: map<string, string>, nextTemplateId: string)
      modifies storage
      ensures storage.content == Stored(SavedDoc(nextFields, nextTemplateId))
    {
      storage.SetItem(SavedDoc(nextFields, nextTemplateId));
    }

    /** `setField(key, value)`: the slot is not written. */
    method SetField(key: string, value: string)
      modifies this`cardFields
      ensures cardFields == WithField(old(cardFields), key, value)
    {
      cardFields := WithField(cardFields, key, value);
    }

    /** `handleTemplateChange(newId)`: switches template, keeps every field value
        verbatim and saves both. Its one caller, the template picker, passes an id of
        TEMPLATES. */
    method HandleTemplateChange(newId: string)
      requires newId != ""
      modifies this`templateId, storage
      ensures templateId == newId && cardFields == old(cardFields) && Valid()
      ensures storage.content == Stored(SavedDoc(old(cardFields), newId))
    {
      templateId := newId;
      SaveDraft(cardFields, newId);
    }

    /** `validateRequired()`: the schema of the current template against the current
        field values. */
    method ValidateRequired() returns (msg: Option<string>)
      ensures msg == Validation(templateId, cardFields)
    {
      msg := FirstMissingField(FieldDefsFor(templateId), cardFields);
    }

    /** `handleContinue()`: on a validation message the page only alerts it; otherwise it
        saves the draft and navigates to the create page. */
    method HandleContinue() returns (r: ContinueResult)
      modifies storage
      ensures Validation(templateId, cardFields).Some? ==>
        r == Alerted(Validation(templateId, cardFields).value) && storage.content == old(storage.content)
      ensures Validation(templateId, cardFields).None? ==>
        r == Navigated(CREATE_ROUTE) && storage.content == Stored(SavedDoc(cardFields, templateId))
    {
      var msg := ValidateRequired();
      if msg.Some? {
        return Alerted(msg.value);
      }
      SaveDraft(cardFields, templateId);
      return Navigated(CREATE_ROUTE);
    }

    /** `handleReset()`: back to the initial state, and the slot is removed. */
    method HandleReset()
      modifies this`templateId, this`cardFields, storage
      ensures State() == INITIAL_EDITOR && Valid()
      ensures storage.content == Empty
    {
      templateId := DEFAULT_TEMPLATE_ID;
      cardFields := map[];
      storage.RemoveItem();
    }
  }

  /** Continuing from a page and mounting a fresh one on the same slot restores the state
      that was validated, for any template id the page can hold. */
  method ContinueThenRemount(page: CustomizePage) returns (restored: CustomizePage)
    requires page.Valid()
    modifies page.storage
    ensures restored.storage == page.storage && restored.Valid()
    ensures Validation(old(page.templateId), old(page.cardFields)).None? ==>
      restored.State() == old(page.State())
    ensures Validation(old(page.templateId), old(page.cardFields)).Some? ==>
      page.storage.content == old(page.storage.content)
  {
    var r := page.HandleContinue();
    restored := new CustomizePage(page.storage);
    restored.LoadDraft();
  }
}
