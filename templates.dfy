/** The template registry: the static tables of src/pages/customize.js (TEMPLATES and
    FIELD_DEFS) and src/pages/create.js (TEMPLATE_LABELS and SUMMARY_FIELDS), with the
    lookups the two pages make and their fallbacks for an unknown template id. */
module Templates {
  import opened Js

  /** One entry of TEMPLATES: id, display name, accent style and thumbnail path. */
  datatype TemplateInfo = TemplateInfo(id: string, name: string, accent: string, thumb: string)

  /** One input of a template's form. */
  datatype FieldDef = FieldDef(key: string, labelText: string, placeholder: string, required: bool)

  /** One row of the review summary on the create page. */
  datatype SummaryDef = SummaryDef(key: string, labelText: string)

  const TEMPLATES: seq<TemplateInfo> := [
    TemplateInfo("graduation", "Graduation", "bg-orange-600", "/templates/graduation-back.png"),
    TemplateInfo("birthday", "Birthday", "bg-orange-600", "/templates/birthday-back.png"),
    TemplateInfo("sports", "Sports", "bg-orange-600", "/templates/sports-back.png"),
    TemplateInfo("trips", "Trips / Vacations", "bg-orange-600", "/templates/trips-back.png"),
    TemplateInfo("weddings", "Weddings", "bg-orange-600", "/templates/weddings-back.png"),
    TemplateInfo("newborns", "Newborns", "bg-orange-600", "/templates/birth-back.png"),
    TemplateInfo("sportsleagues", "Sports Leagues", "bg-orange-600", "/templates/sportsleagues-back.png")
  ]

  const FIELD_DEFS: map<string, seq<FieldDef>> := map[
    "graduation" := [
      FieldDef("name", "Name on card", "e.g., Wilbert Chang", true),
      FieldDef("classOf", "Class of", "e.g., 2026", true),
      FieldDef("schoolName", "School name", "e.g., Toronto Metropolitan University", true),
      FieldDef("programName", "Program name", "e.g., Graphic Communications Management", true)
    ],
    "birthday" := [
      FieldDef("name", "Name on card", "e.g., Alex", true),
      FieldDef("description", "Description", "e.g., 21st Birthday \U{2022} Best night ever", false),
      FieldDef("date", "Date", "YYYY-MM-DD", false)
    ],
    "sports" := [
      FieldDef("name", "Name on card", "e.g., Jordan Lee", true),
      FieldDef("team", "Team", "e.g., Rams", true),
      FieldDef("number", "Number", "e.g., 11", false),
      FieldDef("stats", "Stats", "e.g., 2 goals \U{2022} 1 assist", false)
    ],
    "trips" := [
      FieldDef("location", "Trip location", "e.g., Tokyo, Japan", true),
      FieldDef("description", "Description", "e.g., Spring break trip", false),
      FieldDef("date", "Date", "YYYY-MM-DD", false)
    ],
    "weddings" := [
      FieldDef("brideGroom", "Names of bride & groom", "e.g., Sarah + Michael", true),
      FieldDef("description", "Description", "e.g., Our wedding day", false),
      FieldDef("date", "Date", "YYYY-MM-DD", false)
    ],
    "newborns" := [
      FieldDef("name", "Name on card", "e.g., Baby Noah", true),
      FieldDef("description", "Description", "e.g., Welcome to the world", false),
      FieldDef("date", "Date", "YYYY-MM-DD", false)
    ],
    "sportsleagues" := [
      FieldDef("name", "Name on card", "e.g., Wilbert Chang", true),
      FieldDef("team", "Team", "e.g., Blue Jays", true),
      FieldDef("number", "Number", "e.g., 23", false),
      FieldDef("season", "Season", "e.g., 2025\U{2013}2026", true)
    ]
  ]

  const TEMPLATE_LABELS: map<string, string> := map[
    "graduation" := "Graduation",
    "birthday" := "Birthday",
    "sports" := "Sports",
    "trips" := "Trips / Vacations",
    "weddings" := "Weddings",
    "newborns" := "Newborns",
    "sportsleagues" := "Sports Leagues"
  ]

  const SUMMARY_FIELDS: map<string, seq<SummaryDef>> := map[
    "graduation" := [SummaryDef("name", "Name"), SummaryDef("classOf", "Class of"),
                     SummaryDef("schoolName", "School"), SummaryDef("programName", "Program")],
    "birthday" := [SummaryDef("name", "Name"), SummaryDef("description", "Description"),
                   SummaryDef("date", "Date")],
    "sports" := [SummaryDef("name", "Name"), SummaryDef("team", "Team"),
                 SummaryDef("number", "Number"), SummaryDef("stats", "Stats")],
    "trips" := [SummaryDef("location", "Location"), SummaryDef("description", "Description"),
                SummaryDef("date", "Date")],
    "weddings" := [SummaryDef("brideGroom", "Bride & Groom"), SummaryDef("description", "Description"),
                   SummaryDef("date", "Date")],
    "newborns" := [SummaryDef("name", "Name"), SummaryDef("description", "Description"),
                   SummaryDef("date", "Date")],
    "sportsleagues" := [SummaryDef("name", "Name"), SummaryDef("team", "Team"),
                        SummaryDef("number", "Number"), SummaryDef("season", "Season")]
  ]

  /** The id every page falls back to when no template has been chosen. */
  const DEFAULT_TEMPLATE_ID := "graduation"

  /** `ts.find((t) => t.id === id)`, as the index of the first match. */
  function FindIndex(ts: seq<TemplateInfo>, id: string): (r: Option<nat>)
    ensures r.Some? ==> r.value < |ts| && ts[r.value].id == id
    ensures r.Some? ==> forall j :: 0 <= j < r.value ==> ts[j].id != id
    ensures r.None? <==> forall j :: 0 <= j < |ts| ==> ts[j].id != id
  {
    if ts == [] then None
    else if ts[0].id == id then Some(0)
    else match FindIndex(ts[1..], id)
         case None => None
         case Some(k) => Some(k + 1)
  }

  /** `TEMPLATES.find((t) => t.id === templateId) || TEMPLATES[0]`: the template that the
      customize page shows; an unknown id shows the first template. */
  function SelectedTemplate(templateId: string): (r: TemplateInfo)
    ensures r in TEMPLATES
    ensures (exists j :: 0 <= j < |TEMPLATES| && TEMPLATES[j].id == templateId) ==> r.id == templateId
    ensures (forall j :: 0 <= j < |TEMPLATES| ==> TEMPLATES[j].id != templateId) ==> r == TEMPLATES[0]
  {
    match FindIndex(TEMPLATES, templateId)
    case Some(k) => TEMPLATES[k]
    case None => TEMPLATES[0]
  }

  /** `FIELD_DEFS[templateId] || []`, reading the table's own entries only (an id that
      names an Object.prototype member is not modelled). */
  function FieldDefsFor(templateId: string): seq<FieldDef>
  {
    if templateId in FIELD_DEFS then FIELD_DEFS[templateId] else []
  }

  /** `TEMPLATE_LABELS[templateId] || "Template"`: the table's label, or "Template"; never
      empty. */
  function TemplateName(templateId: string): string
  {
    if templateId in TEMPLATE_LABELS && TEMPLATE_LABELS[templateId] != "" then TEMPLATE_LABELS[templateId]
    else "Template"
  }

  /** `SUMMARY_FIELDS[templateId] || []`. */
  function SummaryDefsFor(templateId: string): seq<SummaryDef>
  {
    if templateId in SUMMARY_FIELDS then SUMMARY_FIELDS[templateId] else []
  }

  /** The template fields that can carry the card's headline, in the order both pages
      try them (`fields.name || fields.location || fields.brideGroom`). */
  const PRIMARY_KEYS: seq<string> := ["name", "location", "brideGroom"]

  /** `m[k0] || m[k1] || ...`: the value of the first key whose value is not empty,
      or "" when there is none. */
  function FirstFilled(m: map<string, string>, keys: seq<string>): (r: string)
    ensures r == "" <==> forall i :: 0 <= i < |keys| ==> Get(m, keys[i]) == ""
    ensures r != "" ==> exists i :: 0 <= i < |keys| && r == Get(m, keys[i]) &&
                                    forall j :: 0 <= j < i ==> Get(m, keys[j]) == ""
  {
    if keys == [] then "" else Or(Get(m, keys[0]), FirstFilled(m, keys[1..]))
  }

  predicate IsTemplateId(id: string)
  {
    exists j :: 0 <= j < |TEMPLATES| && TEMPLATES[j].id == id
  }

  /** The four tables describe the same seven templates: FIELD_DEFS, TEMPLATE_LABELS and
      SUMMARY_FIELDS are keyed by exactly the ids of TEMPLATES, and the ids are distinct. */
  lemma TablesShareIds()
    ensures forall id :: id in FIELD_DEFS <==> IsTemplateId(id)
    ensures FIELD_DEFS.Keys == TEMPLATE_LABELS.Keys == SUMMARY_FIELDS.Keys
    ensures forall i, j :: 0 <= i < j < |TEMPLATES| ==> TEMPLATES[i].id != TEMPLATES[j].id
  {
    forall id | id in FIELD_DEFS ensures IsTemplateId(id) {
      var j := if id == "graduation" then 0 else if id == "birthday" then 1
               else if id == "sports" then 2 else if id == "trips" then 3
               else if id == "weddings" then 4 else if id == "newborns" then 5 else 6;
      assert TEMPLATES[j].id == id;
    }
  }

  /** The create page's label of each template is the customize page's display name. */
  lemma LabelsMatchNames()
    ensures forall j :: 0 <= j < |TEMPLATES| ==> TemplateName(TEMPLATES[j].id) == TEMPLATES[j].name
  {
  }

  /** The review summary lists the same keys, in the same order, as the form. */
  lemma SummaryFollowsForm(id: string)
    ensures |SummaryDefsFor(id)| == |FieldDefsFor(id)|
    ensures forall i :: 0 <= i < |SummaryDefsFor(id)| ==> SummaryDefsFor(id)[i].key == FieldDefsFor(id)[i].key
  {
  }

  /** Every template in FIELD_DEFS asks for at least one required field, and every field
      of the graduation template is required. */
  lemma EveryTemplateRequiresAField()
    ensures forall id :: id in FIELD_DEFS ==> exists i :: 0 <= i < |FIELD_DEFS[id]| && FIELD_DEFS[id][i].required
    ensures |FieldDefsFor("graduation")| == 4
    ensures forall i :: 0 <= i < |FieldDefsFor("graduation")| ==> FieldDefsFor("graduation")[i].required
  {
    assert FIELD_DEFS["graduation"][0].required;
    assert FIELD_DEFS["birthday"][0].required;
    assert FIELD_DEFS["sports"][0].required;
    assert FIELD_DEFS["trips"][0].required;
    assert FIELD_DEFS["weddings"][0].required;
    assert FIELD_DEFS["newborns"][0].required;
    assert FIELD_DEFS["sportsleagues"][0].required;
  }

  /** The first two inputs of the graduation form. */
  lemma GraduationFormStart()
    ensures |FieldDefsFor("graduation")| == 4
    ensures FieldDefsFor("graduation")[0] == FieldDef("name", "Name on card", "e.g., Wilbert Chang", true)
    ensures FieldDefsFor("graduation")[1] == FieldDef("classOf", "Class of", "e.g., 2026", true)
  {
  }

  /** On the customize page an id that is not a template's shows the first template,
      graduation, and no form fields. */
  lemma UnknownTemplateFallback(id: string)
    requires !IsTemplateId(id)
    ensures SelectedTemplate(id) == TEMPLATES[0] && SelectedTemplate(id).id == DEFAULT_TEMPLATE_ID
    ensures FieldDefsFor(id) == []
  {
    TablesShareIds();
  }

  /** On the create page an id that is not a template's has the name "Template" and no
      summary rows. */
  lemma UnknownTemplateOnCreatePage(id: string)
    requires !IsTemplateId(id)
    ensures TemplateName(id) == "Template" && SummaryDefsFor(id) == []
  {
    TablesShareIds();
  }
}
