# Draft-and-publish pipeline of collectamemory

A Dafny model of the two pages through which a user makes a memory card.

- **Customize page** (src/pages/customize.js). The user picks a template and fills its form. The draft (template id and field values) lives in the browser slot "cardDraft". The required fields are checked before the user may continue.
- **Create page** (src/pages/create.js). The page reads the draft back. The user picks a cover photo, up to five gallery photos and a video. `handleSubmit` then publishes the card:
  1. the guards;
  2. the authentication call;
  3. the uploads of cover, gallery photos and video, in that order, stopping at the first refusal;
  4. the fallback title;
  5. a single insert into the "cards" table;
  6. the reset of the selection.

The modules:

- **Js**: the few JavaScript semantics the pages rely on: `||` on strings, reading a missing key, `trim`, `slice(0, n)`.
- **Files**: a picked file, and its extension `name.split(".").pop()`.
- **Templates**: the four static tables (TEMPLATES, FIELD_DEFS, TEMPLATE_LABELS, SUMMARY_FIELDS), their lookups and their fallbacks.
- **DraftStorage**: the single "cardDraft" slot, as a class.
- **Customize**: the class `CustomizePage` and the validation rule it is proved against.
- **Gallery**: the pure updaters of the gallery list.
- **Services**: the collaborators, seen from outside: authentication, the "card-media" bucket, the "cards" table and `uuidv4`.
  - An `Oracle` fixes their answers for one submission.
  - A `World` value records every call made and what the bucket and the table hold.
- **Publish**: `handleSubmit` as a function `Submit` of the page state, the oracle and the world, with lemmas about the calls it makes and the state it leaves.
- **CreatePage**: the class `CreatePage`. Its method `HandleSubmit` runs the pipeline step by step (the upload loop included) and is proved to compute `Publish.Submit`.

The collaborators' answers during one submission:

- `uploadError(i)`: the storage's answer to upload number `i`, counting from 0 (the cover).
- `insertError`: the table's answer to the insert.
- `auth`: the signed-in user, if any.
- `uuid(i)`: the `i`-th identifier drawn.
  - Draw 0 gives the slug.
  - Draw `i + 1` gives the key of upload `i`.
  - The draw after the uploads gives the card's id.

Four behaviours of the code that a reader might not expect:

- `handleSubmit` does not re-validate the required fields.
- The cover/video check comes before the authentication call.
- The draft slot is not cleared after a successful publish.
- An upload error message names the asset class ("Gallery upload error: ..."), not the photo's position.

## Model

| member | source | states |
|---|---|---|
| Js.Or | src/pages/create.js:178-190 | the JavaScript `or` of two strings is the first when it is non-empty, else the second; it is empty only when both are |
| Js.Get | src/pages/customize.js:224 | reading `fields[key] || ""`: the stored value for a present key, "" for a missing one |
| Js.Trim | src/pages/customize.js:224 | `trim`: whitespace off both ends; the meaning is stated by `Js.TrimEmptyIffBlank` |
| Js.TrimEmptyIffBlank | src/pages/customize.js:224 | a value trims to the empty string exactly when every character is whitespace |
| Js.Take | src/pages/create.js:100 | `slice(0, n)` keeps the first min(length, n) elements, as a prefix |
| Files.Extension | src/pages/create.js:134 | `name.split(".").pop()`, the text after the last dot; pinned down by `ExtensionIsLastSegment` and `ExtensionUnique` |
| Files.ExtensionIsLastSegment | src/pages/create.js:134 | the extension has no dot, ends the name, and is the whole name or follows a dot |
| Files.ExtensionUnique | src/pages/create.js:134 | any dot-free suffix that is the whole name or follows a dot is the extension |
| Files.ExtensionExamples | src/pages/create.js:134 | "clip.final.mp4" gives "mp4", "photo" gives "photo", "archive." gives "" |
| Templates.FindIndex | src/pages/customize.js:177-180 | `find` by id: the first template with that id and none before it; None exactly when no id matches |
| Templates.SelectedTemplate | src/pages/customize.js:177-180 | the shown template is one of TEMPLATES; it has the requested id when one exists, else it is TEMPLATES[0] |
| Templates.FirstFilled | src/pages/create.js:178-181 | the first non-empty value among the keys, in order; "" exactly when all are empty |
| Templates.TablesShareIds | src/pages/customize.js:4-54 | FIELD_DEFS, TEMPLATE_LABELS and SUMMARY_FIELDS are keyed by exactly the seven ids of TEMPLATES, and those ids are distinct |
| Templates.LabelsMatchNames | src/pages/create.js:6-14 | the create page's label of every template is the customize page's display name |
| Templates.SummaryFollowsForm | src/pages/create.js:16-55 | the review summary lists the form's keys in the form's order |
| Templates.EveryTemplateRequiresAField | src/pages/customize.js:15-54 | every template has a required field; all four graduation fields are required |
| Templates.GraduationFormStart | src/pages/customize.js:16-21 | the graduation form has four inputs, "name" then "classOf" |
| Templates.FieldDefsFor | src/pages/customize.js:182-184 | `FIELD_DEFS[templateId] || []`; what it gives for known and unknown ids is stated by `TablesShareIds`, `GraduationFormStart` and `UnknownTemplateFallback` |
| Templates.TemplateName | src/pages/create.js:91 | `TEMPLATE_LABELS[templateId] || "Template"`; `LabelsMatchNames` and `UnknownTemplateOnCreatePage` state its values |
| Templates.SummaryDefsFor | src/pages/create.js:94 | `SUMMARY_FIELDS[templateId] || []`; `SummaryFollowsForm` and `UnknownTemplateOnCreatePage` state its values |
| Templates.UnknownTemplateFallback | src/pages/customize.js:177-184 | an unknown id shows TEMPLATES[0] (graduation) and has no inputs |
| Templates.UnknownTemplateOnCreatePage | src/pages/create.js:91-94 | on the create page an unknown id has the name "Template" and no summary rows |
| DraftStorage.ParsedDraft | src/pages/customize.js:187-194 | an empty slot and corrupt content both read as no draft; stored content reads as its document |
| DraftStorage.DraftSlot.SetItem | src/pages/customize.js:199 | the slot then holds exactly the written document |
| DraftStorage.DraftSlot.RemoveItem | src/pages/customize.js:242 | the slot is then empty |
| Customize.SavedDoc | src/pages/customize.js:197-200 | the saved document holds the given template id and fields, and no title |
| Customize.Loaded | src/pages/customize.js:187-195 | on mount, a stored template id is applied only when non-empty and stored fields only when present; an empty or corrupt slot changes nothing |
| Customize.SaveLoadRoundTrip | src/pages/customize.js:187-200 | loading what was saved restores the saved template and fields; an empty template id leaves the page's id in place |
| Customize.WithField | src/pages/customize.js:202-207 | `setField` sets exactly `key` to `value`; every other key keeps its value and none disappears |
| Customize.Missing | src/pages/customize.js:224 | a field blocks progress when it is required and its value is missing or only whitespace |
| Customize.SchemaValidation | src/pages/customize.js:221-229 | the message of the first missing field of a schema, or None; the loop `FirstMissingField` is proved to compute it |
| Customize.Validation | src/pages/customize.js:221-229 | `validateRequired` on a template id and fields; `ValidationNamesFirstMissing` states when it fails and with which message |
| Customize.FirstMissing | src/pages/customize.js:221-229 | the position of the first required, blank field in schema order; None exactly when there is none |
| Customize.ValidationNamesFirstMissing | src/pages/customize.js:221-229 | validation fails exactly when some required field is blank, and then its message is "Please fill in: " plus the label of the first such field |
| Customize.UnknownTemplateAlwaysValid | src/pages/customize.js:222 | an id without a schema never blocks progress |
| Customize.GraduationMissingClassOf | src/pages/customize.js:221-229 | a graduation draft whose "Class of" is only spaces is blocked with "Please fill in: Class of" |
| Customize.PreviewTitle | src/pages/customize.js:78 | the preview headline is never empty: the first filled of name, location, brideGroom, else "Your Card Title" |
| Customize.FirstMissingField | src/pages/customize.js:223-228 | the loop returns the message of the first missing field, or None, as the validation rule says |
| Customize.CustomizePage.Valid | src/pages/customize.js:174 | the page's template id is never empty |
| Customize.CustomizePage.constructor | src/pages/customize.js:174-175 | a fresh page starts at "graduation" with no field values, and is valid |
| Customize.CustomizePage.LoadDraft | src/pages/customize.js:187-195 | the page state becomes `Loaded` of the old state and the slot's content; a valid page stays valid, since an empty stored id is not applied |
| Customize.CustomizePage.SelectedTemplateInfo | src/pages/customize.js:177-180 | a known id is shown as itself, an unknown one as TEMPLATES[0] |
| Customize.CustomizePage.FieldDefs | src/pages/customize.js:182-184 | a known id's schema, or no inputs for an unknown id |
| Customize.CustomizePage.SaveDraft | src/pages/customize.js:197-200 | the slot holds the document of the given fields and template id |
| Customize.CustomizePage.SetField | src/pages/customize.js:202-207 | the fields become `WithField` of the old fields |
| Customize.CustomizePage.HandleTemplateChange | src/pages/customize.js:209-219 | the template becomes `newId` (an id of TEMPLATES, non-empty); the fields are unchanged; the slot holds both; the page stays valid |
| Customize.CustomizePage.ValidateRequired | src/pages/customize.js:221-229 | returns exactly the validation message of the current template and fields |
| Customize.CustomizePage.HandleContinue | src/pages/customize.js:231-237 | on a message, alerts it and leaves the slot alone; otherwise saves the state and navigates to "/create" |
| Customize.CustomizePage.HandleReset | src/pages/customize.js:239-243 | back to "graduation" and no fields, and the slot is emptied; the page is valid |
| Customize.ContinueThenRemount | src/pages/customize.js:231-237 | after a successful continue, a fresh page mounted on the same slot has the validated state and is valid |
| Gallery.FileListItems | src/pages/create.js:97 | `Array.from(fileList || [])`: no files for a missing list, else its items in order |
| Gallery.AddFiles | src/pages/create.js:96-102 | the result is the first min(old + new, 5) of the old list followed by the new files; photos already selected keep their places |
| Gallery.RemoveIndex | src/pages/create.js:105 | `prev.filter((_, i) => i !== idx)`; its closed form is `RemoveIndexDropsOne` |
| Gallery.RemoveIndexDropsOne | src/pages/create.js:104-106 | the filter removes exactly the item at `idx` and keeps the rest in order; an index out of range removes nothing |
| Gallery.RemoveIndexLength | src/pages/create.js:104-106 | removal shortens the list by one for an index in range, and otherwise keeps its length |
| Gallery.Apply | src/pages/create.js:96-106 | one gallery event: an add, a removal by index or a clear; `ReplayWithinLimit` and `AddsKeepFirstFive` are about sequences of them |
| Gallery.ReplayWithinLimit | src/pages/create.js:96-106 | no sequence of adds, removals and clears takes the gallery past five photos |
| Gallery.AddsKeepFirstFive | src/pages/create.js:96-102 | after any number of adds, the gallery is the first five files added, in the order they were added |
| Services.GetUserCall | src/pages/create.js:118 | `supabase.auth.getUser()`: logs the call and answers the oracle's user |
| Services.UploadCall | src/pages/create.js:137-139 | an upload: logged; on success the object is stored under its key; on refusal the bucket is unchanged |
| Services.InsertCall | src/pages/create.js:185-202 | the insert: logged; on success the card is appended to the table; on refusal the table is unchanged |
| Services.PutAllKeeps | src/pages/create.js:137-139 | accepted uploads only add objects to the bucket, and every uploaded key is stored |
| Publish.AlertText | src/pages/create.js:204-215 | every submission that was not ignored alerts a non-empty message; an upload failure's message starts with its class's prefix; success alerts the watch link of the slug |
| Publish.DraftTemplateId | src/pages/create.js:90 | `draft?.templateId || "graduation"`; stated by `DraftTemplateIdRule` |
| Publish.DraftFields | src/pages/create.js:92 | the draft's fields when it has an object of them, else no fields |
| Publish.DraftTemplateIdRule | src/pages/create.js:90 | the card's template is never empty; it is the draft's id when that is non-empty, else "graduation" |
| Publish.LoadedPage | src/pages/create.js:80-88 | on mount, a stored document becomes the draft and a non-empty stored title the title; an empty or corrupt slot changes nothing; the media are untouched |
| Publish.Slug | src/pages/create.js:131 | `uuidv4().slice(0, 8)`; stated by `SlugIsPrefix` |
| Publish.SlugIsPrefix | src/pages/create.js:131 | the slug is the first eight characters of the identifier, or all of a shorter one |
| Publish.StoragePath | src/pages/create.js:134-135 | the key `<folder><uuid>.<extension>` of one asset; stated by `StoragePathShape` |
| Publish.UploadPath | src/pages/create.js:150-151 | upload `i` draws identifier `i + 1` for its key |
| Publish.StoragePathShape | src/pages/create.js:134-135 | a storage key starts with its class's folder and has the file's own extension |
| Publish.AutoTitle | src/pages/create.js:178-182 | the first filled of name, location, brideGroom, else "<template name> Card" |
| Publish.CardTitle | src/pages/create.js:190 | `title || autoTitle`; stated by `CardTitleRule` |
| Publish.CardTitleRule | src/pages/create.js:175-190 | the stored title is the user's title if non-empty, else the first filled of name/location/brideGroom, else "<template name> Card"; never empty |
| Publish.TitleExamples | src/pages/create.js:178-190 | "Alex" for a birthday card with that name and no title; a user title wins over the fields |
| Publish.FallbackTitleExamples | src/pages/create.js:178-190 | "Graduation Card" for an empty graduation draft; "Template Card" for an unknown template |
| Publish.Assets | src/pages/create.js:133-173 | one upload per selected medium: the gallery plus cover and video |
| Publish.AssetsOrder | src/pages/create.js:133-173 | the upload order is cover, then each gallery photo in list order, then video |
| Publish.UploadChain | src/pages/create.js:133-173 | a chain that finishes yields one URL per asset it uploaded |
| Publish.FirstFailure | src/pages/create.js:139-169 | the first refused upload: every upload before it is accepted |
| Publish.PlannedUploadAt | src/pages/create.js:133-173 | upload `i` of the plan sends asset `i` under its own key |
| Publish.PlannedUrlAt | src/pages/create.js:141-171 | URL `i` is the public URL of upload `i`'s key |
| Publish.ChainAfter | src/pages/create.js:133-159 | while the storage accepts, after `i` uploads the chain has requested and stored the first `i` planned uploads and collected their URLs |
| Publish.ChainStopsAt | src/pages/create.js:139-169 | at the first refusal the chain ends with that asset's class and message; it requests nothing after it and stores only what came before |
| Publish.ChainAllAccepted | src/pages/create.js:133-173 | when all are accepted, every planned upload is requested and stored, in order, and the URLs come back in that order |
| Publish.MakeCard | src/pages/create.js:185-202 | the inserted row: id, user, title rule, template, fields, cover, gallery and video URLs, slug; stated by `PlannedCardContents` |
| Publish.Cleared | src/pages/create.js:209-217 | the page after success: title, cover, gallery and video reset, not busy, draft kept |
| Publish.InsertCard | src/pages/create.js:184-217 | the insert and what follows it; stated by `SubmitRecordsAfterUploads` |
| Publish.UploadAndInsert | src/pages/create.js:128-218 | the busy part: uploads, then the insert; stated by `UploadsStopAtRefusal`, `UploadsAllAccepted` and `UploadsOnlyAdd` |
| Publish.Submit | src/pages/create.js:108-219 | `handleSubmit` as a function of page, oracle and world; its guards, calls and result are stated by the lemmas below |
| Publish.BusySubmitIgnored | src/pages/create.js:109 | a submission while busy changes nothing and makes no call |
| Publish.MediaCheckedFirst | src/pages/create.js:111-113 | a missing cover or video is rejected before any call, the authentication call included |
| Publish.AuthAndDraftCheckedBeforeUploads | src/pages/create.js:118-128 | with no user or no draft, the only call is the authentication call; the busy flag is never raised |
| Publish.SubmitPassesGuards | src/pages/create.js:109-128 | once the guards pass, what remains is the busy part, after exactly one authentication call |
| Publish.UploadsStopAtRefusal | src/pages/create.js:130-173 | in the busy part, a refused upload ends the run with its class's failure; the page keeps its selection and is no longer busy |
| Publish.UploadsAllAccepted | src/pages/create.js:130-202 | in the busy part, when every upload is accepted, what follows is the insert of the card built from the URLs in order |
| Publish.SubmitStopsAtRefusedUpload | src/pages/create.js:108-221 | a refused upload: the calls are the authentication call, then the uploads in order up to the refused one; no insert; the earlier objects stay (orphans); the selection is kept |
| Publish.SubmitRecordsAfterUploads | src/pages/create.js:183-212 | all uploads accepted: exactly one insert after them, of the planned card; a refused insert leaves the table and the selection as they were; otherwise the row is added and the selection cleared |
| Publish.PlannedCardContents | src/pages/create.js:183-200 | the card has one gallery URL per photo, in order, under "gallery/" with the photo's extension; its cover and video are under "covers/" and "videos/"; it also holds the slug, the title rule, the draft's template and fields, and the user |
| Publish.SubmitOnlyAdds | src/pages/create.js:108-221 | a submission that is not ignored leaves the page not busy; it keeps the draft; it only appends to the call log and the table and never removes a key from the bucket |
| Publish.UploadsOnlyAdd | src/pages/create.js:213-220 | the busy part lowers the busy flag on every way out and only adds to the world |
| Publish.SecondGalleryPhotoRefused | src/pages/create.js:147-159 | cover and first photo accepted, second photo refused: gallery error; the last call is the refused upload; the cover and first photo stay in the bucket |
| CreatePage.CreatePage.constructor | src/pages/create.js:67-78 | no draft, empty title, nothing selected, not busy |
| CreatePage.CreatePage.LoadDraft | src/pages/create.js:80-88 | the page state becomes `LoadedPage` of the old state and the slot's content |
| CreatePage.CreatePage.SetTitle | src/pages/create.js:291 | only the title changes |
| CreatePage.CreatePage.SelectCover | src/pages/create.js:311 | only the cover changes |
| CreatePage.CreatePage.SelectVideo | src/pages/create.js:339 | only the video changes |
| CreatePage.CreatePage.AddGalleryFiles | src/pages/create.js:96-102 | the gallery becomes `AddFiles` of the old one; it stays within five photos and keeps the earlier ones |
| CreatePage.CreatePage.RemoveGalleryIndex | src/pages/create.js:104-106 | the gallery loses exactly the photo at `idx`; the bound is kept |
| CreatePage.CreatePage.ClearGallery | src/pages/create.js:411 | the gallery becomes empty |
| CreatePage.CreatePage.UploadMedia | src/pages/create.js:133-173 | the cover, gallery loop and video blocks compute exactly `UploadChain` over the page's assets |
| CreatePage.CreatePage.HandleSubmit | src/pages/create.js:108-221 | outcome, new page state and new world are exactly `Submit` of the old state |
| CreatePage.HandOffFromCustomize | src/pages/create.js:80-91 | a slot saved by the customize page gives the create page that template and those fields; the create page's own title is kept |
| CreatePage.ContinueThenCreate | src/pages/customize.js:231-237 | after a successful continue, a fresh create page holds the validated template and fields, and no title |

## Left out

- Rendering is not modelled. This covers the JSX, the styling, CardPreview, PreviewLine and SummaryCard. The exception is the preview headline (`PreviewTitle`).
- src/pages/index.js and src/pages/login.js are not part of this model. They hold static content and thin sign-in wrappers.
- The watch page (src/pages/watch/[slug].js) is not part of this model. The model stops at the watch link in the success alert.
- JSON encoding and `localStorage` internals are abstracted away.
  - The slot holds the decoded document, or a marker for content that does not parse.
  - A member of another JSON type than the pages write counts as absent.
- `alert` and `console.error` are side effects. The model keeps them only as the outcome of a submission and its `AlertText`.
- The supabase client and `uuidv4` become the oracle. Any answers and any identifiers are allowed, so uniqueness and randomness are not modelled.
  - The public URL is the bucket's fixed function of the key.
  - The content type travels with the file in the upload call.
- Async suspension and React's batching of state updates are not modelled.
  - Each handler runs to completion on the state it starts from.
  - The busy guard is modelled as a flag read at the start of a submission. Two submissions interleaving over the network is not modelled.
- Two tabs writing the draft slot at once (last write wins) is not modelled.
- The megabyte size display of picked files (src/pages/create.js:393) uses floating point and is not modelled.
- An exception thrown by a collaborator is not modelled; only error results are.
  - A rejection of `supabase.auth.getUser()` (src/pages/create.js:118) happens before the `try`, so it would escape `handleSubmit` with no alert.
  - A rejection of an upload or of the insert would reach the `catch`, but it would alert the rejection's own message, not the class prefix ("Cover upload error: " and so on).
- Object.prototype names are not modelled as template ids. A stored draft can carry any string as its id (src/pages/customize.js:192, src/pages/create.js:90). For an id such as "constructor", "toString", "valueOf" or "__proto__", the plain-object lookups find an inherited member instead of taking the `||` fallback. `fieldDefs.map` (src/pages/customize.js:324), the `for ... of` in `validateRequired` (src/pages/customize.js:223) and `summaryDefs.map` (src/pages/create.js:264) then throw. The model reads only the tables' own entries, so the members below are weaker than the code for those ids:
- FieldDefsFor: gives no inputs for an Object.prototype name, where the code finds an inherited member.
- TemplateName: gives "Template" for an Object.prototype name, where the code finds an inherited member.
- SummaryDefsFor: gives no summary rows for an Object.prototype name, where the code finds an inherited member.
- UnknownTemplateFallback: promises no inputs also for Object.prototype names, where the code's render throws.
- UnknownTemplateOnCreatePage: promises the name "Template" and no summary rows also for Object.prototype names, where the code's render throws.
- UnknownTemplateAlwaysValid: promises that validation passes also for Object.prototype names, where `validateRequired` throws.
- FieldDefs: promises no inputs also for Object.prototype names, where the code's render throws.
