/** What `handleSubmit` of src/pages/create.js does, as a function of the page's state,
    the collaborators' answers and the world before the call: its guards, the
    fail-fast chain of uploads (cover, each gallery photo in order, video), the fallback
    title, the single insert and the reset after success. CreatePage.HandleSubmit is
    proved to compute exactly this. */
module Publish {
  import opened Js
  import opened Files
  import opened Templates
  import opened DraftStorage
  import opened Gallery
  import opened Services

  /** The create page's state: the draft loaded on mount, the internal title, the media
      selection and the busy flag. */
  datatype PageState = PageState(
    draft: Option<DraftDoc>,
    title: string,
    cover: Option<File>,
    gallery: seq<File>,
    video: Option<File>,
    isUploading: bool)

  /** The guard that turned a submission away before the busy flag went up. */
  datatype Rejection = MediaMissing | TooManyPhotos | NotSignedIn | NoDraft

  /** What went wrong after the busy flag went up: a refused upload, of the given asset
      class, or a refused insert, each with the collaborator's message. */
  datatype Failure = UploadRefused(kind: AssetClass, message: string) | InsertRefused(message: string)

  /** How a submission ends: ignored while busy, rejected by a guard (the alert before
      setIsUploading), failed inside the upload-and-insert block (the alert of the
      catch) or created. */
  datatype Outcome =
    | Ignored
    | Rejected(reason: Rejection)
    | Failed(failure: Failure)
    | Created(card: Card)

  datatype SubmitResult = SubmitResult(outcome: Outcome, page: PageState, world: World)

  const INSERT_ERROR := "DB insert error: "
  const WATCH_ROUTE := "/watch/"

  /** The length of a slug. */
  const SLUG_LENGTH: nat := 8

  /** What tells the three upload blocks apart: the folder the file goes to and the
      prefix of the message when the storage refuses it. */
  datatype AssetClass = AssetClass(folder: string, errorPrefix: string)

  const COVER_PHOTO := AssetClass("covers/", "Cover upload error: ")
  const GALLERY_PHOTO := AssetClass("gallery/", "Gallery upload error: ")
  const VIDEO_CLIP := AssetClass("videos/", "Video upload error: ")

  datatype Asset = Asset(kind: AssetClass, file: File)

  function RejectionText(r: Rejection): string
  {
    match r
    case MediaMissing => "Please upload a cover photo and a video."
    case TooManyPhotos => "Please upload up to 5 gallery photos."
    case NotSignedIn => "You must be logged in to create a card. Go to /login first."
    case NoDraft => "No draft found. Please go to /customize first."
  }

  /** The message of the error thrown inside the upload-and-insert block. */
  function FailureText(f: Failure): string
  {
    match f
    case UploadRefused(k, m) => k.errorPrefix + m
    case InsertRefused(m) => INSERT_ERROR + m
  }

  /** What the page alerts at the end of a submission: nothing when it was ignored, the
      guard's message, `err.message || "Something went wrong."` for a failure, and the
      watch link on success. */
  function AlertText(out: Outcome): (r: Option<string>)
    ensures r.None? <==> out.Ignored?
    ensures r.Some? ==> r.value != ""
    ensures out.Failed? && out.failure.UploadRefused? ==>
      |out.failure.kind.errorPrefix| <= |r.value| && r.value[..|out.failure.kind.errorPrefix|] == out.failure.kind.errorPrefix
    ensures out.Created? ==> r == Some("Card created!\nWatch link: " + WATCH_ROUTE + out.card.slug)
  {
    match out
    case Ignored => None
    case Rejected(reason) => Some(RejectionText(reason))
    case Failed(f) =>
      var m := FailureText(f);
      assert f.UploadRefused? ==> m[..|f.kind.errorPrefix|] == f.kind.errorPrefix;
      Some(Or(m, "Something went wrong."))
    case Created(card) => Some("Card created!\nWatch link: " + WATCH_ROUTE + card.slug)
  }

  /** `draft?.templateId || "graduation"`. */
  function DraftTemplateId(draft: Option<DraftDoc>): string
  {
    if draft.Some? && draft.value.templateId.Some? && draft.value.templateId.value != ""
    then draft.value.templateId.value
    else DEFAULT_TEMPLATE_ID
  }

  /** The card's template is never empty: it is the draft's own non-empty id, and any
      other id than the default one comes from the draft. */
  lemma DraftTemplateIdRule(draft: Option<DraftDoc>)
    ensures DraftTemplateId(draft) != ""
    ensures draft.Some? && draft.value.templateId.Some? && draft.value.templateId.value != "" ==>
      DraftTemplateId(draft) == draft.value.templateId.value
    ensures DraftTemplateId(draft) != DEFAULT_TEMPLATE_ID ==> draft.Some? && draft.value.templateId == Some(DraftTemplateId(draft))
  {
  }

  /** `(draft?.cardFields && typeof draft.cardFields === "object") ? draft.cardFields : {}`. */
  function DraftFields(draft: Option<DraftDoc>): map<string, string>
  {
    if draft.Some? && draft.value.cardFields.Some? then draft.value.cardFields.value else map[]
  }

  /** The load-on-mount effect (create.js:80-88): the parsed slot becomes the draft, and a
      non-empty stored title becomes the title. An empty slot or corrupt content leaves
      the page as it was. */
  function LoadedPage(p: PageState, c: SlotContent): (r: PageState)
    ensures !c.Stored? ==> r == p
    ensures c.Stored? ==> r.draft == Some(c.doc)
    ensures r.title == (if c.Stored? && c.doc.title.Some? && c.doc.title.value != "" then c.doc.title.value else p.title)
    ensures r.cover == p.cover && r.gallery == p.gallery && r.video == p.video && r.isUploading == p.isUploading
  {
    match ParsedDraft(c)
    case None => p
    case Some(d) =>
      var t := if d.title.Some? && d.title.value != "" then d.title.value else p.title;
      p.(draft := Some(d), title := t)
  }

  /** `uuidv4().slice(0, 8)`. */
  function Slug(u: string): string
  {
    Take(u, SLUG_LENGTH)
  }

  /** A slug is the identifier's first eight characters, or all of a shorter one. */
  lemma SlugIsPrefix(u: string)
    ensures |Slug(u)| == Min(|u|, SLUG_LENGTH) && Slug(u) == u[..|Slug(u)|]
  {
  }

  /** `${folder}${uuid}.${ext}`: the storage key of an asset. */
  function StoragePath(k: AssetClass, id: string, file: File): string
  {
    k.folder + id + "." + Extension(file.name)
  }

  /** A storage key lies in its asset class's folder and keeps the file's extension,
      whatever the identifier. */
  lemma StoragePathShape(k: AssetClass, id: string, file: File)
    ensures |k.folder| <= |StoragePath(k, id, file)|
    ensures StoragePath(k, id, file)[..|k.folder|] == k.folder
    ensures Extension(StoragePath(k, id, file)) == Extension(file.name)
  {
    var ext := Extension(file.name);
    var r := StoragePath(k, id, file);
    ExtensionIsLastSegment(file.name);
    assert r[|r| - |ext|..] == ext;
    assert r[|r| - |ext| - 1] == '.';
    ExtensionUnique(r, ext);
  }

  /** The fallback title: `customFields.name || customFields.location ||
      customFields.brideGroom || `${templateName} Card``. */
  function AutoTitle(fields: map<string, string>, templateName: string): string
  {
    Or(FirstFilled(fields, PRIMARY_KEYS), templateName + " Card")
  }

  /** `title || autoTitle`: the title stored with the card is never empty; it is the
      user's title when there is one, else the first filled primary field, else the
      template's name followed by " Card". */
  function CardTitle(title: string, fields: map<string, string>, templateId: string): string
  {
    Or(title, AutoTitle(fields, TemplateName(templateId)))
  }

  /** The title rule, case by case. */
  lemma CardTitleRule(title: string, fields: map<string, string>, templateId: string)
    ensures CardTitle(title, fields, templateId) != ""
    ensures title != "" ==> CardTitle(title, fields, templateId) == title
    ensures title == "" && FirstFilled(fields, PRIMARY_KEYS) != "" ==>
      CardTitle(title, fields, templateId) == FirstFilled(fields, PRIMARY_KEYS)
    ensures title == "" && FirstFilled(fields, PRIMARY_KEYS) == "" ==>
      CardTitle(title, fields, templateId) == TemplateName(templateId) + " Card"
  {
  }

  /** The media in upload order: the cover, each gallery photo in list order, the video. */
  function Assets(p: PageState): (r: seq<Asset>)
    requires p.cover.Some? && p.video.Some?
    ensures |r| == |p.gallery| + 2
  {
    [Asset(COVER_PHOTO, p.cover.value)]
      + seq(|p.gallery|, i requires 0 <= i < |p.gallery| => Asset(GALLERY_PHOTO, p.gallery[i]))
      + [Asset(VIDEO_CLIP, p.video.value)]
  }

  /** The upload order: the cover first, then each gallery photo in list order, the
      video last. */
  lemma AssetsOrder(p: PageState)
    requires p.cover.Some? && p.video.Some?
    ensures Assets(p)[0] == Asset(COVER_PHOTO, p.cover.value)
    ensures forall i :: 0 <= i < |p.gallery| ==> Assets(p)[i + 1] == Asset(GALLERY_PHOTO, p.gallery[i])
    ensures Assets(p)[|p.gallery| + 1] == Asset(VIDEO_CLIP, p.video.value)
  {
  }

  /** How an upload chain ends: every URL in upload order, or the class of the first
      refused asset with the storage's message. */
  datatype ChainResult = Uploaded(urls: seq<string>) | Refused(kind: AssetClass, message: string)

  /** The storage key of the `i`-th upload: its asset's folder, the identifier drawn for
      it (draw number 0 is the slug's, so the `i`-th upload takes number `i + 1`) and the
      file's extension. */
  function UploadPath(o: Oracle, i: nat, a: Asset): string
  {
    StoragePath(a.kind, o.uuid(i + 1), a.file)
  }

  /** Uploads `assets[i..]` one after the other and collects their public URLs after
      `urls`; the first refused upload ends the chain with that asset class's message,
      and nothing uploaded before it is removed. */
  function UploadChain(o: Oracle, w: World, assets: seq<Asset>, i: nat, urls: seq<string>): (r: Answer<ChainResult>)
    requires i <= |assets|
    ensures r.value.Uploaded? ==> |r.value.urls| == |urls| + |assets| - i
    decreases |assets| - i
  {
    if i == |assets| then Answer(Uploaded(urls), w)
    else
      var a := assets[i];
      var path := UploadPath(o, i, a);
      var up := UploadCall(o, w, i, path, a.file);
      if up.value.Some? then Answer(Refused(a.kind, up.value.value), up.world)
      else UploadChain(o, up.world, assets, i + 1, urls + [o.publicUrl(path)])
  }

  /** The record built after the last upload (create.js:185-202). */
  function MakeCard(id: string, user: User, p: PageState, urls: seq<string>, slug: string): Card
    requires |urls| >= 2
  {
    var fields := DraftFields(p.draft);
    var templateId := DraftTemplateId(p.draft);
    Card(id, user.id, CardTitle(p.title, fields, templateId), templateId, fields,
         urls[0], urls[1..|urls| - 1], urls[|urls| - 1], slug)
  }

  /** The selection reset after a successful publish; the draft is kept. */
  function Cleared(p: PageState): PageState
  {
    p.(title := "", cover := None, gallery := [], video := None, isUploading := false)
  }

  /** `handleSubmit()`: the guards, then the authentication call, then the uploads and
      the insert. */
  function Submit(p: PageState, o: Oracle, w: World): SubmitResult
  {
    if p.isUploading then SubmitResult(Ignored, p, w)
    else if p.cover.None? || p.video.None? then SubmitResult(Rejected(MediaMissing), p, w)
    else if |p.gallery| > MAX_GALLERY then SubmitResult(Rejected(TooManyPhotos), p, w)
    else
      var auth := GetUserCall(o, w);
      if auth.value.None? then SubmitResult(Rejected(NotSignedIn), p, auth.world)
      else if p.draft.None? then SubmitResult(Rejected(NoDraft), p, auth.world)
      else UploadAndInsert(p, o, auth.value.value, auth.world)
  }

  /** The busy part of handleSubmit (create.js:130-221): draw the slug, run the upload
      chain, and either report the refused upload or go on to the insert. The busy flag
      is down again on every way out. */
  function UploadAndInsert(p: PageState, o: Oracle, user: User, w: World): SubmitResult
    requires p.cover.Some? && p.video.Some?
  {
    var slug := Slug(o.uuid(0));
    var up := UploadChain(o, w, Assets(p), 0, []);
    match up.value
    case Refused(kind, msg) => SubmitResult(Failed(UploadRefused(kind, msg)), p.(isUploading := false), up.world)
    case Uploaded(urls) => InsertCard(p, o, user, slug, urls, up.world)
  }

  /** Build the card from the uploaded URLs and insert it (create.js:185-217). Its id is
      the identifier drawn after the slug's and the one of each upload. */
  function InsertCard(p: PageState, o: Oracle, user: User, slug: string, urls: seq<string>, w: World): SubmitResult
    requires |urls| >= 2
  {
    var card := MakeCard(o.uuid(|urls| + 1), user, p, urls, slug);
    var ins := InsertCall(o, w, card);
    if ins.value.Some? then SubmitResult(Failed(InsertRefused(ins.value.value)), p.(isUploading := false), ins.world)
    else SubmitResult(Created(card), Cleared(p), ins.world)
  }

  // ----- The predicted calls -----

  /** The uploads a chain over `assets` requests when the storage accepts them all, in
      order. */
  function PlannedUploads(o: Oracle, assets: seq<Asset>): (r: seq<Call>)
    ensures |r| == |assets|
    decreases |assets|
  {
    if |assets| == 0 then []
    else
      var n := |assets| - 1;
      PlannedUploads(o, assets[..n]) + [Upload(UploadPath(o, n, assets[n]), assets[n].file)]
  }

  /** The public URLs of those uploads, in order. */
  function PlannedUrls(o: Oracle, assets: seq<Asset>): (r: seq<string>)
    ensures |r| == |assets|
    decreases |assets|
  {
    if |assets| == 0 then []
    else
      var n := |assets| - 1;
      PlannedUrls(o, assets[..n]) + [o.publicUrl(UploadPath(o, n, assets[n]))]
  }

  /** The `i`-th planned upload is the `i`-th asset under the `i`-th upload's key. */
  lemma {:induction false} PlannedUploadAt(o: Oracle, assets: seq<Asset>, i: nat)
    requires i < |assets|
    ensures PlannedUploads(o, assets)[i] == Upload(UploadPath(o, i, assets[i]), assets[i].file)
    decreases |assets|
  {
    var n := |assets| - 1;
    if i < n {
      PlannedUploadAt(o, assets[..n], i);
    }
  }

  /** The `i`-th planned URL is the public URL of the `i`-th upload's key. */
  lemma {:induction false} PlannedUrlAt(o: Oracle, assets: seq<Asset>, i: nat)
    requires i < |assets|
    ensures PlannedUrls(o, assets)[i] == o.publicUrl(UploadPath(o, i, assets[i]))
    decreases |assets|
  {
    var n := |assets| - 1;
    if i < n {
      PlannedUrlAt(o, assets[..n], i);
    }
  }

  /** Planning one asset more appends its upload and its URL. */
  lemma PlannedSnoc(o: Oracle, assets: seq<Asset>, j: nat)
    requires j < |assets|
    ensures PlannedUploads(o, assets[..j + 1]) ==
      PlannedUploads(o, assets[..j]) + [Upload(UploadPath(o, j, assets[j]), assets[j].file)]
    ensures PlannedUrls(o, assets[..j + 1]) == PlannedUrls(o, assets[..j]) + [o.publicUrl(UploadPath(o, j, assets[j]))]
  {
    assert assets[..j + 1][..j] == assets[..j];
  }

  /** The position, among the first `n` uploads, of the first one the storage refuses;
      `n` when it accepts them all. */
  function FirstFailure(o: Oracle, n: nat): (k: nat)
    ensures k <= n
    ensures forall c :: 0 <= c < k ==> o.uploadError(c).None?
    ensures k < n ==> o.uploadError(k).Some?
  {
    if n == 0 then 0
    else
      var k := FirstFailure(o, n - 1);
      if k < n - 1 || o.uploadError(n - 1).Some? then k else n
  }

  /** The world after the first `i` uploads of a chain started in `w` were accepted. */
  function AfterUploads(o: Oracle, w: World, assets: seq<Asset>, i: nat): World
    requires i <= |assets|
  {
    var done := PlannedUploads(o, assets[..i]);
    World(w.calls + done, PutAll(w.objects, done), w.cards)
  }

  /** One more accepted upload adds its call and its object. */
  lemma AfterUploadsStep(o: Oracle, w: World, assets: seq<Asset>, j: nat)
    requires j < |assets|
    ensures var wj := AfterUploads(o, w, assets, j);
      var path := UploadPath(o, j, assets[j]);
      AfterUploads(o, w, assets, j + 1) ==
        World(wj.calls + [Upload(path, assets[j].file)], wj.objects[path := assets[j].file], w.cards)
  {
    PlannedSnoc(o, assets, j);
    var pj := PlannedUploads(o, assets[..j]);
    var pi := PlannedUploads(o, assets[..j + 1]);
    assert pi[..j] == pj;
    assert w.calls + pi == (w.calls + pj) + [pi[j]];
  }

  /** While the storage accepts, a chain started in `w` has, after `i` uploads, requested
      and stored the planned uploads of the first `i` assets and collected their URLs. */
  lemma {:induction false} ChainAfter(o: Oracle, w: World, assets: seq<Asset>, i: nat)
    requires i <= FirstFailure(o, |assets|)
    ensures UploadChain(o, w, assets, 0, []) ==
      UploadChain(o, AfterUploads(o, w, assets, i), assets, i, PlannedUrls(o, assets[..i]))
    decreases i
  {
    if i == 0 {
      assert assets[..0] == [];
      assert w.calls + [] == w.calls;
    } else {
      var j := i - 1;
      ChainAfter(o, w, assets, j);
      AfterUploadsStep(o, w, assets, j);
      PlannedSnoc(o, assets, j);
      assert o.uploadError(j).None?;
    }
  }

  /** A chain in which the storage refuses the upload at position `k` ends with that
      asset's class and message, after requesting the uploads of positions `0..k` and
      storing those before `k`; it writes no row. */
  lemma {:induction false} ChainStopsAt(o: Oracle, w: World, assets: seq<Asset>)
    requires FirstFailure(o, |assets|) < |assets|
    ensures var k := FirstFailure(o, |assets|);
      UploadChain(o, w, assets, 0, []) == Answer(
        Refused(assets[k].kind, o.uploadError(k).value),
        World(w.calls + PlannedUploads(o, assets[..k + 1]), PutAll(w.objects, PlannedUploads(o, assets[..k])), w.cards))
  {
    var k := FirstFailure(o, |assets|);
    ChainAfter(o, w, assets, k);
    PlannedSnoc(o, assets, k);
    var pk := PlannedUploads(o, assets[..k]);
    assert w.calls + PlannedUploads(o, assets[..k + 1]) == (w.calls + pk) + [Upload(UploadPath(o, k, assets[k]), assets[k].file)];
  }

  /** A chain in which the storage accepts every upload requests and stores them all, in
      list order, yields their URLs in that order, and writes no row. */
  lemma {:induction false} ChainAllAccepted(o: Oracle, w: World, assets: seq<Asset>)
    requires FirstFailure(o, |assets|) == |assets|
    ensures UploadChain(o, w, assets, 0, []) == Answer(
      Uploaded(PlannedUrls(o, assets)),
      World(w.calls + PlannedUploads(o, assets), PutAll(w.objects, PlannedUploads(o, assets)), w.cards))
  {
    ChainAfter(o, w, assets, |assets|);
    assert assets[..|assets|] == assets;
  }

  // ----- Properties of handleSubmit -----

  /** The guards are passed: not busy, cover and video chosen, at most five photos,
      signed in, and a draft loaded. */
  predicate ReachesUploads(p: PageState, o: Oracle)
  {
    && !p.isUploading && p.cover.Some? && p.video.Some? && |p.gallery| <= MAX_GALLERY
    && o.auth.Some? && p.draft.Some?
  }

  /** The card a submission that passes the guards would insert: draw number 0 gives the
      slug, the next ones the storage keys in upload order, and the one after those the
      card's id. */
  function PlannedCard(p: PageState, o: Oracle): Card
    requires ReachesUploads(p, o)
  {
    var assets := Assets(p);
    MakeCard(o.uuid(|assets| + 1), o.auth.value, p, PlannedUrls(o, assets), Slug(o.uuid(0)))
  }

  /** A submission while one is running does nothing. */
  lemma BusySubmitIgnored(p: PageState, o: Oracle, w: World)
    requires p.isUploading
    ensures Submit(p, o, w) == SubmitResult(Ignored, p, w)
  {
  }

  /** A missing cover or video is reported before anything else happens: no call is
      made, not even to the authentication service, and the page is unchanged. */
  lemma MediaCheckedFirst(p: PageState, o: Oracle, w: World)
    requires !p.isUploading && (p.cover.None? || p.video.None?)
    ensures Submit(p, o, w) == SubmitResult(Rejected(MediaMissing), p, w)
  {
  }

  /** Without a signed-in user, or without a draft, the submission is rejected right after
      the one authentication call: the busy flag is never raised, nothing is uploaded and
      nothing is inserted. */
  lemma AuthAndDraftCheckedBeforeUploads(p: PageState, o: Oracle, w: World)
    requires !p.isUploading && p.cover.Some? && p.video.Some? && |p.gallery| <= MAX_GALLERY
    requires o.auth.None? || p.draft.None?
    ensures Submit(p, o, w) == SubmitResult(
      Rejected(if o.auth.None? then NotSignedIn else NoDraft), p, w.(calls := w.calls + [GetUser]))
  {
  }

  /** Past the guards, what is left of a submission is the busy part, run after the one
      authentication call. */
  lemma SubmitPassesGuards(p: PageState, o: Oracle, w: World)
    requires ReachesUploads(p, o)
    ensures Submit(p, o, w) == UploadAndInsert(p, o, o.auth.value, w.(calls := w.calls + [GetUser]))
  {
  }

  /** The busy part when an upload is refused: the uploads are requested in order up to
      the refused one, the objects accepted before it stay, no row is written, and the
      busy flag goes down with the selection kept. */
  lemma {:induction false} UploadsStopAtRefusal(p: PageState, o: Oracle, user: User, w: World)
    requires p.cover.Some? && p.video.Some?
    requires FirstFailure(o, |Assets(p)|) < |Assets(p)|
    ensures var assets := Assets(p);
      var k := FirstFailure(o, |assets|);
      UploadAndInsert(p, o, user, w) == SubmitResult(
        Failed(UploadRefused(assets[k].kind, o.uploadError(k).value)),
        p.(isUploading := false),
        World(w.calls + PlannedUploads(o, assets[..k + 1]), PutAll(w.objects, PlannedUploads(o, assets[..k])), w.cards))
  {
    ChainStopsAt(o, w, Assets(p));
  }

  /** The busy part when every upload is accepted: what is left is the insert, made after
      the uploads in order, with the URLs in upload order and the slug drawn first. */
  lemma {:induction false} UploadsAllAccepted(p: PageState, o: Oracle, user: User, w: World)
    requires p.cover.Some? && p.video.Some?
    requires FirstFailure(o, |Assets(p)|) == |Assets(p)|
    ensures var plan := PlannedUploads(o, Assets(p));
      UploadAndInsert(p, o, user, w) == InsertCard(p, o, user, Slug(o.uuid(0)), PlannedUrls(o, Assets(p)),
        World(w.calls + plan, PutAll(w.objects, plan), w.cards))
  {
    ChainAllAccepted(o, w, Assets(p));
  }

  /** A submission in which an upload is refused: after the one authentication call it
      requests the uploads in the order cover, gallery photos in list order, video, up
      to the refused one and no further; it never requests the insert. The result names
      the refused asset's class, the objects uploaded before it stay in the bucket, no
      row is written and the selection is kept. */
  lemma {:induction false} SubmitStopsAtRefusedUpload(p: PageState, o: Oracle, w: World)
    requires ReachesUploads(p, o)
    requires FirstFailure(o, |Assets(p)|) < |Assets(p)|
    ensures var r := Submit(p, o, w);
      var assets := Assets(p);
      var k := FirstFailure(o, |assets|);
      && r.outcome == Failed(UploadRefused(assets[k].kind, o.uploadError(k).value))
      && r.world.calls == w.calls + [GetUser] + PlannedUploads(o, assets[..k + 1])
      && r.world.objects == PutAll(w.objects, PlannedUploads(o, assets[..k]))
      && r.world.cards == w.cards
      && r.page == p
  {
    SubmitPassesGuards(p, o, w);
    UploadsStopAtRefusal(p, o, o.auth.value, w.(calls := w.calls + [GetUser]));
  }

  /** A submission in which every upload is accepted: after the authentication call and
      the uploads in order it requests exactly one insert, of the planned card. If the
      insert is refused the table is unchanged and the selection kept; otherwise the row
      is appended and the selection cleared. */
  lemma {:induction false} SubmitRecordsAfterUploads(p: PageState, o: Oracle, w: World)
    requires ReachesUploads(p, o)
    requires FirstFailure(o, |Assets(p)|) == |Assets(p)|
    ensures var r := Submit(p, o, w);
      var plan := PlannedUploads(o, Assets(p));
      var card := PlannedCard(p, o);
      && r.world.calls == w.calls + [GetUser] + plan + [Insert(card)]
      && r.world.objects == PutAll(w.objects, plan)
      && (o.insertError.Some? ==>
            && r.outcome == Failed(InsertRefused(o.insertError.value))
            && r.world.cards == w.cards
            && r.page == p)
      && (o.insertError.None? ==>
            && r.outcome == Created(card)
            && r.world.cards == w.cards + [card]
            && r.page == Cleared(p))
  {
    SubmitPassesGuards(p, o, w);
    UploadsAllAccepted(p, o, o.auth.value, w.(calls := w.calls + [GetUser]));
  }

  /** What a published card holds: one gallery URL per selected photo, in the same
      order, each for a key in "gallery/" ending in the photo's extension; the cover and
      video under "covers/" and "videos/"; the 8-character slug; the title rule; the
      draft's template and fields; and the signed-in user. */
  lemma {:induction false} PlannedCardContents(p: PageState, o: Oracle)
    requires ReachesUploads(p, o)
    ensures var c := PlannedCard(p, o);
      var n := |p.gallery|;
      && |c.galleryUrls| == n <= MAX_GALLERY
      && (forall i :: 0 <= i < n ==>
            c.galleryUrls[i] == o.publicUrl("gallery/" + o.uuid(i + 2) + "." + Extension(p.gallery[i].name)))
      && c.coverUrl == o.publicUrl("covers/" + o.uuid(1) + "." + Extension(p.cover.value.name))
      && c.videoUrl == o.publicUrl("videos/" + o.uuid(n + 2) + "." + Extension(p.video.value.name))
      && c.slug == Slug(o.uuid(0))
      && c.id == o.uuid(n + 3)
      && c.userId == o.auth.value.id
      && c.title == CardTitle(p.title, DraftFields(p.draft), DraftTemplateId(p.draft))
      && c.templateId == DraftTemplateId(p.draft)
      && c.customFields == DraftFields(p.draft)
  {
    var assets := Assets(p);
    var urls := PlannedUrls(o, assets);
    var c := PlannedCard(p, o);
    var n := |p.gallery|;
    AssetsOrder(p);
    assert c.galleryUrls == urls[1..n + 1];
    forall i | 0 <= i < n
      ensures c.galleryUrls[i] == o.publicUrl("gallery/" + o.uuid(i + 2) + "." + Extension(p.gallery[i].name))
    {
      PlannedUrlAt(o, assets, i + 1);
      assert c.galleryUrls[i] == urls[i + 1];
    }
    PlannedUrlAt(o, assets, 0);
    PlannedUrlAt(o, assets, n + 1);
  }

  /** Whatever happens, a submission that was not ignored leaves the page not busy, keeps
      the draft (it is never cleared), and only adds to the call log, the bucket and the
      table. */
  lemma {:induction false} SubmitOnlyAdds(p: PageState, o: Oracle, w: World)
    ensures var r := Submit(p, o, w);
      && (!p.isUploading ==> !r.page.isUploading)
      && r.page.draft == p.draft
      && w.calls <= r.world.calls
      && w.objects.Keys <= r.world.objects.Keys
      && w.cards <= r.world.cards
  {
    if ReachesUploads(p, o) {
      SubmitPassesGuards(p, o, w);
      UploadsOnlyAdd(p, o, o.auth.value, w.(calls := w.calls + [GetUser]));
    }
  }

  /** The busy part lowers the busy flag, keeps the draft and only adds to the call log,
      the bucket and the table. */
  lemma {:induction false} UploadsOnlyAdd(p: PageState, o: Oracle, user: User, w: World)
    requires p.cover.Some? && p.video.Some?
    ensures var r := UploadAndInsert(p, o, user, w);
      && !r.page.isUploading
      && r.page.draft == p.draft
      && w.calls <= r.world.calls
      && w.objects.Keys <= r.world.objects.Keys
      && w.cards <= r.world.cards
  {
    if FirstFailure(o, |Assets(p)|) < |Assets(p)| {
      RefusedUploadsOnlyAdd(p, o, user, w);
    } else {
      AcceptedUploadsOnlyAdd(p, o, user, w);
    }
  }

  /** UploadsOnlyAdd when an upload is refused. */
  lemma {:induction false} RefusedUploadsOnlyAdd(p: PageState, o: Oracle, user: User, w: World)
    requires p.cover.Some? && p.video.Some?
    requires FirstFailure(o, |Assets(p)|) < |Assets(p)|
    ensures var r := UploadAndInsert(p, o, user, w);
      !r.page.isUploading && r.page.draft == p.draft &&
      w.calls <= r.world.calls && w.objects.Keys <= r.world.objects.Keys && w.cards <= r.world.cards
  {
    UploadsStopAtRefusal(p, o, user, w);
    PutAllKeeps(w.objects, PlannedUploads(o, Assets(p)[..FirstFailure(o, |Assets(p)|)]));
  }

  /** UploadsOnlyAdd when every upload is accepted. */
  lemma {:induction false} AcceptedUploadsOnlyAdd(p: PageState, o: Oracle, user: User, w: World)
    requires p.cover.Some? && p.video.Some?
    requires FirstFailure(o, |Assets(p)|) == |Assets(p)|
    ensures var r := UploadAndInsert(p, o, user, w);
      !r.page.isUploading && r.page.draft == p.draft &&
      w.calls <= r.world.calls && w.objects.Keys <= r.world.objects.Keys && w.cards <= r.world.cards
  {
    UploadsAllAccepted(p, o, user, w);
    PutAllKeeps(w.objects, PlannedUploads(o, Assets(p)));
  }

  /** Cover and first gallery photo accepted, second gallery photo refused: the result is
      the gallery error, the last call is that refused upload (the insert is never
      requested), and the cover and first photo stay in the bucket as orphans. */
  lemma {:induction false} SecondGalleryPhotoRefused(p: PageState, o: Oracle, w: World)
    requires ReachesUploads(p, o) && |p.gallery| >= 2
    requires o.uploadError(0).None? && o.uploadError(1).None? && o.uploadError(2).Some?
    ensures var r := Submit(p, o, w);
      var coverKey := UploadPath(o, 0, Asset(COVER_PHOTO, p.cover.value));
      var firstKey := UploadPath(o, 1, Asset(GALLERY_PHOTO, p.gallery[0]));
      var secondKey := UploadPath(o, 2, Asset(GALLERY_PHOTO, p.gallery[1]));
      && r.outcome == Failed(UploadRefused(GALLERY_PHOTO, o.uploadError(2).value))
      && r.world.calls == w.calls + [GetUser, Upload(coverKey, p.cover.value),
                                     Upload(firstKey, p.gallery[0]), Upload(secondKey, p.gallery[1])]
      && r.world.objects == w.objects[coverKey := p.cover.value][firstKey := p.gallery[0]]
      && r.world.cards == w.cards
  {
    var assets := Assets(p);
    assert FirstFailure(o, |assets|) == 2;
    SubmitStopsAtRefusedUpload(p, o, w);
    AssetsOrder(p);
    FirstThreePlanned(o, assets, w.objects);
    var u0 := Upload(UploadPath(o, 0, assets[0]), assets[0].file);
    var u1 := Upload(UploadPath(o, 1, assets[1]), assets[1].file);
    var u2 := Upload(UploadPath(o, 2, assets[2]), assets[2].file);
    assert w.calls + [GetUser] + [u0, u1, u2] == w.calls + [GetUser, u0, u1, u2];
  }

  /** The first three planned uploads, and what the first two store. */
  lemma FirstThreePlanned(o: Oracle, assets: seq<Asset>, objects: map<string, File>)
    requires |assets| >= 3
    ensures var u0 := Upload(UploadPath(o, 0, assets[0]), assets[0].file);
      var u1 := Upload(UploadPath(o, 1, assets[1]), assets[1].file);
      var u2 := Upload(UploadPath(o, 2, assets[2]), assets[2].file);
      && PlannedUploads(o, assets[..3]) == [u0, u1, u2]
      && PutAll(objects, PlannedUploads(o, assets[..2])) == objects[u0.path := u0.file][u1.path := u1.file]
  {
    PlannedSnoc(o, assets, 0);
    PlannedSnoc(o, assets, 1);
    PlannedSnoc(o, assets, 2);
    assert assets[..0] == [];
    var u0 := Upload(UploadPath(o, 0, assets[0]), assets[0].file);
    var u1 := Upload(UploadPath(o, 1, assets[1]), assets[1].file);
    var p1 := PlannedUploads(o, assets[..1]);
    var p2 := PlannedUploads(o, assets[..2]);
    assert p1 == [u0] && p2 == [u0, u1];
    assert p2[..1] == p1 && p1[..0] == [];
    assert PutAll(objects, p1) == objects[u0.path := u0.file];
  }

  /** The title rule when the user or the fields supply it: a birthday card for "Alex"
      with no title is called "Alex", and a title the user typed wins over the fields. */
  lemma TitleExamples()
    ensures CardTitle("", map["name" := "Alex"], "birthday") == "Alex"
    ensures CardTitle("Our trip", map["location" := "Tokyo"], "trips") == "Our trip"
  {
    var alex := map["name" := "Alex"];
    assert Get(alex, PRIMARY_KEYS[0]) == "Alex";
  }

  /** The title rule when nothing is filled: an empty graduation draft gives
      "Graduation Card", and an unknown template gives "Template Card". */
  lemma FallbackTitleExamples()
    ensures CardTitle("", map[], DEFAULT_TEMPLATE_ID) == "Graduation Card"
    ensures CardTitle("", map["date" := "2025-06-01"], "party") == "Template Card"
  {
    assert FirstFilled(map[], PRIMARY_KEYS[3..]) == "";
    assert FirstFilled(map["date" := "2025-06-01"], PRIMARY_KEYS[3..]) == "";
    assert TemplateName(DEFAULT_TEMPLATE_ID) == "Graduation";
    assert TemplateName("party") == "Template";
  }
}
