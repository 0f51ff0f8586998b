/** The create page (src/pages/create.js) as an object: the draft read on mount, the
    internal title, the media selection and the busy flag, with the handlers that change
    them. HandleSubmit runs the publish pipeline step by step and is proved to compute
    Publish.Submit. */
module CreatePage {
  import opened Js
  import opened Files
  import opened DraftStorage
  import opened Gallery
  import opened Services
  import opened Publish
  import opened Customize

  class CreatePage {
    var draft: Option<DraftDoc>
    var title: string
    var coverPhoto: Option<File>
    var galleryPhotos: seq<File>
    var video: Option<File>
    var isUploading: bool

    function State(): PageState
      reads this
    {
      PageState(draft, title, coverPhoto, galleryPhotos, video, isUploading)
    }

    /** The selection never holds more than five gallery photos. */
    predicate WithinLimit()
      reads this
    {
      |galleryPhotos| <= MAX_GALLERY
    }

    /** The initial `useState` values: no draft, an empty title, nothing selected, not
        busy. */
    constructor ()
      ensures State() == PageState(None, "", None, [], None, false)
      ensures WithinLimit()
    {
      draft := None;
      title := "";
      coverPhoto := None;
      galleryPhotos := [];
      video := None;
      isUploading := false;
    }

    /** The load-on-mount effect: read and parse the slot, keep the document as the
        draft and take its title when it has a non-empty one. */
    method LoadDraft(slot: DraftSlot)
      modifies this`draft, this`title
      ensures State() == LoadedPage(old(State()), slot.content)
    {
      var parsed := ParsedDraft(slot.content);
      if parsed.None? {
        return;
      }
      draft := parsed;
      var t := parsed.value.title;
      if t.Some? && t.value != "" {
        title := t.value;
      }
    }

    /** The title input. */
    method SetTitle(t: string)
      modifies this`title
      ensures State() == old(State()).(title := t)
    {
      title := t;
    }

    /** The cover input (`files?.[0] || null`, None for no file) and its remove button
        (None). */
    method SelectCover(f: Option<File>)
      modifies this`coverPhoto
      ensures State() == old(State()).(cover := f)
    {
      coverPhoto := f;
    }

    /** The video input and its remove button. */
    method SelectVideo(f: Option<File>)
      modifies this`video
      ensures State() == old(State()).(video := f)
    {
      video := f;
    }

    /** `addGalleryFiles(fileList)`: the new files after the old ones, cut to five. */
    method AddGalleryFiles(fileList: Option<seq<File>>)
      modifies this`galleryPhotos
      ensures State() == old(State()).(gallery := AddFiles(old(galleryPhotos), FileListItems(fileList)))
      ensures WithinLimit()
      ensures old(WithinLimit()) ==> galleryPhotos[..|old(galleryPhotos)|] == old(galleryPhotos)
    {
      var newFiles := FileListItems(fileList);
      galleryPhotos := AddFiles(galleryPhotos, newFiles);
    }

    /** `removeGalleryIndex(idx)`: the photo at `idx` goes, the others keep their order. */
    method RemoveGalleryIndex(idx: int)
      modifies this`galleryPhotos
      ensures State() == old(State()).(gallery := RemoveIndex(old(galleryPhotos), idx))
      ensures galleryPhotos == if 0 <= idx < |old(galleryPhotos)| then old(galleryPhotos)[..idx] + old(galleryPhotos)[idx + 1..]
                               else old(galleryPhotos)
      ensures old(WithinLimit()) ==> WithinLimit()
    {
      galleryPhotos := RemoveIndex(galleryPhotos, idx);
      RemoveIndexDropsOne(old(galleryPhotos), idx);
    }

    /** The "clear all" button of the gallery. */
    method ClearGallery()
      modifies this`galleryPhotos
      ensures State() == old(State()).(gallery := [])
      ensures WithinLimit()
    {
      galleryPhotos := [];
    }

    /** The three upload blocks of handleSubmit: the cover, then each gallery photo in
        list order, then the video, each under a fresh identifier and its file's
        extension; the first refused upload ends the run with its class's message. */
    method UploadMedia(o: Oracle, w: World) returns (r: Answer<ChainResult>)
      requires coverPhoto.Some? && video.Some?
      ensures r == UploadChain(o, w, Assets(State()), 0, [])
    {
      ghost var assets := Assets(State());
      AssetsOrder(State());

      var coverPath := StoragePath(COVER_PHOTO, o.uuid(1), coverPhoto.value);
      var coverUpload := UploadCall(o, w, 0, coverPath, coverPhoto.value);
      assert UploadPath(o, 0, assets[0]) == coverPath;
      if coverUpload.value.Some? {
        return Answer(Refused(COVER_PHOTO, coverUpload.value.value), coverUpload.world);
      }
      var cur := coverUpload.world;
      var coverUrl := o.publicUrl(coverPath);

      var galleryUrls: seq<string> := [];
      assert [] + [coverUrl] == [coverUrl] + galleryUrls;
      for i := 0 to |galleryPhotos|
        invariant |galleryUrls| == i
        invariant UploadChain(o, w, assets, 0, []) == UploadChain(o, cur, assets, i + 1, [coverUrl] + galleryUrls)
      {
        var file := galleryPhotos[i];
        var path := StoragePath(GALLERY_PHOTO, o.uuid(i + 2), file);
        var up := UploadCall(o, cur, i + 1, path, file);
        assert assets[i + 1] == Asset(GALLERY_PHOTO, file);
        assert UploadPath(o, i + 1, assets[i + 1]) == path;
        if up.value.Some? {
          return Answer(Refused(GALLERY_PHOTO, up.value.value), up.world);
        }
        cur := up.world;
        assert [coverUrl] + (galleryUrls + [o.publicUrl(path)]) == [coverUrl] + galleryUrls + [o.publicUrl(path)];
        galleryUrls := galleryUrls + [o.publicUrl(path)];
      }

      var n := |galleryPhotos| + 1;
      var videoPath := StoragePath(VIDEO_CLIP, o.uuid(n + 1), video.value);
      var videoUpload := UploadCall(o, cur, n, videoPath, video.value);
      assert UploadPath(o, n, assets[n]) == videoPath;
      if videoUpload.value.Some? {
        return Answer(Refused(VIDEO_CLIP, videoUpload.value.value), videoUpload.world);
      }
      var videoUrl := o.publicUrl(videoPath);
      r := Answer(Uploaded([coverUrl] + galleryUrls + [videoUrl]), videoUpload.world);
    }

    /** `handleSubmit()`: the guards, the authentication call, the busy flag, the
        uploads, the insert of the card and the reset of the selection after success.
        Whatever happens, the busy flag is down again when it returns. */
    method HandleSubmit(o: Oracle, w: World) returns (outcome: Outcome, w': World)
      modifies this
      ensures SubmitResult(outcome, State(), w') == Submit(old(State()), o, w)
    {
      if isUploading {
        return Ignored, w;
      }
      if coverPhoto.None? || video.None? {
        return Rejected(MediaMissing), w;
      }
      if |galleryPhotos| > MAX_GALLERY {
        return Rejected(TooManyPhotos), w;
      }
      var userRes := GetUserCall(o, w);
      w' := userRes.world;
      if userRes.value.None? {
        return Rejected(NotSignedIn), w';
      }
      var user := userRes.value.value;
      if draft.None? {
        return Rejected(NoDraft), w';
      }

      ghost var p := State();
      isUploading := true;
      var slug := Slug(o.uuid(0));
      var up := UploadMedia(o, w');
      assert Assets(State()) == Assets(p);
      w' := up.world;
      if up.value.Refused? {
        isUploading := false;
        return Failed(UploadRefused(up.value.kind, up.value.message)), w';
      }

      var urls := up.value.urls;
      var templateId := DraftTemplateId(draft);
      var customFields := DraftFields(draft);
      // The draw after the slug's and the uploads' gives the card's id.
      var card := Card(o.uuid(|galleryPhotos| + 3), user.id, CardTitle(title, customFields, templateId),
                       templateId, customFields, urls[0], urls[1..|urls| - 1], urls[|urls| - 1], slug);
      assert card == MakeCard(o.uuid(|urls| + 1), user, p, urls, slug);
      var insertRes := InsertCall(o, w', card);
      w' := insertRes.world;
      if insertRes.value.Some? {
        isUploading := false;
        return Failed(InsertRefused(insertRes.value.value)), w';
      }

      title := "";
      coverPhoto := None;
      galleryPhotos := [];
      video := None;
      isUploading := false;
      outcome := Created(card);
    }
  }

  /** The hand-off between the pages: a create page that mounts on a slot the customize
      page saved gets the customize page's template and fields, and keeps its own title,
      since the customize page never stores one. */
  lemma HandOffFromCustomize(p: PageState, e: Editor)
    requires e.templateId != ""
    ensures var q := LoadedPage(p, Stored(SavedDoc(e.cardFields, e.templateId)));
      && DraftTemplateId(q.draft) == e.templateId
      && DraftFields(q.draft) == e.cardFields
      && q.title == p.title
  {
  }

  /** Saving on the customize page, then mounting a create page on the same slot: the
      new page's draft carries the validated template and fields. */
  method ContinueThenCreate(custom: CustomizePage) returns (page: CreatePage)
    requires custom.Valid()
    modifies custom.storage
    ensures Validation(old(custom.templateId), old(custom.cardFields)).None? ==>
      && DraftTemplateId(page.draft) == old(custom.templateId)
      && DraftFields(page.draft) == old(custom.cardFields)
      && page.title == ""
    ensures Validation(old(custom.templateId), old(custom.cardFields)).Some? ==>
      custom.storage.content == old(custom.storage.content)
  {
    var r := custom.HandleContinue();
    page := new CreatePage();
    page.LoadDraft(custom.storage);
  }
}
