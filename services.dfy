/** The collaborators the create page calls while publishing, seen from the outside:
    `supabase.auth.getUser`, `storage.from("card-media").upload` with `getPublicUrl`,
    `from("cards").insert` and `uuidv4`. Their answers are fixed in advance by an
    Oracle; what they have been asked and what they hold is a World value. */
module Services {
  import opened Js
  import opened Files

  datatype User = User(id: string)

  /** The row inserted into the "cards" table. */
  datatype Card = Card(
    id: string,
    userId: string,
    title: string,
    templateId: string,
    customFields: map<string, string>,
    coverUrl: string,
    galleryUrls: seq<string>,
    videoUrl: string,
    slug: string)

  /** A request to a collaborator. An upload sends the file with its own content type. */
  datatype Call =
    | GetUser
    | Upload(path: string, file: File)
    | Insert(card: Card)

  /** The collaborators' answers during one submission: whether a user is signed in,
      the storage's answer to the `i`-th upload (counting from 0), the table's answer to
      the insert, the identifier the `i`-th `uuidv4()` call returns (counting from 0),
      and the bucket's path-to-URL rule. */
  datatype Oracle = Oracle(
    auth: Option<User>,
    uploadError: nat -> Option<string>,
    insertError: Option<string>,
    uuid: nat -> string,
    publicUrl: string -> string)

  /** Every call made so far, the objects in the bucket by path and the rows of the
      table. Nothing here is ever deleted: there is no call that deletes. */
  datatype World = World(calls: seq<Call>, objects: map<string, File>, cards: seq<Card>)

  /** A collaborator's answer together with the world after the call. */
  datatype Answer<T> = Answer(value: T, world: World)

  /** `(await supabase.auth.getUser()).data.user`. */
  function GetUserCall(o: Oracle, w: World): Answer<Option<User>>
  {
    Answer(o.auth, w.(calls := w.calls + [GetUser]))
  }

  /** The `i`-th `upload(path, file, { contentType: file.type })`: the error message, if
      any; on success the object is stored under `path`. */
  function UploadCall(o: Oracle, w: World, i: nat, path: string, file: File): Answer<Option<string>>
  {
    var err := o.uploadError(i);
    var objects := if err.None? then w.objects[path := file] else w.objects;
    Answer(err, World(w.calls + [Upload(path, file)], objects, w.cards))
  }

  /** `from("cards").insert(card)`: the error message, if any; on success the row is
      added. */
  function InsertCall(o: Oracle, w: World, card: Card): Answer<Option<string>>
  {
    var err := o.insertError;
    var cards := if err.None? then w.cards + [card] else w.cards;
    Answer(err, World(w.calls + [Insert(card)], w.objects, cards))
  }

  /** The bucket after each upload of `uploads` succeeded, in order. */
  function PutAll(objects: map<string, File>, uploads: seq<Call>): map<string, File>
    decreases |uploads|
  {
    if |uploads| == 0 then objects
    else
      var last := uploads[|uploads| - 1];
      var before := PutAll(objects, uploads[..|uploads| - 1]);
      if last.Upload? then before[last.path := last.file] else before
  }

  /** Successful uploads only add objects: everything stored before is still stored, and
      every uploaded path is stored. */
  lemma {:induction false} PutAllKeeps(objects: map<string, File>, uploads: seq<Call>)
    ensures objects.Keys <= PutAll(objects, uploads).Keys
    ensures forall i :: 0 <= i < |uploads| && uploads[i].Upload? ==> uploads[i].path in PutAll(objects, uploads)
    decreases |uploads|
  {
    if |uploads| > 0 {
      var n := |uploads| - 1;
      PutAllKeeps(objects, uploads[..n]);
      forall i | 0 <= i < n && uploads[i].Upload?
        ensures uploads[i].path in PutAll(objects, uploads)
      {
        assert uploads[..n][i] == uploads[i];
      }
    }
  }
}
