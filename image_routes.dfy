/** The image routes: listing, search, rename and upload. Each handler is a
    fixed sequence of guards that ends in a reply; rename and upload change
    the store. The decision each handler takes is stated as a function of
    its inputs (and, where it reads the store, of the documents), and the
    handler methods are proved to follow it. */
module ImageRoutes {
  import opened JsValues
  import opened ImageStore
  import opened ApiProjection

  /** The longest name (in UTF-16 code units) a rename accepts. */
  const MAX_NAME_LENGTH := 100
  /** Where uploaded files are served from; every `src` the routes create starts with it. */
  const UPLOADS_DIR := "/uploads/"

  /** What a handler sends: a bare status, an error object, or a JSON list. */
  datatype Reply =
    | Empty(code: nat)
    | Problem(code: nat, error: string, message: Option<string>)
    | ImageList(code: nat, images: seq<ApiImage>)

  // Rename replies.
  const NAME_REQUIRED := Problem(400, "Bad Request", Some("Name is required and must be a string"))
  /** The message interpolates MAX_NAME_LENGTH. */
  const NAME_TOO_LONG := Problem(422, "Unprocessable Entity", Some("Image name exceeds 100 characters"))
  const IMAGE_NOT_FOUND := Problem(404, "Not Found", Some("Image does not exist"))
  const NOT_OWNER := Problem(403, "Forbidden", Some("You can only edit images you own"))
  const RENAMED := Empty(204)

  // Upload replies.
  const NO_FILE := Problem(400, "Bad Request", Some("No image file uploaded"))
  const UPLOAD_NAME_REQUIRED := Problem(400, "Bad Request", Some("Image name is required"))
  const LOGIN_REQUIRED := Problem(401, "Unauthorized", Some("Authentication required"))
  const CREATED := Empty(201)

  // Search reply when `q` is missing (an error object without a message).
  const QUERY_REQUIRED := Problem(400, "Query parameter 'q' is required", None)

  /** The result of a guard: go on with a value, or stop with a reply. */
  datatype Verdict<T> = Proceed(value: T) | Halt(reply: Reply)

  /** The state of the store after a handler, with the reply it sent. */
  datatype Outcome = Outcome(reply: Reply, images: map<Id, ImageDoc>)

  /** Ownership, the only authorization rule: the caller is logged in and is
      the document's author. */
  predicate IsOwner(user: Option<string>, doc: ImageDoc)
    ensures IsOwner(user, doc) <==> user.Some? && user.value != "" && doc.authorId == user.value
  {
    Caller(user) == Some(doc.authorId)
  }

  /** A name the rename route lets through: a non-empty string of at most
      MAX_NAME_LENGTH UTF-16 code units. */
  predicate AcceptableName(nameField: JsValue)
    ensures AcceptableName(nameField) <==>
              RequiredString(nameField).Some? && Utf16Length(nameField.s) <= MAX_NAME_LENGTH
  {
    nameField.Str? && nameField.s != "" && Utf16Length(nameField.s) <= MAX_NAME_LENGTH
  }

  predicate IsUploadPath(src: string)
  {
    |UPLOADS_DIR| <= |src| && src[..|UPLOADS_DIR|] == UPLOADS_DIR
  }

  /** What the routes keep true of every stored document: its file lives
      under UPLOADS_DIR and it has a (non-empty) author. */
  ghost predicate CatalogInvariant(images: map<Id, ImageDoc>)
  {
    forall id :: id in images ==> IsUploadPath(images[id].src) && images[id].authorId != ""
  }

  // ---------------------------------------------------------------- list

  /** GET /api/images: every stored document, projected, in store order. */
  method ListImages(store: ImageStore) returns (reply: Reply)
    requires store.Valid()
    ensures reply.ImageList? && reply.code == 200
    ensures |reply.images| == |store.order|
    ensures forall i :: 0 <= i < |reply.images| ==>
              store.order[i] in store.images &&
              reply.images[i] == ToApiImage(StoredImage(store.order[i], store.images[store.order[i]]))
    ensures forall id :: id in store.images <==>
              exists i :: 0 <= i < |reply.images| && reply.images[i].id == id
  {
    var images := store.AllImages();
    reply := ImageList(200, Project(images));
  }

  // -------------------------------------------------------------- search

  /** GET /api/images/search: a missing or empty `q` is refused before the
      store is asked; otherwise the documents the store's search returns
      (`getImages`, whose matching is not part of this model) are projected. */
  function Search(q: JsValue, getImages: JsValue -> seq<StoredImage>): (r: Reply)
    ensures r.code == 400 <==> !QueryPresent(q)
    ensures !QueryPresent(q) ==> r == QUERY_REQUIRED
    ensures QueryPresent(q) ==>
              && r.ImageList? && r.code == 200
              && |r.images| == |getImages(q)|
              && forall i :: 0 <= i < |r.images| ==> r.images[i] == ToApiImage(getImages(q)[i])
  {
    if !QueryPresent(q) then QUERY_REQUIRED
    else ImageList(200, Project(getImages(q)))
  }

  /** The search guard never consults the store: with no query the reply is
      the same whatever the store would return. */
  lemma SearchGuardIgnoresStore(q: JsValue, f: JsValue -> seq<StoredImage>, g: JsValue -> seq<StoredImage>)
    requires !QueryPresent(q)
    ensures Search(q, f) == Search(q, g) == QUERY_REQUIRED
  {
  }

  // -------------------------------------------------------------- rename

  /** Rename steps 1-3, decided from the request alone: the name must be a
      non-empty string (400), of at most MAX_NAME_LENGTH code units (422),
      and the id must be well formed (404). `isValidId` is the id library's
      structural test. */
  function RenameValidation(nameField: JsValue, imageId: Id, isValidId: Id -> bool): (v: Verdict<string>)
    ensures RequiredString(nameField).None? ==> v == Halt(NAME_REQUIRED)
    ensures RequiredString(nameField).Some? && Utf16Length(nameField.s) > MAX_NAME_LENGTH ==>
              v == Halt(NAME_TOO_LONG)
    ensures AcceptableName(nameField) && !isValidId(imageId) ==> v == Halt(IMAGE_NOT_FOUND)
    ensures v.Proceed? <==> AcceptableName(nameField) && isValidId(imageId)
    ensures v.Proceed? ==> nameField == Str(v.value)
  {
    match RequiredString(nameField)
    case None => Halt(NAME_REQUIRED)
    case Some(name) =>
      if Utf16Length(name) > MAX_NAME_LENGTH then Halt(NAME_TOO_LONG)
      else if !isValidId(imageId) then Halt(IMAGE_NOT_FOUND)
      else Proceed(name)
  }

  /** The length limit is inclusive: a 100-unit name passes (with a well
      formed id), a 101-unit name gets 422 whatever the id. */
  lemma NameLengthBoundary(c: char, imageId: Id, isValidId: Id -> bool)
    requires InBmp(c)
    ensures isValidId(imageId) ==>
              RenameValidation(Str(seq(MAX_NAME_LENGTH, _ => c)), imageId, isValidId).Proceed?
    ensures RenameValidation(Str(seq(MAX_NAME_LENGTH + 1, _ => c)), imageId, isValidId) == Halt(NAME_TOO_LONG)
  {
  }

  /** Rename steps 4-5, given what the store returned for the id: a missing
      document is 404, a caller who is not its author is 403. */
  function OwnershipCheck(found: Option<ImageDoc>, user: Option<string>): (v: Verdict<ImageDoc>)
    ensures found.None? ==> v == Halt(IMAGE_NOT_FOUND)
    ensures found.Some? && !IsOwner(user, found.value) ==> v == Halt(NOT_OWNER)
    ensures v.Proceed? <==> found.Some? && IsOwner(user, found.value)
    ensures v.Proceed? ==> v.value == found.value
  {
    match found
    case None => Halt(IMAGE_NOT_FOUND)
    case Some(doc) => if IsOwner(user, doc) then Proceed(doc) else Halt(NOT_OWNER)
  }

  /** PUT /api/images/:imageId, as one request with no other request in
      between: the reply and the documents afterwards. */
  function RenameSpec(images: map<Id, ImageDoc>, imageId: Id, nameField: JsValue,
                      user: Option<string>, isValidId: Id -> bool): (o: Outcome)
    // the only replies
    ensures o.reply in {NAME_REQUIRED, NAME_TOO_LONG, IMAGE_NOT_FOUND, NOT_OWNER, RENAMED}
    // validation failures are decided without the documents
    ensures RenameValidation(nameField, imageId, isValidId).Halt? ==>
              o.reply == RenameValidation(nameField, imageId, isValidId).reply
    // a malformed id and a missing document look the same
    ensures AcceptableName(nameField) && (!isValidId(imageId) || imageId !in images) ==>
              o.reply == IMAGE_NOT_FOUND
    ensures (AcceptableName(nameField) && isValidId(imageId) && imageId in images &&
             !IsOwner(user, images[imageId])) ==> o.reply == NOT_OWNER
    // success exactly for the owner with a good name and a good id
    ensures o.reply == RENAMED <==>
              AcceptableName(nameField) && isValidId(imageId) && imageId in images &&
              IsOwner(user, images[imageId])
    // every refusal leaves the documents as they were
    ensures o.reply != RENAMED ==> o.images == images
    // success changes the name of that one document and nothing else
    ensures o.reply == RENAMED ==>
              o.images == images[imageId := images[imageId].(name := nameField.s)] &&
              Utf16Length(o.images[imageId].name) <= MAX_NAME_LENGTH
    ensures o.images.Keys == images.Keys
    ensures forall id :: id in images ==>
              o.images[id].src == images[id].src && o.images[id].authorId == images[id].authorId
    ensures CatalogInvariant(images) ==> CatalogInvariant(o.images)
  {
    match RenameValidation(nameField, imageId, isValidId)
    case Halt(reply) => Outcome(reply, images)
    case Proceed(name) =>
      match OwnershipCheck(if imageId in images then Some(images[imageId]) else None, user)
      case Halt(reply) => Outcome(reply, images)
      case Proceed(doc) => Outcome(RENAMED, images[imageId := doc.(name := name)])
  }

  /** Validation errors never tell whether a document exists: for two
      different stores the reply is the same, and neither store changes. */
  lemma ValidationHidesExistence(s1: map<Id, ImageDoc>, s2: map<Id, ImageDoc>, imageId: Id,
                                 nameField: JsValue, user: Option<string>, isValidId: Id -> bool)
    requires !AcceptableName(nameField) || !isValidId(imageId)
    ensures RenameSpec(s1, imageId, nameField, user, isValidId).reply ==
            RenameSpec(s2, imageId, nameField, user, isValidId).reply
    ensures RenameSpec(s1, imageId, nameField, user, isValidId).images == s1
    ensures RenameSpec(s2, imageId, nameField, user, isValidId).images == s2
  {
  }

  /** Renaming twice to the same name is renaming once. */
  lemma RenameIdempotent(images: map<Id, ImageDoc>, imageId: Id, nameField: JsValue,
                         user: Option<string>, isValidId: Id -> bool)
    ensures var once := RenameSpec(images, imageId, nameField, user, isValidId);
            var twice := RenameSpec(once.images, imageId, nameField, user, isValidId);
            twice == once
  {
  }

  /** Rename steps 6-7, after the ownership check. The store is asked to
      update the name and reports how many documents matched; none (the
      document went away after it was read) is 404, so 204 is sent only when
      a document was updated. */
  method CommitRename(store: ImageStore, imageId: Id, newName: string) returns (reply: Reply)
    requires store.Valid()
    modifies store
    ensures store.Valid() && store.order == old(store.order)
    ensures reply == RENAMED || reply == IMAGE_NOT_FOUND
    ensures reply == RENAMED <==> imageId in old(store.images)
    ensures reply == RENAMED ==>
              store.images == old(store.images)[imageId := old(store.images)[imageId].(name := newName)]
    ensures reply == IMAGE_NOT_FOUND ==> store.images == old(store.images)
  {
    var matched := store.UpdateImageName(imageId, newName);
    if matched == 0 {
      return IMAGE_NOT_FOUND;
    }
    reply := RENAMED;
  }

  /** PUT /api/images/:imageId. The request is validated before the store is
      touched; then the document is read once, the caller's ownership is
      checked, and the name is updated. */
  method Rename(store: ImageStore, imageId: Id, nameField: JsValue, user: Option<string>,
                isValidId: Id -> bool) returns (reply: Reply)
    requires store.Valid()
    modifies store
    ensures store.Valid() && store.order == old(store.order)
    ensures Outcome(reply, store.images) ==
            RenameSpec(old(store.images), imageId, nameField, user, isValidId)
  {
    var checked := RenameValidation(nameField, imageId, isValidId);
    if checked.Halt? {
      return checked.reply;
    }
    var found := store.GetImageById(imageId);
    var owned := OwnershipCheck(found, user);
    if owned.Halt? {
      return owned.reply;
    }
    reply := CommitRename(store, imageId, checked.value);
  }

  // -------------------------------------------------------------- upload

  /** POST /api/images, the guards in the order the route runs them: a file
      must be attached (400), the name must be a non-empty string (400), and
      only then must the caller be logged in (401). What passes is the
      document to create, whose author is always the logged-in user. */
  function UploadCheck(file: Option<UploadedFile>, nameField: JsValue, user: Option<string>): (v: Verdict<ImageDoc>)
    ensures file.None? ==> v == Halt(NO_FILE)
    ensures file.Some? && RequiredString(nameField).None? ==> v == Halt(UPLOAD_NAME_REQUIRED)
    ensures file.Some? && RequiredString(nameField).Some? && Caller(user).None? ==>
              v == Halt(LOGIN_REQUIRED)
    ensures v.Proceed? <==> file.Some? && RequiredString(nameField).Some? && Caller(user).Some?
    ensures v.Proceed? ==>
              v.value == ImageDoc(UPLOADS_DIR + file.value.filename, nameField.s, user.value) &&
              IsUploadPath(v.value.src) && v.value.authorId != "" && IsOwner(user, v.value)
  {
    if file.None? then Halt(NO_FILE)
    else match RequiredString(nameField)
      case None => Halt(UPLOAD_NAME_REQUIRED)
      case Some(name) =>
        match Caller(user)
        case None => Halt(LOGIN_REQUIRED)
        case Some(author) => Proceed(ImageDoc(UPLOADS_DIR + file.value.filename, name, author))
  }

  /** A caller who is not logged in (no user, or an empty username) is
      refused with 401 only once the file and the name have passed; a
      request that also lacks one of them gets that 400 instead. Either way
      nothing is created. */
  lemma AnonymousUploadRefused(file: Option<UploadedFile>, nameField: JsValue, user: Option<string>)
    requires Caller(user).None?
    ensures UploadCheck(file, nameField, user).Halt?
    ensures UploadCheck(file, nameField, user).reply.code ==
            if file.Some? && RequiredString(nameField).Some? then 401 else 400
  {
  }

  /** The upload route does not bound the name: a name longer than the
      rename limit is accepted and stored. */
  lemma UploadAcceptsLongName(filename: string, user: string)
    requires user != ""
    ensures var long := seq(MAX_NAME_LENGTH + 1, _ => 'a');
            Utf16Length(long) > MAX_NAME_LENGTH &&
            UploadCheck(Some(UploadedFile(filename)), Str(long), Some(user)).Proceed?
  {
  }

  /** POST /api/images. A refusal creates nothing; otherwise exactly one
      document is added, under a fresh id, and 201 is sent. */
  method Upload(store: ImageStore, file: Option<UploadedFile>, nameField: JsValue,
                user: Option<string>) returns (reply: Reply, ghost created: Option<Id>)
    requires store.Valid()
    modifies store
    ensures store.Valid()
    ensures UploadCheck(file, nameField, user).Halt? ==>
              reply == UploadCheck(file, nameField, user).reply && created == None &&
              store.images == old(store.images) && store.order == old(store.order)
    ensures UploadCheck(file, nameField, user).Proceed? ==>
              reply == CREATED && created.Some? && created.value !in old(store.images) &&
              store.images == old(store.images)[created.value := UploadCheck(file, nameField, user).value] &&
              store.order == old(store.order) + [created.value]
    ensures CatalogInvariant(old(store.images)) ==> CatalogInvariant(store.images)
  {
    var verdict := UploadCheck(file, nameField, user);
    if verdict.Halt? {
      return verdict.reply, None;
    }
    var doc := verdict.value;
    var id := store.CreateImage(doc.src, doc.name, doc.authorId);
    reply, created := CREATED, Some(id);
  }
}
