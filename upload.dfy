/** `ChatgptController.uploadFile`: a document is stored, sent to the provider and
    indexed in a new vector store (and an activation job is queued); an image is just
    stored. */
module Upload {
  import opened Store
  import opened Text

  const HoursUntilExpire := 12
  const MaxFileSize := 50 * 1024 * 1024
  const MaxImageSize := 19 * 1024 * 1024
  const FileExtensions := ["c", "cpp", "cs", "css", "doc", "docx", "go", "html", "java", "js", "json",
                           "md", "pdf", "php", "pptx", "py", "rb", "sh", "tex", "ts", "txt"]
  const ImageExtensions := ["png", "jpeg", "jpg", "webp"]
  const NotUploaded := "فایل آپلود نشد."
  const NothingUploaded := "هیچ فایلی آپلود نشد"
  const DefaultError := "خطایی پیش آمده"

  /** A multipart part: where the server put it, its extension and its size in bytes. */
  datatype UploadedPart = UploadedPart(tmpPath: Option<string>, extname: string, size: int)
  datatype UploadRequest = UploadRequest(file: Option<UploadedPart>, image: Option<UploadedPart>)

  /** The upload validator: each part that is present is within its size limit and
      has one of its extensions. */
  predicate Acceptable(req: UploadRequest) {
    && (req.file.Some? ==> req.file.value.size <= MaxFileSize && req.file.value.extname in FileExtensions)
    && (req.image.Some? ==> req.image.value.size <= MaxImageSize && req.image.value.extname in ImageExtensions)
  }

  /** `e?.message || 'خطایی پیش آمده'`. */
  function ErrorText(message: string): (t: string)
    ensures t != ""
    ensures message != "" ==> t == message
  {
    if message == "" then DefaultError else message
  }

  /** The public URL of the stored upload `name.ext` in the caller's directory. */
  function UploadUrl(appUrl: string, caller: nat, name: string, ext: string): string {
    appUrl + "/chatgpt/uploads/" + Decimal(caller) + "/" + name + "." + ext
  }

  predicate NoSlash(s: string) {
    forall i :: 0 <= i < |s| ==> s[i] != '/'
  }

  lemma {:induction false} CutAtSlash(a: string, x: string, b: string, y: string)
    requires NoSlash(a) && NoSlash(b)
    requires a + "/" + x == b + "/" + y
    ensures a == b
  {
    var s := a + "/" + x;
    assert s[|a|] == '/';
    assert (b + "/" + y)[|b|] == '/';
    if |a| < |b| {
      assert false;
    } else if |b| < |a| {
      assert false;
    }
    assert a == s[..|a|] == b;
  }

  /** Two uploads can only share a URL when they belong to the same user: each
      user's files live in their own directory. */
  lemma UploadUrlsSeparateUsers(appUrl: string, c1: nat, n1: string, e1: string, c2: nat, n2: string, e2: string)
    requires UploadUrl(appUrl, c1, n1, e1) == UploadUrl(appUrl, c2, n2, e2)
    ensures c1 == c2
  {
    var p := appUrl + "/chatgpt/uploads/";
    var d1, d2 := Decimal(c1), Decimal(c2);
    var u := UploadUrl(appUrl, c1, n1, e1);
    assert u == p + (d1 + "/" + (n1 + "." + e1));
    assert u == p + (d2 + "/" + (n2 + "." + e2));
    assert u[|p|..] == d1 + "/" + (n1 + "." + e1) == d2 + "/" + (n2 + "." + e2);
    CutAtSlash(d1, n1 + "." + e1, d2, n2 + "." + e2);
    DecimalInjective(c1, c2);
  }

  /** The row of an uploaded document: owned by the caller, not yet linked to a
      message, expiring twelve hours after `now`, indexed in `vectorStore` and not
      ready until the activation job says so. */
  function DocumentRow(caller: nat, url: string, part: UploadedPart, now: int, vectorStore: string): ChatFile {
    ChatFile(caller, None, url, part.size, DocumentFile, Some(now + HoursUntilExpire * 3600 * 1000),
             Some(vectorStore), false, false)
  }

  /** The row of an uploaded image: ready at once, no expiry, no vector store. */
  function ImageRow(caller: nat, url: string, part: UploadedPart): ChatFile {
    ChatFile(caller, None, url, part.size, ImageFile, None, None, true, false)
  }

  /** What every file row looks like, whichever kind it is. */
  predicate WellShaped(f: ChatFile) {
    && (f.kind == ImageFile ==> f.isReady && f.expiresAt.None? && f.vectorStore.None?)
    && (f.kind == DocumentFile ==> f.expiresAt.Some? && f.vectorStore.Some?)
  }

  lemma NewRowsWellShaped(caller: nat, url: string, part: UploadedPart, now: int, vectorStore: string)
    ensures WellShaped(DocumentRow(caller, url, part, now, vectorStore)) && WellShaped(ImageRow(caller, url, part))
    ensures DocumentRow(caller, url, part, now, vectorStore).expiresAt.value - now == 43200000
  {
  }

  /** Linking files to a message keeps every row well shaped. */
  lemma RelinkedWellShaped(files: map<nat, ChatFile>, ids: seq<nat>, mid: nat)
    requires forall id :: id in files ==> WellShaped(files[id])
    ensures forall id :: id in Relinked(files, ids, mid) ==> WellShaped(Relinked(files, ids, mid)[id])
  {
  }

  /** `ChatgptController.uploadFile`. `name` is the fresh cuid, `vectorStore` the id the
      provider gives the new store, `failure` the message of the first file-system or
      provider error (None when all of them succeed). A document part wins over an
      image part. Answers the new row's id. */
  method UploadFile(db: Db, caller: nat, req: UploadRequest, appUrl: string, name: string, now: int,
                    vectorStore: string, failure: Option<string>)
    returns (r: Reply<nat>)
    requires db.Valid()
    modifies db.files, db.queue
    ensures db.Valid()
    ensures !Acceptable(req) ==> r == Fail(UnprocessableEntity, "")
    ensures Acceptable(req) && req.file.Some? && req.file.value.tmpPath.None? ==> r == Fail(InternalServerError, NotUploaded)
    ensures (Acceptable(req) && (req.file.Some? ==> req.file.value.tmpPath.Some?)
             && (req.file.Some? || req.image.Some?) && failure.Some?) ==> r == Fail(InternalServerError, ErrorText(failure.value))
    ensures Acceptable(req) && req.file.None? && req.image.None? ==> r == Fail(UnprocessableEntity, NothingUploaded)
    ensures r.Fail? ==> unchanged(db.files, db.queue)
    ensures r.Ok? <==> (Acceptable(req) && failure.None? && (req.file.Some? || req.image.Some?)
                        && (req.file.Some? ==> req.file.value.tmpPath.Some?))
    ensures r.Ok? && req.file.Some? ==>
      var part := req.file.value;
      && r.value == old(db.files.next) && db.files.next == old(db.files.next) + 1
      && db.files.rows == old(db.files.rows)[r.value := DocumentRow(caller, UploadUrl(appUrl, caller, name, part.extname), part, now, vectorStore)]
      && db.queue.jobs == old(db.queue.jobs) + [ActivateFile(FilePayload(vectorStore, r.value))]
    ensures r.Ok? && req.file.None? ==>
      var part := req.image.value;
      && r.value == old(db.files.next) && db.files.next == old(db.files.next) + 1
      && db.files.rows == old(db.files.rows)[r.value := ImageRow(caller, UploadUrl(appUrl, caller, name, part.extname), part)]
      && db.queue.jobs == old(db.queue.jobs)
  {
    if !Acceptable(req) {
      return Fail(UnprocessableEntity, "");
    }
    if req.file.Some? {
      var part := req.file.value;
      if part.tmpPath.None? {
        return Fail(InternalServerError, NotUploaded);
      }
      if failure.Some? {
        return Fail(InternalServerError, ErrorText(failure.value));
      }
      var id := db.files.Create(DocumentRow(caller, UploadUrl(appUrl, caller, name, part.extname), part, now, vectorStore));
      db.queue.Dispatch(ActivateFile(FilePayload(vectorStore, id)));
      return Ok(id);
    }
    if req.image.Some? {
      var part := req.image.value;
      if failure.Some? {
        return Fail(InternalServerError, ErrorText(failure.value));
      }
      var id := db.files.Create(ImageRow(caller, UploadUrl(appUrl, caller, name, part.extname), part));
      return Ok(id);
    }
    r := Fail(UnprocessableEntity, NothingUploaded);
  }
}
