/** The image request handlers `generateImage` and `generateImageSora`: they check the
    prompt, size and quality against fixed lists, store the user row and right after
    it a placeholder assistant row, dispatch the generation job and return the
    placeholder's id. */
module ImageRequest {
  import opened Store
  import opened Text
  import Attachments

  const ImageModel := "gpt-image-1"
  const Sizes := ["1024x1024", "1024x1536", "1536x1024"]
  const Qualities := ["low", "medium", "high"]
  /** The content of a placeholder row until the job stores the image's URL. */
  const PlaceholderContent := "no_content"
  const SizeError := "این سایز پشتیبانی نمی شود"
  const QualityError := "این کیفیت پشتیبانی نمی شود"
  const SoraTitle := "Image Conversation"

  /** The request body; `generateImageSora` does not read `parentId`. */
  datatype ImageBody = ImageBody(prompt: string, size: string, quality: string, parentId: Option<nat>, filesId: seq<nat>)

  /** The 422 message of the first check the body fails, in the handlers' order:
      prompt, then size, then quality. */
  function ValidationError(b: ImageBody): (r: Option<string>)
    ensures r.None? <==> b.prompt != "" && b.size in Sizes && b.quality in Qualities
    ensures b.prompt == "" ==> r == Some("")
    ensures b.prompt != "" && b.size !in Sizes ==> r == Some(SizeError)
    ensures b.prompt != "" && b.size in Sizes && b.quality !in Qualities ==> r == Some(QualityError)
  {
    if b.prompt == "" then Some("")
    else if b.size !in Sizes then Some(SizeError)
    else if b.quality !in Qualities then Some(QualityError)
    else None
  }

  function RequestRow(convId: string, b: ImageBody, parentId: Option<nat>): Message {
    Message(convId, ImageModel, UserRole, b.prompt, 0, None, false, false, None,
            Some(b.size), Some(b.quality), true, TextMessage, parentId)
  }

  function PlaceholderRow(convId: string, b: ImageBody, requestId: nat): Message {
    Message(convId, ImageModel, AssistantRole, PlaceholderContent, 0, None, false, false, None,
            Some(b.size), Some(b.quality), false, ImageMessage, Some(requestId))
  }

  /** The messages table after the two back-to-back creates: the user row takes id
      `next`, the placeholder `next + 1` and points at the user row. */
  function ExchangeRows(messages: map<nat, Message>, next: nat, convId: string, b: ImageBody,
                        parentId: Option<nat>): (r: map<nat, Message>)
    requires Allocated(messages, next)
  {
    messages[next := RequestRow(convId, b, parentId)][next + 1 := PlaceholderRow(convId, b, next)]
  }

  /** The two new rows take fresh ids, the placeholder right after the user row and
      pointing at it, and every older row is kept. */
  lemma ExchangeRowsShape(messages: map<nat, Message>, next: nat, convId: string, b: ImageBody, parentId: Option<nat>)
    requires Allocated(messages, next)
    ensures var r := ExchangeRows(messages, next, convId, b, parentId);
      && Allocated(r, next + 2)
      && r.Keys == messages.Keys + {next, next + 1} && next !in messages && next + 1 !in messages
      && (forall id :: id in messages ==> r[id] == messages[id])
      && r[next].role == UserRole && r[next].content == b.prompt && r[next].isDone
      && r[next].parentId == parentId
      && r[next + 1].role == AssistantRole && r[next + 1].kind == ImageMessage
      && r[next + 1].content == PlaceholderContent && !r[next + 1].isDone
      && r[next + 1].parentId == Some(next)
      && r[next].imageSize == r[next + 1].imageSize == Some(b.size)
      && r[next].imageQuality == r[next + 1].imageQuality == Some(b.quality)
  {
  }

  /** The dispatched job: `edit` when there are input images, else `generate`. */
  function Payload(b: ImageBody, messageId: nat, caller: nat, images: seq<string>): ImagePayload {
    ImagePayload(ImageModel, b.prompt, b.quality, b.size, messageId, caller,
                 if |images| > 0 then "edit" else "generate", images)
  }

  /** The job runs in edit mode exactly when the caller owns one of the found image
      files; otherwise it generates. */
  lemma EditModeIffOwnedImage(files: map<nat, ChatFile>, found: seq<nat>, caller: nat, b: ImageBody, messageId: nat)
    requires forall i :: 0 <= i < |found| ==> found[i] in files
    ensures var p := Payload(b, messageId, caller, Attachments.ImageUrls(files, found, caller));
      && (p.mode == "edit" <==> exists i :: 0 <= i < |found| && Attachments.OwnedImage(files[found[i]], caller))
      && (p.mode == "generate" <==> forall i :: 0 <= i < |found| ==> !Attachments.OwnedImage(files[found[i]], caller))
  {
    Attachments.ImagesExactly(files, found, caller);
    var ids := Attachments.ImageIds(files, found, caller);
    if exists i :: 0 <= i < |found| && Attachments.OwnedImage(files[found[i]], caller) {
      var i :| 0 <= i < |found| && Attachments.OwnedImage(files[found[i]], caller);
      assert found[i] in ids;
    } else if |ids| > 0 {
      assert false;
    }
  }

  /** The placeholder id, the job and the file links both handlers share. */
  method CreateExchange(db: Db, caller: nat, convId: string, b: ImageBody, parentId: Option<nat>, found: seq<nat>)
    returns (id: nat)
    requires db.Valid()
    requires forall i :: 0 <= i < |found| ==> found[i] in db.files.rows
    modifies db.messages, db.files, db.queue
    ensures db.Valid() && db.files.next == old(db.files.next)
    ensures var n := old(db.messages.next);
      var images := Attachments.ImageUrls(old(db.files.rows), found, caller);
      && id == n + 1
      && db.messages.rows == ExchangeRows(old(db.messages.rows), n, convId, b, parentId)
      && db.messages.next == n + 2
      && db.queue.jobs == old(db.queue.jobs) + [Job.GenerateImage(Payload(b, id, caller, images))]
      && db.files.rows == (if |images| > 0 then Relinked(old(db.files.rows), Attachments.ImageIds(old(db.files.rows), found, caller), n)
                           else old(db.files.rows))
  {
    var images, imageIds, _ := Attachments.Split(db.files.rows, found, caller);
    Attachments.ImagesExactly(db.files.rows, found, caller);
    var requestId := CreatePair(db, convId, b, parentId);
    id := requestId + 1;
    db.queue.Dispatch(Job.GenerateImage(Payload(b, id, caller, images)));
    if |images| > 0 {
      db.files.UpdateWhere(map fid | fid in db.files.rows && fid in imageIds :: db.files.rows[fid].(messageId := Some(requestId)));
    }
  }

  /** The two back-to-back creates; answers the user row's id. */
  method CreatePair(db: Db, convId: string, b: ImageBody, parentId: Option<nat>) returns (requestId: nat)
    requires db.Valid()
    modifies db.messages
    ensures db.Valid()
    ensures requestId == old(db.messages.next)
    ensures db.messages.rows == ExchangeRows(old(db.messages.rows), requestId, convId, b, parentId)
    ensures db.messages.next == requestId + 2
  {
    requestId := db.messages.Create(RequestRow(convId, b, parentId));
    var _ := db.messages.Create(PlaceholderRow(convId, b, requestId));
  }

  /** `ChatgptController.generateImage`. */
  method GenerateImage(db: Db, caller: nat, convId: string, b: ImageBody, found: seq<nat>)
    returns (r: Reply<nat>)
    requires db.Valid()
    requires Attachments.FoundRows(db.files.rows, b.filesId, found)
    modifies db.messages, db.files, db.conversations, db.queue
    ensures db.Valid() && db.files.next == old(db.files.next)
    ensures ValidationError(b).Some? ==> r == Fail(UnprocessableEntity, ValidationError(b).value)
    ensures ValidationError(b).None? && convId !in old(db.conversations.rows) ==> r == Fail(NotFound, "")
    ensures (ValidationError(b).None? && convId in old(db.conversations.rows)
             && old(db.conversations.rows[convId].userId) != caller) ==> r == Fail(Forbidden, "")
    ensures r.Fail? ==> unchanged(db.messages, db.files, db.conversations, db.queue)
    ensures r.Ok? <==> ValidationError(b).None? && convId in old(db.conversations.rows)
                       && old(db.conversations.rows[convId].userId) == caller
    ensures r.Ok? ==>
      var n := old(db.messages.next);
      var images := Attachments.ImageUrls(old(db.files.rows), found, caller);
      && r.value == n + 1
      && db.messages.rows == ExchangeRows(old(db.messages.rows), n, convId, b, GivenOrNull(b.parentId))
      && db.messages.next == n + 2
      && db.queue.jobs == old(db.queue.jobs) + [Job.GenerateImage(Payload(b, n + 1, caller, images))]
      && db.files.rows == (if |images| > 0 then Relinked(old(db.files.rows), Attachments.ImageIds(old(db.files.rows), found, caller), n)
                           else old(db.files.rows))
      && db.conversations.rows == (if Given(b.parentId) then old(db.conversations.rows)
                                   else old(db.conversations.rows)[convId := old(db.conversations.rows[convId]).(title := Title(b.prompt))])
  {
    var invalid := ValidationError(b);
    if invalid.Some? {
      return Fail(UnprocessableEntity, invalid.value);
    }
    if convId !in db.conversations.rows {
      return Fail(NotFound, "");
    }
    var conversation := db.conversations.rows[convId];
    if conversation.userId != caller {
      return Fail(Forbidden, "");
    }
    var id := CreateExchange(db, caller, convId, b, GivenOrNull(b.parentId), found);
    if !Given(b.parentId) {
      db.conversations.Save(convId, conversation.(title := Title(b.prompt)));
    }
    r := Ok(id);
  }

  /** `ChatgptController.generateImageSora`: the same exchange, in a new hidden
      conversation with the fresh id `convId`, and no title change. */
  method GenerateImageSora(db: Db, caller: nat, convId: string, now: int, b: ImageBody, found: seq<nat>)
    returns (r: Reply<nat>)
    requires db.Valid()
    requires convId !in db.conversations.rows
    requires Attachments.FoundRows(db.files.rows, b.filesId, found)
    modifies db.messages, db.files, db.conversations, db.queue
    ensures db.Valid() && db.files.next == old(db.files.next)
    ensures ValidationError(b).Some? ==> r == Fail(UnprocessableEntity, ValidationError(b).value)
    ensures r.Fail? ==> unchanged(db.messages, db.files, db.conversations, db.queue)
    ensures r.Ok? <==> ValidationError(b).None?
    ensures r.Ok? ==>
      var n := old(db.messages.next);
      var images := Attachments.ImageUrls(old(db.files.rows), found, caller);
      && r.value == n + 1
      && db.conversations.rows == old(db.conversations.rows)[convId := Conversation(caller, SoraTitle, true, false, now)]
      && db.messages.rows == ExchangeRows(old(db.messages.rows), n, convId, b, None)
      && db.messages.next == n + 2
      && db.queue.jobs == old(db.queue.jobs) + [Job.GenerateImage(Payload(b, n + 1, caller, images))]
      && db.files.rows == (if |images| > 0 then Relinked(old(db.files.rows), Attachments.ImageIds(old(db.files.rows), found, caller), n)
                           else old(db.files.rows))
  {
    var invalid := ValidationError(b);
    if invalid.Some? {
      return Fail(UnprocessableEntity, invalid.value);
    }
    db.conversations.Create(convId, Conversation(caller, SoraTitle, true, false, now));
    var id := CreateExchange(db, caller, convId, b, None, found);
    r := Ok(id);
  }
}
