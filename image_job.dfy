/** The background job that fills a placeholder image message, and its compensating
    `rescue` once the queue gives up on it. */
module ImageJob {
  import opened Store
  import opened Text
  import ImageRequest

  /** One entry of an images API result's `data`. */
  datatype ImageDatum = ImageDatum(b64Json: Option<string>)
  /** An images API result; `data` may be absent. */
  datatype ImagesResult = ImagesResult(data: Option<seq<ImageDatum>>)
  /** The part of a `fetch` response the job looks at. */
  datatype Fetched = Fetched(ok: bool, hasBody: bool)

  /** Why a run of the job throws (and so is retried, then rescued). */
  datatype JobError = MessageNotFound | FetchFailed | ProviderFailed | ImageNotAvailable | WriteFailed
  datatype JobOutcome = Done | Thrown(error: JobError)

  /** The guard on each fetched input image, as written: it throws on every
      successful response, so an edit can only go on when every fetch failed. */
  predicate FetchRejected(res: Fetched) {
    res.ok || !res.hasBody
  }

  /** `value.data?.length && value.data[0].b64_json`. */
  predicate HasImage(v: ImagesResult) {
    v.data.Some? && |v.data.value| > 0 && v.data.value[0].b64Json.Some? && v.data.value[0].b64Json.value != ""
  }

  /** The public URL of the stored image `name` (a fresh cuid). */
  function GeneratedUrl(appUrl: string, userId: nat, name: string): (u: string)
    ensures u != ImageRequest.PlaceholderContent
    ensures |u| > |appUrl| + 26 && u[..|appUrl|] == appUrl && u[|u| - 4..] == ".png"
  {
    var u := appUrl + "/chatgpt/generated-images/" + Decimal(userId) + "/" + name + ".png";
    assert u[..|appUrl|] == appUrl;
    u
  }

  /** The end of one run of the job. `rowExists` says whether the target message is
      there; `generated` and `edited` are the provider's answers (None when the call
      throws), `fetches` the responses for the input images, `stored` whether
      writing the image file succeeds. */
  function Outcome(p: ImagePayload, rowExists: bool, generated: Option<ImagesResult>,
                   edited: Option<ImagesResult>, fetches: seq<Fetched>, stored: bool): JobOutcome
  {
    if !rowExists then Thrown(MessageNotFound)
    else if p.mode != "generate" && exists i :: 0 <= i < |fetches| && FetchRejected(fetches[i]) then Thrown(FetchFailed)
    else
      var value := if p.mode == "generate" then generated else edited;
      if value.None? then Thrown(ProviderFailed)
      else if !HasImage(value.value) then Thrown(ImageNotAvailable)
      else if !stored then Thrown(WriteFailed)
      else Done
  }

  /** `GenerateChatgptImageJob.handle`: the placeholder gets the image's URL and is
      marked done, or nothing changes and the run throws. */
  method Handle(db: Db, p: ImagePayload, generated: Option<ImagesResult>, edited: Option<ImagesResult>,
                fetches: seq<Fetched>, stored: bool, appUrl: string, name: string)
    returns (outcome: JobOutcome)
    requires db.Valid()
    requires |fetches| == |p.inputImages|
    modifies db.messages
    ensures db.Valid() && db.messages.next == old(db.messages.next)
    ensures outcome == Outcome(p, p.messageId in old(db.messages.rows), generated, edited, fetches, stored)
    ensures outcome.Done? ==> db.messages.rows == old(db.messages.rows)[p.messageId :=
      old(db.messages.rows[p.messageId]).(content := GeneratedUrl(appUrl, p.userId, name), isDone := true)]
    ensures outcome.Thrown? ==> db.messages.rows == old(db.messages.rows)
  {
    if p.messageId !in db.messages.rows {
      return Thrown(MessageNotFound);
    }
    var row := db.messages.rows[p.messageId];
    var value: Option<ImagesResult>;
    if p.mode == "generate" {
      value := generated;
    } else {
      // Promise.all: one rejected fetch rejects the whole batch.
      if exists i :: 0 <= i < |fetches| && FetchRejected(fetches[i]) {
        return Thrown(FetchFailed);
      }
      value := edited;
    }
    if value.None? {
      return Thrown(ProviderFailed);
    }
    if !HasImage(value.value) {
      return Thrown(ImageNotAvailable);
    }
    if !stored {
      return Thrown(WriteFailed);
    }
    db.messages.Save(p.messageId, row.(content := GeneratedUrl(appUrl, p.userId, name), isDone := true));
    outcome := Done;
  }

  /** An edit run that completes had every input image fetch come back not ok:
      the guard rejects every successful download. */
  lemma EditNeedsFailedFetches(p: ImagePayload, generated: Option<ImagesResult>, edited: Option<ImagesResult>,
                               fetches: seq<Fetched>, stored: bool)
    requires p.mode != "generate"
    requires Outcome(p, true, generated, edited, fetches, stored) == Done
    ensures forall i :: 0 <= i < |fetches| ==> !fetches[i].ok && fetches[i].hasBody
    ensures edited.Some? && HasImage(edited.value)
  {
  }

  /** A generate run does not depend on the edit inputs, and an edit run does not
      depend on the generate answer. */
  lemma ModeSelectsProvider(p: ImagePayload, e: bool, g1: Option<ImagesResult>, g2: Option<ImagesResult>,
                            d1: Option<ImagesResult>, d2: Option<ImagesResult>,
                            f1: seq<Fetched>, f2: seq<Fetched>, stored: bool)
    ensures p.mode == "generate" ==> Outcome(p, e, g1, d1, f1, stored) == Outcome(p, e, g1, d2, f2, stored)
    ensures p.mode != "generate" ==> Outcome(p, e, g1, d1, f1, stored) == Outcome(p, e, g2, d1, f1, stored)
  {
  }

  /** A run completes exactly when the row is there, the chosen provider answers
      with an image, and the file is written. */
  lemma DoneExactly(p: ImagePayload, e: bool, generated: Option<ImagesResult>, edited: Option<ImagesResult>,
                    fetches: seq<Fetched>, stored: bool)
    ensures Outcome(p, e, generated, edited, fetches, stored) == Done <==>
      && e && stored
      && (p.mode == "generate" ==> generated.Some? && HasImage(generated.value))
      && (p.mode != "generate" ==> edited.Some? && HasImage(edited.value)
                                   && forall i :: 0 <= i < |fetches| ==> !FetchRejected(fetches[i]))
  {
  }

  /** The ids `whereIn('id', [messageId - 1, messageId])` can match. */
  function RescueIds(messageId: nat): (ids: set<nat>)
    ensures forall id: nat :: id in ids <==> id == messageId || id + 1 == messageId
  {
    if messageId == 0 then {0} else {messageId - 1, messageId}
  }

  /** `GenerateChatgptImageJob.rescue`: deletes the placeholder and the row before it. */
  method Rescue(db: Db, p: ImagePayload)
    requires db.Valid()
    modifies db.messages
    ensures db.Valid()
    ensures db.messages.rows == old(db.messages.rows) - RescueIds(p.messageId)
    ensures db.messages.next == old(db.messages.next)
  {
    db.messages.DeleteWhere(RescueIds(p.messageId));
  }

  /** The rescue undoes the image request exactly: the placeholder id the handler
      returns is one past its user row, so deleting those two ids gives back the
      messages table as it was before the request. */
  lemma {:induction false} RescueUndoesExchange(messages: map<nat, Message>, next: nat, convId: string,
                                                b: ImageRequest.ImageBody, parentId: Option<nat>)
    requires Allocated(messages, next)
    ensures var after := ImageRequest.ExchangeRows(messages, next, convId, b, parentId);
      && RescueIds(next + 1) == {next, next + 1}
      && after[next + 1].parentId == Some(next)
      && after - RescueIds(next + 1) == messages
  {
    var after := ImageRequest.ExchangeRows(messages, next, convId, b, parentId);
    var back := after - RescueIds(next + 1);
    assert back.Keys == messages.Keys;
  }
}
