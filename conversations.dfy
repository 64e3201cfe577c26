/** The read and housekeeping endpoints of the chat controller: reading one
    conversation, listing the caller's conversations page by page, sharing and
    deleting a conversation, and reading a file's status or one message. */
module Conversations {
  import opened Store

  const NoConversation := "گفتگو وجود ندارد"
  const NoAccess := "شما به این گفتگو دسترسی ندارید"
  const PerPage := 20

  /** The ids of the messages of `convId` among ids `lo .. hi - 1`, ascending: the
      table's ids follow creation order, so this is `orderBy('created_at', 'asc')`. */
  function InConversation(messages: map<nat, Message>, convId: string, lo: nat, hi: nat): (ids: seq<nat>)
    decreases hi - lo
    ensures forall k :: 0 <= k < |ids| ==>
      lo <= ids[k] < hi && ids[k] in messages && messages[ids[k]].conversationId == convId
    ensures forall j, k :: 0 <= j < k < |ids| ==> ids[j] < ids[k]
  {
    if lo >= hi then []
    else (if lo in messages && messages[lo].conversationId == convId then [lo] else [])
         + InConversation(messages, convId, lo + 1, hi)
  }

  /** No message of the conversation in the range is left out. */
  lemma {:induction false} InConversationComplete(messages: map<nat, Message>, convId: string, lo: nat, hi: nat)
    decreases hi - lo
    ensures forall id :: lo <= id < hi && id in messages && messages[id].conversationId == convId ==>
      id in InConversation(messages, convId, lo, hi)
  {
    if lo < hi {
      InConversationComplete(messages, convId, lo + 1, hi);
    }
  }

  /** The messages of a conversation, oldest first. */
  function ConversationMessages(messages: map<nat, Message>, next: nat, convId: string): (ids: seq<nat>)
    requires Allocated(messages, next)
    ensures forall id :: id in ids <==> id in messages && messages[id].conversationId == convId
    ensures forall j, k :: 0 <= j < k < |ids| ==> ids[j] < ids[k]
  {
    InConversationComplete(messages, convId, 1, next);
    InConversation(messages, convId, 1, next)
  }

  datatype View = View(conversation: Conversation, messages: seq<nat>, isOwner: bool)

  /** `ChatgptController.conversation`: a hidden conversation is reported missing, a
      private one is only shown to its owner. */
  function ReadConversation(convs: map<string, Conversation>, messages: map<nat, Message>, next: nat,
                            caller: nat, convId: string): (r: Reply<View>)
    requires Allocated(messages, next)
    ensures r.Ok? <==> (convId in convs && !convs[convId].isHidden
                        && (convs[convId].isPublic || convs[convId].userId == caller))
    ensures convId !in convs ==> r == Fail(NotFound, "")
    ensures convId in convs && convs[convId].isHidden ==> r == Fail(NotFound, NoConversation)
    ensures convId in convs && !convs[convId].isHidden && !convs[convId].isPublic && convs[convId].userId != caller
      ==> r == Fail(Forbidden, NoAccess)
    ensures r.Ok? ==> r.value.conversation == convs[convId]
                      && r.value.isOwner == (convs[convId].userId == caller)
                      && (forall id :: id in r.value.messages <==> id in messages && messages[id].conversationId == convId)
                      && (forall j, k :: 0 <= j < k < |r.value.messages| ==> r.value.messages[j] < r.value.messages[k])
  {
    if convId !in convs then Fail(NotFound, "")
    else
      var c := convs[convId];
      if c.isHidden then Fail(NotFound, NoConversation)
      else if !c.isPublic && c.userId != caller then Fail(Forbidden, NoAccess)
      else Ok(View(c, ConversationMessages(messages, next, convId), c.userId == caller))
  }

  /** The table after a successful share. */
  function Shared(convs: map<string, Conversation>, convId: string): map<string, Conversation>
    requires convId in convs
  {
    convs[convId := convs[convId].(isPublic := true)]
  }

  /** `ChatgptController.shareConversation`. */
  method ShareConversation(db: Db, caller: nat, convId: string) returns (r: Reply<bool>)
    modifies db.conversations
    ensures convId !in old(db.conversations.rows) || old(db.conversations.rows[convId].isHidden) ==> r == Fail(NotFound, "")
    ensures (convId in old(db.conversations.rows) && !old(db.conversations.rows[convId].isHidden)
             && old(db.conversations.rows[convId].userId) != caller) ==> r == Fail(Forbidden, "")
    ensures r.Ok? <==> convId in old(db.conversations.rows) && !old(db.conversations.rows[convId].isHidden)
                       && old(db.conversations.rows[convId].userId) == caller
    ensures r.Ok? ==> r.value && db.conversations.rows == Shared(old(db.conversations.rows), convId)
    ensures r.Fail? ==> db.conversations.rows == old(db.conversations.rows)
  {
    if convId !in db.conversations.rows {
      return Fail(NotFound, "");
    }
    var c := db.conversations.rows[convId];
    if c.isHidden {
      return Fail(NotFound, "");
    }
    if c.userId != caller {
      return Fail(Forbidden, "");
    }
    db.conversations.Save(convId, c.(isPublic := true));
    r := Ok(true);
  }

  /** Once its owner shares a conversation, anyone can read it, and only the owner
      is told they own it. */
  lemma ShareMakesReadable(convs: map<string, Conversation>, messages: map<nat, Message>, next: nat,
                           convId: string, owner: nat, reader: nat)
    requires Allocated(messages, next)
    requires convId in convs && !convs[convId].isHidden && convs[convId].userId == owner
    ensures var r := ReadConversation(Shared(convs, convId), messages, next, reader, convId);
      r.Ok? && r.value.isOwner == (reader == owner)
  {
  }

  /** Sharing does not touch any other conversation, and sharing twice is sharing once. */
  lemma SharedIdempotent(convs: map<string, Conversation>, convId: string)
    requires convId in convs
    ensures forall id :: id in convs && id != convId ==> Shared(convs, convId)[id] == convs[id]
    ensures Shared(Shared(convs, convId), convId) == Shared(convs, convId)
  {
  }

  /** `ChatgptController.deleteConversation`, as written: it answers 404 for every
      conversation that is still visible, and for an already hidden one of the
      caller's it sets the flag that is already set. */
  method DeleteConversation(db: Db, caller: nat, convId: string) returns (r: Reply<bool>)
    modifies db.conversations
    ensures convId !in old(db.conversations.rows) || !old(db.conversations.rows[convId].isHidden) ==> r == Fail(NotFound, "")
    ensures (convId in old(db.conversations.rows) && old(db.conversations.rows[convId].isHidden)
             && old(db.conversations.rows[convId].userId) != caller) ==> r == Fail(Forbidden, "")
    ensures r.Ok? <==> convId in old(db.conversations.rows) && old(db.conversations.rows[convId].isHidden)
                       && old(db.conversations.rows[convId].userId) == caller
    ensures r.Ok? ==> r.value
    ensures db.conversations.rows == old(db.conversations.rows)
  {
    if convId !in db.conversations.rows {
      return Fail(NotFound, "");
    }
    var c := db.conversations.rows[convId];
    if !c.isHidden {
      return Fail(NotFound, "");
    }
    if c.userId != caller {
      return Fail(Forbidden, "");
    }
    assert c.(isHidden := true) == c;
    db.conversations.Save(convId, c.(isHidden := true));
    r := Ok(true);
  }

  /** Only what the caller's conversation list shows: their own, not hidden ones. */
  predicate Listed(c: Conversation, caller: nat) {
    c.userId == caller && !c.isHidden
  }

  /** The order `orderBy('created_at', 'desc')` gives the caller's listed
      conversations: each exactly once, newest first (ties in any order). */
  ghost predicate NewestFirst(convs: map<string, Conversation>, caller: nat, ordered: seq<string>) {
    && (forall i :: 0 <= i < |ordered| ==> ordered[i] in convs && Listed(convs[ordered[i]], caller))
    && (forall id :: id in convs && Listed(convs[id], caller) ==> id in ordered)
    && (forall i, j :: 0 <= i < j < |ordered| ==> ordered[i] != ordered[j])
    && (forall i, j :: 0 <= i < j < |ordered| ==> convs[ordered[i]].createdAt >= convs[ordered[j]].createdAt)
  }

  /** `.offset((page - 1) * 20).limit(20)`, with `page` 1 when the query string has
      none; a page below 1 gives a negative offset, which the query builder refuses. */
  function Page<T>(ordered: seq<T>, page: Option<int>): (r: Reply<seq<T>>)
    ensures r.Fail? <==> page.Some? && page.value < 1
    ensures r.Fail? ==> r.status == InternalServerError
    ensures r.Ok? ==>
      var p := if page.Some? then page.value else 1;
      var offset := (p - 1) * PerPage;
      && p >= 1
      && |r.value| == (if |ordered| <= offset then 0 else if |ordered| - offset < PerPage then |ordered| - offset else PerPage)
      && forall k :: 0 <= k < |r.value| ==> offset + k < |ordered| && r.value[k] == ordered[offset + k]
  {
    var p := if page.Some? then page.value else 1;
    if p < 1 then Fail(InternalServerError, "")
    else
      var offset := (p - 1) * PerPage;
      if |ordered| <= offset then Ok([])
      else if |ordered| - offset < PerPage then Ok(ordered[offset..])
      else Ok(ordered[offset..offset + PerPage])
  }

  /** `ChatgptController.conversations`. */
  function ListConversations(convs: map<string, Conversation>, caller: nat, ordered: seq<string>,
                             page: Option<int>): (r: Reply<seq<Conversation>>)
    requires NewestFirst(convs, caller, ordered)
    ensures r.Fail? <==> page.Some? && page.value < 1
    ensures r.Fail? <==> Page(ordered, page).Fail?
    ensures r.Ok? ==> |r.value| <= PerPage && forall k :: 0 <= k < |r.value| ==> Listed(r.value[k], caller)
    ensures r.Ok? ==> |r.value| == |Page(ordered, page).value|
                      && forall k :: 0 <= k < |r.value| ==> r.value[k] == convs[Page(ordered, page).value[k]]
  {
    match Page(ordered, page)
    case Fail(s, e) => Fail(s, e)
    case Ok(ids) => Ok(seq(|ids|, k requires 0 <= k < |ids| => convs[ids[k]]))
  }

  /** Every listed conversation is on exactly one page: the one its position gives. */
  lemma EachOnOnePage<T>(ordered: seq<T>, i: nat, p: int)
    requires i < |ordered| && p >= 1
    requires forall a, b :: 0 <= a < b < |ordered| ==> ordered[a] != ordered[b]
    ensures ordered[i] in Page(ordered, Some(p)).value <==> p == i / PerPage + 1
  {
    var r := Page(ordered, Some(p)).value;
    var offset := (p - 1) * PerPage;
    if p == i / PerPage + 1 {
      assert r[i - offset] == ordered[i];
    } else if ordered[i] in r {
      assert false;
    }
  }

  /** The first n pages, one after the other, are the first 20n conversations. */
  function Pages<T>(ordered: seq<T>, n: nat): seq<T> {
    if n == 0 then [] else Pages(ordered, n - 1) + Page(ordered, Some(n)).value
  }

  lemma {:induction false} PagesTile<T>(ordered: seq<T>, n: nat)
    ensures Pages(ordered, n) == (if n * PerPage <= |ordered| then ordered[..n * PerPage] else ordered)
  {
    if n > 0 {
      PagesTile(ordered, n - 1);
      var offset := (n - 1) * PerPage;
      var r := Page(ordered, Some(n)).value;
      if offset < |ordered| {
        assert ordered[..offset] + r == (if n * PerPage <= |ordered| then ordered[..n * PerPage] else ordered);
      }
    }
  }

  /** `ChatgptController.fileStatus`: only the uploader can ask. */
  function FileStatus(files: map<nat, ChatFile>, caller: nat, id: nat): (r: Reply<bool>)
    ensures id !in files ==> r == Fail(NotFound, "")
    ensures id in files && files[id].userId != caller ==> r == Fail(Forbidden, "")
    ensures r.Ok? <==> id in files && files[id].userId == caller
    ensures r.Ok? ==> r.value == files[id].isReady
  {
    if id !in files then Fail(NotFound, "")
    else if files[id].userId != caller then Fail(Forbidden, "")
    else Ok(files[id].isReady)
  }

  /** `ChatgptController.message`: only the conversation's owner can read a message,
      whether or not the conversation is hidden or public. */
  function ReadMessage(messages: map<nat, Message>, convs: map<string, Conversation>, caller: nat, id: nat): (r: Reply<Message>)
    ensures r.Ok? <==> (id in messages && messages[id].conversationId in convs
                        && convs[messages[id].conversationId].userId == caller)
    ensures id !in messages || messages[id].conversationId !in convs ==> r == Fail(NotFound, "")
    ensures r.Fail? && r.status != NotFound ==> r == Fail(Forbidden, "")
    ensures r.Ok? ==> r.value == messages[id]
  {
    if id !in messages then Fail(NotFound, "")
    else if messages[id].conversationId !in convs then Fail(NotFound, "")
    else if convs[messages[id].conversationId].userId != caller then Fail(Forbidden, "")
    else Ok(messages[id])
  }
}
