/** The message-exchange relay: it resolves a prompt's attachments, builds the
    provider request, forwards the provider's text deltas to the client as they
    arrive, and on the provider's "completed" event stores the user row and the
    assistant row and links the attachments to the user row. */
module Relay {
  import opened Store
  import opened Text
  import Attachments

  /** The text written to the client when the provider call or its stream throws. */
  const FailureSentinel := "خطایی پیش آمده."

  datatype Usage = Usage(inputTokens: int, outputTokens: int)

  /** The provider's stream events the relay tells apart; every other kind is `OtherEvent`. */
  datatype Event =
    | Created(responseId: string)          // response.created
    | TextDelta(delta: string)             // response.output_text.delta
    | Completed(usage: Option<Usage>)      // response.completed
    | OtherEvent

  /** What the provider delivers: some events, then either a normal end or a throw. */
  datatype Stream = Stream(events: seq<Event>, fails: bool)

  /** What the client receives on the chunked response, and whether it was ended. */
  datatype ClientLog = ClientLog(writes: seq<string>, ended: bool)

  datatype Tool = WebSearchPreview | FileSearch(vectorStoreIds: seq<string>)
  datatype InputPart = InputText(text: string) | InputImage(imageUrl: string)
  datatype Input = PlainPrompt(text: string) | UserItem(content: seq<InputPart>)
  datatype Reasoning = Reasoning(effort: Option<string>)

  /** The provider request; an empty `tools` is the absent `tools` key. */
  datatype Request = Request(
    model: string,
    input: Input,
    previousResponseId: Option<string>,
    tools: seq<Tool>,
    reasoning: Option<Reasoning>)

  function ImageParts(images: seq<string>): (parts: seq<InputPart>)
    ensures |parts| == |images|
    ensures forall i :: 0 <= i < |images| ==> parts[i] == InputImage(images[i])
  {
    if images == [] then [] else ImageParts(images[..|images| - 1]) + [InputImage(images[|images| - 1])]
  }

  /** The tool list and the input the relay sends. */
  function BuildRequest(model: string, prompt: string, images: seq<string>, stores: seq<string>,
                        useWebSearch: bool, useReasoning: bool, effort: Option<string>,
                        previous: Option<string>): (r: Request)
    ensures r.model == model && r.previousResponseId == previous
    ensures WebSearchPreview in r.tools <==> useWebSearch
    ensures FileSearch(stores) in r.tools <==> |stores| > 0
    ensures forall t :: t in r.tools ==> t == WebSearchPreview || t == FileSearch(stores)
    ensures |r.tools| > 1 ==> r.tools == [WebSearchPreview, FileSearch(stores)]
    ensures r.input == PlainPrompt(prompt) <==> |images| == 0
    ensures r.input.UserItem? ==>
      && |r.input.content| == |images| + 1
      && r.input.content[0] == InputText(prompt)
      && forall i :: 0 <= i < |images| ==> r.input.content[i + 1] == InputImage(images[i])
    ensures r.reasoning.Some? <==> useReasoning
    ensures r.reasoning.Some? ==> r.reasoning.value.effort == effort
  {
    var tools := (if useWebSearch then [WebSearchPreview] else []) + (if |stores| > 0 then [FileSearch(stores)] else []);
    var input := if |images| > 0 then UserItem([InputText(prompt)] + ImageParts(images)) else PlainPrompt(prompt);
    Request(model, input, previous, tools, if useReasoning then Some(Reasoning(effort)) else None)
  }

  /** The arguments of one relay run. `parentId` is `parent ? parent.id : null`. */
  datatype Exchange = Exchange(
    conversationId: string,
    model: string,
    prompt: string,
    useWebSearch: bool,
    useReasoning: bool,
    effort: Option<string>,
    filesId: seq<nat>,
    parentId: Option<nat>)

  function InputTokens(usage: Option<Usage>): int {
    if usage.Some? then usage.value.inputTokens else 0
  }

  function OutputTokens(usage: Option<Usage>): int {
    if usage.Some? then usage.value.outputTokens else 0
  }

  function UserRow(x: Exchange, usage: Option<Usage>): Message {
    Message(x.conversationId, x.model, UserRole, x.prompt, InputTokens(usage), None,
            x.useWebSearch, x.useReasoning, x.effort, None, None, true, TextMessage, x.parentId)
  }

  function AssistantRow(x: Exchange, content: string, responseId: Option<string>, usage: Option<Usage>): Message {
    Message(x.conversationId, x.model, AssistantRole, content, OutputTokens(usage), responseId,
            x.useWebSearch, x.useReasoning, x.effort, None, None, true, TextMessage, x.parentId)
  }

  /** The relay's state between events: the accumulated text, the captured response id,
      what was written to the client, and the two tables it writes. */
  datatype Fold = Fold(
    acc: string,
    responseId: Option<string>,
    writes: seq<string>,
    messages: map<nat, Message>,
    next: nat,
    files: map<nat, ChatFile>)

  /** One iteration of the `for await` loop. */
  function Step(f: Fold, e: Event, x: Exchange): Fold {
    match e
    case TextDelta(d) =>
      if d == "" then f else f.(acc := f.acc + d, writes := f.writes + [d])
    case Created(id) =>
      f.(responseId := Some(id))
    case Completed(usage) =>
      var userId := f.next;
      f.(messages := f.messages[userId := UserRow(x, usage)][userId + 1 := AssistantRow(x, f.acc, f.responseId, usage)],
         next := f.next + 2,
         files := if |x.filesId| > 0 then Relinked(f.files, x.filesId, userId) else f.files)
    case OtherEvent =>
      f
  }

  /** The loop over a sequence of events, from the first to the last. */
  function Run(f: Fold, es: seq<Event>, x: Exchange): Fold
    decreases |es|
  {
    if es == [] then f else Step(Run(f, es[..|es| - 1], x), es[|es| - 1], x)
  }

  /** The relay's state before the first event. */
  function Start(messages: map<nat, Message>, next: nat, files: map<nat, ChatFile>): Fold {
    Fold("", None, [], messages, next, files)
  }

  // Reference definitions the fold is checked against.

  /** The non-empty deltas, in stream order. */
  function NonEmptyDeltas(es: seq<Event>): seq<string> {
    if es == [] then []
    else
      var e := es[|es| - 1];
      NonEmptyDeltas(es[..|es| - 1]) + (if e.TextDelta? && e.delta != "" then [e.delta] else [])
  }

  function Concat(ss: seq<string>): string {
    if ss == [] then "" else Concat(ss[..|ss| - 1]) + ss[|ss| - 1]
  }

  /** The id carried by the last `response.created` event, if any. */
  function LastCreated(es: seq<Event>): Option<string> {
    if es == [] then None
    else if es[|es| - 1].Created? then Some(es[|es| - 1].responseId)
    else LastCreated(es[..|es| - 1])
  }

  /** The client output of a whole run: the deltas, then the sentinel if the stream threw. */
  function Transcript(s: Stream): seq<string> {
    NonEmptyDeltas(s.events) + (if s.fails then [FailureSentinel] else [])
  }

  lemma {:induction false} ConcatAppend(a: seq<string>, b: seq<string>)
    ensures Concat(a + b) == Concat(a) + Concat(b)
    decreases |b|
  {
    if b == [] {
      assert a + b == a;
    } else {
      var n := |b| - 1;
      var ab := a + b;
      assert ab[..|ab| - 1] == a + b[..n];
      assert ab[|ab| - 1] == b[n];
      assert Concat(ab) == Concat(a + b[..n]) + b[n];
      ConcatAppend(a, b[..n]);
      assert Concat(b) == Concat(b[..n]) + b[n];
    }
  }

  lemma {:induction false} RunAppend(f: Fold, a: seq<Event>, b: seq<Event>, x: Exchange)
    ensures Run(f, a + b, x) == Run(Run(f, a, x), b, x)
    decreases |b|
  {
    if b == [] {
      assert a + b == a;
    } else {
      var n := |b| - 1;
      assert (a + b)[..|a + b| - 1] == a + b[..n];
      RunAppend(f, a, b[..n], x);
    }
  }

  /** The client receives every non-empty delta, in order, and the accumulator is
      their concatenation. */
  lemma {:induction false} RunText(f: Fold, es: seq<Event>, x: Exchange)
    ensures Run(f, es, x).writes == f.writes + NonEmptyDeltas(es)
    ensures Run(f, es, x).acc == f.acc + Concat(NonEmptyDeltas(es))
    decreases |es|
  {
    if es != [] {
      var init := es[..|es| - 1];
      RunText(f, init, x);
      var e := es[|es| - 1];
      assert Run(f, es, x) == Step(Run(f, init, x), e, x);
      if e.TextDelta? && e.delta != "" {
        ConcatAppend(NonEmptyDeltas(init), [e.delta]);
        assert Concat([e.delta]) == "" + e.delta;
      } else {
        assert NonEmptyDeltas(es) == NonEmptyDeltas(init) + [] == NonEmptyDeltas(init);
        assert Step(Run(f, init, x), e, x).acc == Run(f, init, x).acc;
      }
    }
  }

  /** Each delta is written at the moment it is appended, so what the client has seen
      always spells out the accumulated text. */
  lemma WrittenAsAccumulated(f: Fold, es: seq<Event>, x: Exchange)
    requires Concat(f.writes) == f.acc
    ensures Concat(Run(f, es, x).writes) == Run(f, es, x).acc
  {
    RunText(f, es, x);
    ConcatAppend(f.writes, NonEmptyDeltas(es));
  }

  /** The captured response id is that of the last `response.created` event. */
  lemma {:induction false} RunResponseId(f: Fold, es: seq<Event>, x: Exchange)
    ensures Run(f, es, x).responseId == if LastCreated(es).Some? then LastCreated(es) else f.responseId
    decreases |es|
  {
    if es != [] {
      RunResponseId(f, es[..|es| - 1], x);
    }
  }

  /** Without a `response.completed` event nothing is stored and no file is relinked. */
  lemma {:induction false} NoCompletion(f: Fold, es: seq<Event>, x: Exchange)
    requires forall i :: 0 <= i < |es| ==> !es[i].Completed?
    ensures Run(f, es, x).messages == f.messages
    ensures Run(f, es, x).next == f.next
    ensures Run(f, es, x).files == f.files
    decreases |es|
  {
    if es != [] {
      NoCompletion(f, es[..|es| - 1], x);
    }
  }

  /** A stream that throws before any `response.completed` stores nothing, relinks
      nothing, and the failure sentinel is the last thing the client receives. */
  lemma FailedBeforeCompletion(messages: map<nat, Message>, next: nat, files: map<nat, ChatFile>, s: Stream, x: Exchange)
    requires s.fails
    requires forall i :: 0 <= i < |s.events| ==> !s.events[i].Completed?
    ensures var f := Run(Start(messages, next, files), s.events, x);
      f.messages == messages && f.next == next && f.files == files
    ensures |Transcript(s)| > 0 && Transcript(s)[|Transcript(s)| - 1] == FailureSentinel
  {
    NoCompletion(Start(messages, next, files), s.events, x);
  }

  /** Text exchanges only append: existing rows are kept as they were and new ids
      stay above the old ones. */
  lemma {:induction false} AppendOnly(f: Fold, es: seq<Event>, x: Exchange)
    requires Allocated(f.messages, f.next)
    ensures Allocated(Run(f, es, x).messages, Run(f, es, x).next)
    ensures Run(f, es, x).next >= f.next
    ensures forall id :: id in f.messages ==> id in Run(f, es, x).messages && Run(f, es, x).messages[id] == f.messages[id]
    decreases |es|
  {
    if es != [] {
      AppendOnly(f, es[..|es| - 1], x);
    }
  }

  /** One `response.completed` step: the user row at the next id, the assistant row
      right after it, the old rows untouched. */
  lemma CompletionStep(g: Fold, usage: Option<Usage>, x: Exchange)
    requires Allocated(g.messages, g.next)
    ensures var h := Step(g, Completed(usage), x);
      && h.next == g.next + 2
      && h.messages.Keys == g.messages.Keys + {g.next, g.next + 1}
      && g.next !in g.messages && g.next + 1 !in g.messages
      && (forall id :: id in g.messages ==> h.messages[id] == g.messages[id])
      && h.messages[g.next] == UserRow(x, usage)
      && h.messages[g.next + 1] == AssistantRow(x, g.acc, g.responseId, usage)
      && h.files == (if |x.filesId| > 0 then Relinked(g.files, x.filesId, g.next) else g.files)
  {
  }

  /** A stream with exactly one `response.completed`, at position k, stores exactly two
      rows: the user row (the prompt, no response id, done) at the next id, then the
      assistant row with the text of the deltas before k and the id of the last
      `response.created` before k. Both carry the request's parent, so the assistant
      row is the user row's sibling. Every requested file is linked to the user row. */
  lemma SingleCompletion(messages: map<nat, Message>, next: nat, files: map<nat, ChatFile>,
                         es: seq<Event>, k: nat, x: Exchange)
    requires Allocated(messages, next)
    requires k < |es| && es[k].Completed?
    requires forall i :: 0 <= i < |es| && i != k ==> !es[i].Completed?
    ensures var f := Run(Start(messages, next, files), es, x);
      && f.next == next + 2
      && f.messages.Keys == messages.Keys + {next, next + 1}
      && next !in messages && next + 1 !in messages
      && (forall id :: id in messages ==> f.messages[id] == messages[id])
      && f.messages[next] == UserRow(x, es[k].usage)
      && f.messages[next].role == UserRole && f.messages[next].content == x.prompt
      && f.messages[next].responseId == None && f.messages[next].isDone
      && f.messages[next + 1].role == AssistantRole
      && f.messages[next + 1].content == Concat(NonEmptyDeltas(es[..k]))
      && f.messages[next + 1].responseId == LastCreated(es[..k])
      && f.messages[next].parentId == x.parentId && f.messages[next + 1].parentId == x.parentId
      && f.files == (if |x.filesId| > 0 then Relinked(files, x.filesId, next) else files)
  {
    var f0 := Start(messages, next, files);
    var before := es[..k];
    CompletionOnlyAt(f0, es, k, x);
    var fb := Run(f0, before, x);
    RunText(f0, before, x);
    RunResponseId(f0, before, x);
    CompletionStep(fb, es[k].usage, x);
  }

  /** With one `response.completed`, at k, the tables end as that one step leaves
      them, applied to the tables as they were before the stream. */
  lemma {:induction false} CompletionOnlyAt(f: Fold, es: seq<Event>, k: nat, x: Exchange)
    requires k < |es| && es[k].Completed?
    requires forall i :: 0 <= i < |es| && i != k ==> !es[i].Completed?
    ensures var fb := Run(f, es[..k], x);
      && fb.messages == f.messages && fb.next == f.next && fb.files == f.files
      && Run(f, es, x).messages == Step(fb, es[k], x).messages
      && Run(f, es, x).next == Step(fb, es[k], x).next
      && Run(f, es, x).files == Step(fb, es[k], x).files
  {
    var before, after := es[..k], es[k + 1..];
    assert es == before + [es[k]] + after;
    assert forall i :: 0 <= i < |after| ==> after[i] == es[k + 1 + i];
    var fb := Run(f, before, x);
    NoCompletion(f, before, x);
    var fk := Step(fb, es[k], x);
    assert Run(fb, [es[k]], x) == fk by {
      assert [es[k]][..0] == [];
    }
    RunAppend(f, before, [es[k]], x);
    RunAppend(f, before + [es[k]], after, x);
    NoCompletion(fk, after, x);
  }

  /** The file rows `findMany` found and the caller's attachments among them turn into
      the request the relay sends. */
  function AttachedRequest(files: map<nat, ChatFile>, found: seq<nat>, caller: nat, x: Exchange,
                           previous: Option<string>): Request
    requires forall i :: 0 <= i < |found| ==> found[i] in files
  {
    BuildRequest(x.model, x.prompt, Attachments.ImageUrls(files, found, caller),
                 Attachments.VectorStores(files, found, caller),
                 x.useWebSearch, x.useReasoning, x.effort, previous)
  }

  /** The body of the `for await` loop for one event. */
  method Handle(db: Db, x: Exchange, e: Event, acc: string, responseId: Option<string>, writes: seq<string>)
    returns (acc': string, responseId': Option<string>, writes': seq<string>)
    requires db.Valid()
    modifies db.messages, db.files
    ensures db.Valid() && db.files.next == old(db.files.next)
    ensures Step(Fold(acc, responseId, writes, old(db.messages.rows), old(db.messages.next), old(db.files.rows)), e, x)
            == Fold(acc', responseId', writes', db.messages.rows, db.messages.next, db.files.rows)
  {
    acc', responseId', writes' := acc, responseId, writes;
    match e {
      case TextDelta(d) =>
        if d != "" {
          acc' := acc + d;
          writes' := writes + [d];
        }
      case Created(id) =>
        responseId' := Some(id);
      case Completed(usage) =>
        Complete(db, x, usage, acc, responseId);
      case OtherEvent =>
    }
  }

  /** The `response.completed` branch: the user row, the attachment links, then the
      assistant row. */
  method Complete(db: Db, x: Exchange, usage: Option<Usage>, acc: string, responseId: Option<string>)
    requires db.Valid()
    modifies db.messages, db.files
    ensures db.Valid() && db.files.next == old(db.files.next)
    ensures var n := old(db.messages.next);
      && db.messages.rows == old(db.messages.rows)[n := UserRow(x, usage)][n + 1 := AssistantRow(x, acc, responseId, usage)]
      && db.messages.next == n + 2
      && db.files.rows == (if |x.filesId| > 0 then Relinked(old(db.files.rows), x.filesId, n) else old(db.files.rows))
  {
    var userId := db.messages.Create(UserRow(x, usage));
    if |x.filesId| > 0 {
      db.files.UpdateWhere(map id | id in db.files.rows && id in x.filesId :: db.files.rows[id].(messageId := Some(userId)));
    }
    var _ := db.messages.Create(AssistantRow(x, acc, responseId, usage));
  }

  /** `ChatgptController.ask`. `previous` is the parent's response id, `found` what
      `findMany(filesId)` returns, `stream` what the provider delivers. */
  method Ask(db: Db, caller: nat, x: Exchange, previous: Option<string>, found: seq<nat>, stream: Stream)
    returns (request: Request, log: ClientLog)
    requires db.Valid()
    requires Attachments.FoundRows(db.files.rows, x.filesId, found)
    modifies db.messages, db.files
    ensures db.Valid() && db.files.next == old(db.files.next)
    ensures request == AttachedRequest(old(db.files.rows), found, caller, x, previous)
    ensures var f := Run(Start(old(db.messages.rows), old(db.messages.next), old(db.files.rows)), stream.events, x);
      db.messages.rows == f.messages && db.messages.next == f.next && db.files.rows == f.files
    ensures log.ended
    ensures log.writes == Transcript(stream)
  {
    var images, _, stores := Attachments.Split(db.files.rows, found, caller);
    request := BuildRequest(x.model, x.prompt, images, stores, x.useWebSearch, x.useReasoning, x.effort, previous);

    ghost var f0 := Start(db.messages.rows, db.messages.next, db.files.rows);
    var acc, responseId, writes := "", None, [];
    var i := 0;
    while i < |stream.events|
      invariant 0 <= i <= |stream.events|
      invariant db.Valid() && db.files.next == old(db.files.next)
      invariant Run(f0, stream.events[..i], x) == Fold(acc, responseId, writes, db.messages.rows, db.messages.next, db.files.rows)
    {
      assert stream.events[..i + 1][..i] == stream.events[..i];
      acc, responseId, writes := Handle(db, x, stream.events[i], acc, responseId, writes);
      i := i + 1;
    }
    assert stream.events[..i] == stream.events;
    RunText(f0, stream.events, x);
    if stream.fails {
      writes := writes + [FailureSentinel];
    }
    log := ClientLog(writes, true);
  }

  /** `ChatgptMessage.find(id)` for a nullable id. */
  function FindMessage(messages: map<nat, Message>, id: Option<nat>): (r: Option<nat>)
    ensures r.Some? <==> id.Some? && id.value in messages
    ensures r.Some? ==> r == id
  {
    if id.Some? && id.value in messages then id else None
  }

  function ResponseIdOf(messages: map<nat, Message>, parent: Option<nat>): Option<string>
    requires parent.Some? ==> parent.value in messages
  {
    if parent.Some? then messages[parent.value].responseId else None
  }

  datatype MessageBody = MessageBody(
    prompt: string,
    model: string,
    parentId: Option<nat>,
    useWebSearch: bool,
    useReasoning: bool,
    effort: Option<string>,
    filesId: seq<nat>)

  datatype Outcome = Streamed(request: Request, log: ClientLog) | Rejected(status: Status)

  /** The parent `messageConversation` hands to the relay: only looked up when given. */
  function BodyParent(messages: map<nat, Message>, body: MessageBody): Option<nat> {
    if Given(body.parentId) then FindMessage(messages, body.parentId) else None
  }

  function BodyExchange(convId: string, body: MessageBody, parent: Option<nat>): Exchange {
    Exchange(convId, body.model, body.prompt, body.useWebSearch, body.useReasoning, body.effort, body.filesId, parent)
  }

  /** `ChatgptController.messageConversation`: checks the request, sets the title of a
      first exchange, then relays. */
  method MessageConversation(db: Db, caller: nat, convId: string, body: MessageBody, found: seq<nat>, stream: Stream)
    returns (r: Outcome)
    requires db.Valid()
    requires Attachments.FoundRows(db.files.rows, body.filesId, found)
    modifies db.messages, db.files, db.conversations
    ensures db.Valid() && db.files.next == old(db.files.next)
    ensures body.prompt == "" || body.model == "" ==> r == Rejected(UnprocessableEntity)
    ensures body.prompt != "" && body.model != "" && convId !in old(db.conversations.rows) ==> r == Rejected(NotFound)
    ensures (body.prompt != "" && body.model != "" && convId in old(db.conversations.rows)
             && old(db.conversations.rows[convId].userId) != caller) ==> r == Rejected(Forbidden)
    ensures r.Rejected? ==> unchanged(db.messages, db.files, db.conversations)
    ensures r.Streamed? <==> body.prompt != "" && body.model != "" && convId in old(db.conversations.rows)
                             && old(db.conversations.rows[convId].userId) == caller
    ensures r.Streamed? ==>
      && db.conversations.rows == (if Given(body.parentId) then old(db.conversations.rows)
                                   else old(db.conversations.rows)[convId := old(db.conversations.rows[convId]).(title := Title(body.prompt))])
      && var parent := BodyParent(old(db.messages.rows), body);
         var x := BodyExchange(convId, body, parent);
         var f := Run(Start(old(db.messages.rows), old(db.messages.next), old(db.files.rows)), stream.events, x);
         && r.request == AttachedRequest(old(db.files.rows), found, caller, x, ResponseIdOf(old(db.messages.rows), parent))
         && db.messages.rows == f.messages && db.messages.next == f.next && db.files.rows == f.files
         && r.log == ClientLog(Transcript(stream), true)
  {
    if body.prompt == "" || body.model == "" {
      return Rejected(UnprocessableEntity);
    }
    if convId !in db.conversations.rows {
      return Rejected(NotFound);
    }
    var conversation := db.conversations.rows[convId];
    if conversation.userId != caller {
      return Rejected(Forbidden);
    }
    if !Given(body.parentId) {
      db.conversations.Save(convId, conversation.(title := Title(body.prompt)));
    }
    var parent := BodyParent(db.messages.rows, body);
    var request, log := Ask(db, caller, BodyExchange(convId, body, parent), ResponseIdOf(db.messages.rows, parent), found, stream);
    r := Streamed(request, log);
  }

  /** The rows `ChatgptFile.query().where('message_id', id)` returns, in the store's order. */
  ghost predicate LinkedRows(files: map<nat, ChatFile>, messageId: nat, linked: seq<nat>) {
    && (forall i :: 0 <= i < |linked| ==> linked[i] in files && files[linked[i]].messageId == Some(messageId))
    && (forall i, j :: 0 <= i < j < |linked| ==> linked[i] != linked[j])
    && (forall id :: id in files && files[id].messageId == Some(messageId) ==> id in linked)
  }

  /** The relay arguments `updateMessage` derives from the old message: a user message
      is re-asked with the new prompt and its files, any other with its own content and
      no files. */
  function ReaskExchange(messages: map<nat, Message>, m: Message, prompt: string, linked: seq<nat>): Exchange {
    if m.role == UserRole then
      Exchange(m.conversationId, m.model, prompt, m.useWebSearch, m.useReasoning, m.reasoningEffort, linked,
               if Given(m.parentId) then FindMessage(messages, m.parentId) else None)
    else
      Exchange(m.conversationId, m.model, m.content, m.useWebSearch, m.useReasoning, m.reasoningEffort, [],
               FindMessage(messages, m.parentId))
  }

  /** `ChatgptController.updateMessage`: a new exchange under the old message's parent;
      the old rows are left as they are. */
  method UpdateMessage(db: Db, caller: nat, messageId: nat, prompt: string, linked: seq<nat>, stream: Stream)
    returns (r: Outcome)
    requires db.Valid()
    requires LinkedRows(db.files.rows, messageId, linked)
    modifies db.messages, db.files
    ensures db.Valid() && db.files.next == old(db.files.next)
    ensures messageId !in old(db.messages.rows) ==> r == Rejected(NotFound)
    ensures messageId in old(db.messages.rows) && old(db.messages.rows[messageId].conversationId) !in db.conversations.rows
            ==> r == Rejected(NotFound)
    ensures r.Rejected? ==> unchanged(db.messages, db.files)
    ensures r.Streamed? <==> (messageId in old(db.messages.rows)
                             && old(db.messages.rows[messageId]).conversationId in db.conversations.rows
                             && db.conversations.rows[old(db.messages.rows[messageId]).conversationId].userId == caller
                             && (old(db.messages.rows[messageId]).role == UserRole ==> prompt != ""))
    ensures r.Streamed? ==>
      && messageId in old(db.messages.rows)
      && var m := old(db.messages.rows[messageId]);
         && m.conversationId in db.conversations.rows
         && db.conversations.rows[m.conversationId].userId == caller
         && (m.role == UserRole ==> prompt != "")
         && var x := ReaskExchange(old(db.messages.rows), m, prompt, linked);
            var f := Run(Start(old(db.messages.rows), old(db.messages.next), old(db.files.rows)), stream.events, x);
            && r.request == AttachedRequest(old(db.files.rows), x.filesId, caller, x, ResponseIdOf(old(db.messages.rows), x.parentId))
            && db.messages.rows == f.messages && db.messages.next == f.next && db.files.rows == f.files
            && r.log == ClientLog(Transcript(stream), true)
    ensures messageId in old(db.messages.rows) && old(db.messages.rows[messageId].conversationId) in db.conversations.rows ==>
      var m := old(db.messages.rows[messageId]);
      && (db.conversations.rows[m.conversationId].userId != caller ==> r == Rejected(Forbidden))
      && (db.conversations.rows[m.conversationId].userId == caller && m.role == UserRole && prompt == ""
          ==> r == Rejected(UnprocessableEntity))
  {
    if messageId !in db.messages.rows {
      return Rejected(NotFound);
    }
    var m := db.messages.rows[messageId];
    if m.conversationId !in db.conversations.rows {
      return Rejected(NotFound);
    }
    if db.conversations.rows[m.conversationId].userId != caller {
      return Rejected(Forbidden);
    }
    if m.role == UserRole && prompt == "" {
      return Rejected(UnprocessableEntity);
    }
    var x := ReaskExchange(db.messages.rows, m, prompt, linked);
    var request, log := Ask(db, caller, x, ResponseIdOf(db.messages.rows, x.parentId), x.filesId, stream);
    r := Streamed(request, log);
  }
}
