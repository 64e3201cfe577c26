# hube-app chat and account core, in Dafny

This project models the core of the hube-app backend: its chat controller, its two background jobs and the phone-code part of its user controller. The database tables are auto-increment maps: messages, files, verification codes and users. Conversations are a map keyed by the conversation's UUID. The job queue is the sequence of jobs dispatched so far. Every call into the provider, the file system, the SMS service, the clock or a random source becomes a parameter.

- `store.dfy` (module `Store`): the rows, the `Table` class (ids handed out from 1, never reused), the conversation table, the job queue and the `Db` object that holds them all.
- `text.dfy` (module `Text`): the conversation title taken from a prompt's first seven words, and decimal rendering of numbers.
- `attachments.dfy` (module `Attachments`): how a request's `filesId` becomes image URLs, image ids and vector-store ids.
- `relay.dfy` (module `Relay`): the streaming relay `ask`, modelled as a left fold over the provider's events, plus `messageConversation` and `updateMessage`.
- `image_request.dfy` (module `ImageRequest`): `generateImage` and `generateImageSora`.
- `image_job.dfy` (module `ImageJob`): the image job's `handle` and its compensating `rescue`.
- `file_job.dfy` (module `FileJob`): the file activation job's polling loop.
- `conversations.dfy` (module `Conversations`): read, list, share, delete, `fileStatus` and `message`.
- `upload.dfy` (module `Upload`): `uploadFile` and the rows it creates.
- `accounts.dfy` (module `Accounts`): the one-time codes and the auth, verify, register, forgot-password and reset-password endpoints.

Handlers that change tables are methods. Each one's `ensures` gives the new table contents in terms of pure functions of the old contents, and the lemmas prove the promised properties about those functions.

The model follows the code as written, including these behaviours a reader might not expect:
- `deleteConversation` answers 404 for every visible conversation. For an already hidden one it sets a flag that is already set, so it never changes anything.
- In edit mode the image job throws on every input image whose fetch succeeded. An edit run can only complete when every fetch came back not ok.
- The file job marks a file ready only when the store reports exactly one completed file.
- The title is set before the relay runs, whatever the stream then does.
- Message rows are written at the `response.completed` event. A failure after that event does not undo them.
- On completion, `ask` links every requested file id to the new user row, including files the caller does not own.
- `register` does not check whether a user already has the phone.

## Model

| member | source | states |
|---|---|---|
| Store.GivenOrNull | app/controllers/chatgpt_controller.ts:482 | the stored parent is present exactly when the request's id is present and non-zero, and then it is that id |
| Store.Relinked | app/controllers/chatgpt_controller.ts:314-316 | the files table keeps its ids; rows whose id is listed get the new message id, and all other rows are unchanged |
| Text.Split | app/controllers/chatgpt_controller.ts:367 | splitting on ' ' gives one piece more than the string has spaces, and no piece contains a space |
| Text.JoinSplit | app/controllers/chatgpt_controller.ts:367 | joining the split pieces with single spaces gives the original prompt back |
| Text.JoinTakeSplit | app/controllers/chatgpt_controller.ts:367 | joining the first n pieces is the prompt cut just before its n-th space |
| Text.BeforeNthSpaceShape | app/controllers/chatgpt_controller.ts:367 | that cut is a prefix of the prompt, holds min(spaces, n-1) spaces, and is followed by a space whenever it is shorter than the prompt |
| Text.Take | app/controllers/chatgpt_controller.ts:367 | `slice(0, n)` is a prefix of length min(n, length) |
| Text.Title | app/controllers/chatgpt_controller.ts:366-369 | the title ends in "..."; the part before is a prefix of the prompt with at most six spaces that stops just before a space or at the prompt's end |
| Text.Decimal | app/controllers/user_controller.ts:24 | a number renders as a non-empty string of decimal digits |
| Text.DecimalRoundTrip | app/controllers/user_controller.ts:24 | reading the rendered digits back gives the number |
| Text.DecimalInjective | app/jobs/generate_chatgpt_image_job.ts:68 | different numbers render differently, so different users get different directories |
| Text.FourDigits | app/controllers/user_controller.ts:24 | every number from 1000 to 9999 renders as exactly four characters |
| Attachments.Split | app/controllers/chatgpt_controller.ts:225-239 | the loop over the found rows produces exactly the image URLs, image ids and vector stores of the reference functions |
| Attachments.ImagesExactly | app/controllers/chatgpt_controller.ts:230-234 | an id is among the image ids iff it was found and is an image of the caller's; the URL at each position is that file's URL |
| Attachments.StoresExactly | app/controllers/chatgpt_controller.ts:234-236 | every listed vector store is that of a non-image file of the caller's, and every such file's store is listed |
| Relay.ImageParts | app/controllers/chatgpt_controller.ts:263-267 | one image part per URL, in the same order |
| Relay.BuildRequest | app/controllers/chatgpt_controller.ts:253-283 | web search is a tool iff requested; file search iff there are vector stores; the input is the bare prompt iff there are no images, else the prompt then one part per image in order; reasoning is sent iff requested, with the given effort |
| Relay.RunText | app/controllers/chatgpt_controller.ts:287-293 | after any events, the client has received exactly the non-empty deltas in order, and the accumulator is their concatenation |
| Relay.WrittenAsAccumulated | app/controllers/chatgpt_controller.ts:288-293 | what the client has seen always spells out the accumulated text |
| Relay.RunResponseId | app/controllers/chatgpt_controller.ts:294-295 | the captured response id is that of the last `response.created` event |
| Relay.NoCompletion | app/controllers/chatgpt_controller.ts:296-334 | without a `response.completed` event, no message row is created and no file is relinked |
| Relay.FailedBeforeCompletion | app/controllers/chatgpt_controller.ts:337-342 | a stream that throws before completion leaves both tables as they were, and the failure sentinel is the client's last write |
| Relay.AppendOnly | app/controllers/chatgpt_controller.ts:297-333 | a run keeps every existing message row unchanged and only allocates ids at or above the old next id |
| Relay.CompletionStep | app/controllers/chatgpt_controller.ts:296-333 | one completion adds exactly two rows at the next two ids: the user row, then the assistant row with the accumulated text and captured id; all the requested files are linked to the user row |
| Relay.CompletionOnlyAt | app/controllers/chatgpt_controller.ts:287-335 | with one completion at position k, the events before and after k do not touch the tables |
| Relay.SingleCompletion | app/controllers/chatgpt_controller.ts:296-333 | the user row holds the prompt, with no response id and done; the assistant row holds the deltas before k and the last created id before k; both rows carry the request's parent, so they are siblings |
| Relay.Handle | app/controllers/chatgpt_controller.ts:287-335 | one loop iteration over the tables does what the reference step function does to the fold; the files table's id counter is unchanged |
| Relay.Complete | app/controllers/chatgpt_controller.ts:296-333 | the completion branch creates the user row, relinks the files, then creates the assistant row; the files table's id counter is unchanged |
| Relay.Ask | app/controllers/chatgpt_controller.ts:212-343 | the request is built from the caller's attachments; the tables end as the fold of all events leaves them; the client gets the deltas, then the sentinel if the stream threw; the stream is always ended; the files table's id counter is unchanged |
| Relay.FindMessage | app/controllers/chatgpt_controller.ts:370 | a parent is found iff an id is given and names an existing row |
| Relay.MessageConversation | app/controllers/chatgpt_controller.ts:345-383 | 422 without prompt or model, 404 for a missing conversation, 403 for a non-owner, each changing nothing; otherwise the title is reset iff no parent id is given, and the relay runs with the parent's response id; the files table's id counter is unchanged |
| Relay.UpdateMessage | app/controllers/chatgpt_controller.ts:385-428 | 404 or 403 as the code orders them; it relays iff the message and its conversation exist, the caller owns the conversation and a user message comes with a new prompt (else 422); a user message is re-asked with its linked files; any other message is re-asked with its own content and no files, under its parent; the tables end as that relay run leaves them; the files table's id counter is unchanged |
| ImageRequest.ValidationError | app/controllers/chatgpt_controller.ts:438-447 | the body passes iff the prompt is non-empty, the size is one of the three sizes and the quality one of the three qualities; otherwise the message of the first failing check in that order |
| ImageRequest.ExchangeRowsShape | app/controllers/chatgpt_controller.ts:468-499 | the user row takes the next id and the placeholder the one after; the placeholder says "no_content", is not done, is an image and points at the user row; both rows carry the size and quality; no older row changes |
| ImageRequest.EditModeIffOwnedImage | app/controllers/chatgpt_controller.ts:452-507 | the job's mode is "edit" iff the caller owns one of the found image files, else "generate" |
| ImageRequest.CreatePair | app/controllers/chatgpt_controller.ts:468-499 | the two creates leave the messages table as the reference exchange rows |
| ImageRequest.CreateExchange | app/controllers/chatgpt_controller.ts:452-514 | answers the placeholder id, one past the user row; dispatches one job with the caller's image URLs; links the image files to the user row only when there are images; the files table's id counter is unchanged |
| ImageRequest.GenerateImage | app/controllers/chatgpt_controller.ts:430-524 | 422, then 404, then 403 before any row exists; on success the exchange, the job and the links as above, and the title reset iff no parent id is given; the files table's id counter is unchanged |
| ImageRequest.GenerateImageSora | app/controllers/chatgpt_controller.ts:544-636 | 422 on a bad body, else a new hidden private "Image Conversation" owned by the caller holding the exchange with no parent; the title is never touched; the files table's id counter is unchanged |
| ImageJob.GeneratedUrl | app/jobs/generate_chatgpt_image_job.ts:68-78 | the URL starts with the app URL, ends in ".png" and is never the placeholder text |
| ImageJob.Handle | app/jobs/generate_chatgpt_image_job.ts:32-86 | the run ends as the reference outcome says; on success only the placeholder changes, to the URL and done; on any throw the table is unchanged |
| ImageJob.EditNeedsFailedFetches | app/jobs/generate_chatgpt_image_job.ts:47-56 | an edit run that completes had every fetch not ok and with a body, because the guard rejects every successful fetch |
| ImageJob.ModeSelectsProvider | app/jobs/generate_chatgpt_image_job.ts:39-65 | "generate" uses only the generate answer; any other mode uses only the fetches and the edit answer |
| ImageJob.DoneExactly | app/jobs/generate_chatgpt_image_job.ts:33-85 | a run completes iff the row exists, the chosen provider call returns data whose first item has an image, and, for an edit, no fetch was rejected |
| ImageJob.RescueIds | app/jobs/generate_chatgpt_image_job.ts:93 | the ids deleted are exactly messageId and messageId - 1 |
| ImageJob.Rescue | app/jobs/generate_chatgpt_image_job.ts:91-95 | deletes those two ids and nothing else |
| ImageJob.RescueUndoesExchange | app/jobs/generate_chatgpt_image_job.ts:91-95 | for the placeholder id an image request returns, the row at messageId - 1 is the placeholder's parent, and the rescue gives back the messages table from before the request |
| FileJob.PollFirstTerminal | app/jobs/activate_chatgpt_file_job.ts:20-36 | polling ends iff some observation is terminal; then the first terminal one decides: a throw, failed > 0 (checked first), or completed == 1 |
| FileJob.PollIgnoresLater | app/jobs/activate_chatgpt_file_job.ts:20-36 | observations after the loop has ended make no difference |
| FileJob.Handle | app/jobs/activate_chatgpt_file_job.ts:19-37 | the loop's result is the reference poll; only an activation with an existing row changes it, setting isReady to true; a missing row ends the loop with no change |
| FileJob.Rescue | app/jobs/activate_chatgpt_file_job.ts:42 | the files table is unchanged, so a failed file stays not ready |
| Conversations.InConversation | app/controllers/chatgpt_controller.ts:181-184 | the listed ids are strictly ascending and each is a message of the conversation |
| Conversations.InConversationComplete | app/controllers/chatgpt_controller.ts:181-184 | no message of the conversation in the range is missing |
| Conversations.ConversationMessages | app/controllers/chatgpt_controller.ts:181-184 | exactly the conversation's messages, oldest first |
| Conversations.ReadConversation | app/controllers/chatgpt_controller.ts:170-191 | readable iff it exists, is not hidden, and is public or the caller's; a missing one is 404, a hidden one is 404 for everyone, and a private one is 403 for others; a read gives all its messages oldest first and whether the caller owns it |
| Conversations.ShareConversation | app/controllers/chatgpt_controller.ts:35-50 | 404 if missing or hidden, 403 for a non-owner, each changing nothing; else only isPublic becomes true |
| Conversations.ShareMakesReadable | app/controllers/chatgpt_controller.ts:41-45 | after its owner shares it, every caller can read it and only the owner is told they own it |
| Conversations.SharedIdempotent | app/controllers/chatgpt_controller.ts:44-45 | sharing touches no other conversation, and sharing twice is sharing once |
| Conversations.DeleteConversation | app/controllers/chatgpt_controller.ts:52-67 | 404 for a missing or visible conversation, 403 for a hidden one of someone else's, success only for a hidden one of the caller's, and the table never changes |
| Conversations.Page | app/controllers/chatgpt_controller.ts:197-204 | no page means page 1; a page below 1 fails; page p holds the up to 20 entries from position 20(p-1), in order |
| Conversations.ListConversations | app/controllers/chatgpt_controller.ts:193-210 | fails exactly when the page fails; otherwise the conversations at the positions the page picks from the caller's newest-first list, in order: at most 20, all the caller's and none hidden |
| Conversations.EachOnOnePage | app/controllers/chatgpt_controller.ts:203-204 | the entry at position i is on page i/20 + 1 and on no other page |
| Conversations.PagesTile | app/controllers/chatgpt_controller.ts:203-204 | pages 1..n, one after the other, are the first 20n entries |
| Conversations.FileStatus | app/controllers/chatgpt_controller.ts:161-168 | 404 for a missing file, 403 for someone else's, else its readiness |
| Conversations.ReadMessage | app/controllers/chatgpt_controller.ts:526-538 | a message is shown iff it and its conversation exist and the caller owns the conversation, hidden or not |
| Upload.ErrorText | app/controllers/chatgpt_controller.ts:126 | the error text is the failure's message, or the default text when that is empty; it is never empty |
| Upload.UploadUrlsSeparateUsers | app/controllers/chatgpt_controller.ts:86-110 | two uploads with the same URL belong to the same user |
| Upload.NewRowsWellShaped | app/controllers/chatgpt_controller.ts:106-151 | a document row has an expiry exactly 12 hours out and a vector store; an image row is ready, has no expiry and no store |
| Upload.RelinkedWellShaped | app/controllers/chatgpt_controller.ts:513 | linking files to a message keeps every row well shaped |
| Upload.UploadFile | app/controllers/chatgpt_controller.ts:69-159 | validation failure is 422; the document branch comes first (500 without a temp path or on a failure, else a not-ready document row and one activation job for it); then the image branch (500 on failure, else a ready image row and no job); with neither part, 422; every failure changes nothing; on success the files counter advances by exactly one |
| Accounts.Latest | app/controllers/user_controller.ts:10-13 | the newest code row for the phone: it has the phone, and no later row does |
| Accounts.LatestBelow | app/controllers/user_controller.ts:53-56 | only the rows below the bound decide the newest code |
| Accounts.OtherPhoneUnaffected | app/controllers/user_controller.ts:53-56 | a new code for one phone does not change which code is newest for another phone |
| Accounts.LatestOtherPhone | app/controllers/user_controller.ts:136 | removing rows of other phones does not change a phone's newest code |
| Accounts.NewCode | app/controllers/user_controller.ts:24 | the code lies in 1000..9999 |
| Accounts.NewCodeFourDigits | app/controllers/user_controller.ts:24 | the stored code is four digits that read back as the number |
| Accounts.SendCode | app/controllers/user_controller.ts:9-50 | refused with the wait message iff the newest code is under three minutes old, changing nothing; otherwise exactly one row is added holding the phone, the code and the time |
| Accounts.CooldownAfterSend | app/controllers/user_controller.ts:15-21 | right after a code is sent, another send is refused iff less than three minutes have passed |
| Accounts.CheckCode | app/controllers/user_controller.ts:52-74 | accepted iff the newest code exists, is at most 15 minutes old (exactly 15 passes) and matches; no code at all gives the retry message; an expired code gives the expiry message whatever was typed, and a fresh code that does not match gives the wrong-code message |
| Accounts.OnlyNewestCodeAccepted | app/controllers/user_controller.ts:53-71 | after a new code is sent, that code alone is accepted within 15 minutes; any other is wrong, and past 15 minutes it is expired whatever is given |
| Accounts.PhoneRows | app/controllers/user_controller.ts:136 | exactly the code rows of the phone |
| Accounts.DeletedCodesRefused | app/controllers/user_controller.ts:136 | once a phone's codes are deleted no code for it is accepted, and other phones are unaffected |
| Accounts.FindByPhone | app/controllers/user_controller.ts:81 | the first user row with the phone, or none when no row has it |
| Accounts.Auth | app/controllers/user_controller.ts:76-90 | 422 without a phone; a known phone gives login and stores nothing; otherwise it sends a code (400 while cooling down) and gives register; a sent code advances the codes counter by exactly one |
| Accounts.VerifyEndpoint | app/controllers/user_controller.ts:112-124 | 422 without phone or code; otherwise accepted iff the code check passes, with the check's message on 400; nothing is stored |
| Accounts.Register | app/controllers/user_controller.ts:126-147 | 422 unless all four fields are given, 400 on a failed code check, each changing nothing; on success all the phone's codes are deleted and one user with a 500000 wallet is created; the users counter advances by one and the codes counter is unchanged |
| Accounts.ForgotPassword | app/controllers/user_controller.ts:149-159 | 422 without a phone, 400 while cooling down, else exactly one code row added; a sent code advances the codes counter by exactly one |
| Accounts.ResetPassword | app/controllers/user_controller.ts:161-183 | 422 or 400 before any change; after a good code check the phone's codes are deleted even when no user has the phone (then 422); otherwise only that user's password changes; neither the codes counter nor the users counter changes |

## Left out

- Provider, file-system, object-storage and SMS calls are not modelled. Their results are parameters: a stream of events, image results, fetch responses, an `Option` failure message and vector-store counts.
- HTTP headers, authentication and the access token `register` and `resetPassword` return are not modelled. The token is a foreign call, so these endpoints answer the new or updated user's id. `login`, `logout` and `user` are not part of this model.
- The file rows carry `isReady` and `isExpired` as the migration creates those columns. The file model class does not declare them, and the model assumes they are stored and read back like the declared columns.
- Password hashing is not modelled. It happens in a model hook outside the core, so passwords are stored as given.
- The job queue's delivery, retries and concurrent workers are not modelled. One run of `handle` and one call of `rescue` are modelled separately.
- Concurrency between requests is not modelled, nor database errors thrown by `create`, `save` or `update`. A throw inside the relay's loop after a row was created is not modelled.
- `createConversation`, `messageTTS` and `transcribe` are not part of this model.
- Relay.Ask: what `findMany` returns is a parameter constrained to every requested row that exists, each once. Its order is the store's.
- Relay.UpdateMessage: the rows of `where('message_id', …)` are a parameter constrained the same way, and the `findMany` inside the relay is taken to return them in that same order.
- Conversations.ReadConversation: `orderBy('created_at', 'asc')` is modelled as id order, assuming the clock never goes backwards. Rows with the same `created_at`, such as the two rows one request writes, are ordered by id; the database does not promise that order. The message view holds message ids; the preloaded files are not modelled.
- Conversations.ListConversations: the `created_at desc` order is a parameter constrained to newest first, with ties in any order. `parseInt` giving NaN is not modelled. A page below 1 is modelled as a failure, because the query builder refuses a negative offset.
- Accounts.Latest: `orderBy('created_at', 'desc').first()` is modelled as the highest id, assuming the clock never goes backwards.
- Accounts.FindByPhone: `findBy` is modelled as the lowest id with the phone.
- Accounts.NewCode: the code is computed over the reals, not IEEE doubles.
- Upload.UploadFile: the validator's own error texts are not modelled and answer an empty message. The extension check is exact membership.
- Upload.UploadFile: the list of failure points inside each branch is collapsed into one failure parameter. Every failure answers 500 and stores nothing.
- FileJob.Handle: the three-second sleep and the unbounded loop are modelled over a finite sequence of observations. A sequence with no terminal observation ends as still polling.
- Errors from `findOrFail` answer 404 with an empty message, because the framework writes that text.
