/** The rows, tables and job queue every component works over.
    Each table is an auto-increment table: ids are handed out in order from 1 and
    never reused, which is what the compensating delete of the image job relies on. */
module Store {

  datatype Option<T> = None | Some(value: T)

  datatype Role = UserRole | AssistantRole
  datatype MessageKind = TextMessage | ImageMessage
  /** The 'image' and 'file' kinds of an uploaded file. */
  datatype FileKind = ImageFile | DocumentFile

  /** A row of the messages table (the audio column is never written by the core). */
  datatype Message = Message(
    conversationId: string,
    model: string,
    role: Role,
    content: string,
    tokensCount: int,
    responseId: Option<string>,
    useWebSearch: bool,
    useReasoning: bool,
    reasoningEffort: Option<string>,
    imageSize: Option<string>,
    imageQuality: Option<string>,
    isDone: bool,
    kind: MessageKind,
    parentId: Option<nat>)

  /** A row of the uploaded-files table; times are milliseconds. */
  datatype ChatFile = ChatFile(
    userId: nat,
    messageId: Option<nat>,
    url: string,
    size: int,
    kind: FileKind,
    expiresAt: Option<int>,
    vectorStore: Option<string>,
    isReady: bool,
    isExpired: bool)

  datatype Conversation = Conversation(
    userId: nat,
    title: string,
    isHidden: bool,
    isPublic: bool,
    createdAt: int)

  /** A one-time code sent to a phone number. */
  datatype Verify = Verify(phone: string, code: string, createdAt: int)

  datatype User = User(name: string, phone: string, password: string, wallet: int)

  /** The HTTP error categories the handlers answer with: 422, 403, 404, 400 and 500. */
  datatype Status = UnprocessableEntity | Forbidden | NotFound | BadRequest | InternalServerError

  datatype Reply<T> = Ok(value: T) | Fail(status: Status, error: string)

  /** A request field the handlers test with `!x`: absent, null and 0 are all falsy. */
  predicate Given(id: Option<nat>) {
    id.Some? && id.value != 0
  }

  /** The value `x ? x : null` takes for a falsy-or-id request field. */
  function GivenOrNull(id: Option<nat>): (r: Option<nat>)
    ensures r.Some? <==> Given(id)
    ensures r.Some? ==> r == id
  {
    if Given(id) then id else None
  }

  /** Every id in use was handed out before `next`; ids start at 1. */
  ghost predicate Allocated<T>(rows: map<nat, T>, next: nat) {
    1 <= next && forall id :: id in rows ==> 1 <= id < next
  }

  /** The files table after `whereIn('id', ids).update({ messageId: mid })`. */
  function Relinked(files: map<nat, ChatFile>, ids: seq<nat>, mid: nat): (r: map<nat, ChatFile>)
    ensures r.Keys == files.Keys
    ensures forall id :: id in files && id in ids ==> r[id] == files[id].(messageId := Some(mid))
    ensures forall id :: id in files && id !in ids ==> r[id] == files[id]
  {
    files + map id | id in files && id in ids :: files[id].(messageId := Some(mid))
  }

  /** An auto-increment table. */
  class Table<T> {
    var rows: map<nat, T>
    var next: nat

    ghost predicate Valid()
      reads this
    {
      Allocated(rows, next)
    }

    constructor ()
      ensures Valid() && rows == map[] && next == 1
    {
      rows := map[];
      next := 1;
    }

    /** `Model.create(row)`: the row gets the next id. */
    method Create(row: T) returns (id: nat)
      requires Valid()
      modifies this
      ensures Valid()
      ensures id == old(next) && id !in old(rows)
      ensures rows == old(rows)[id := row] && next == old(next) + 1
    {
      id := next;
      rows := rows[id := row];
      next := next + 1;
    }

    /** `row.save()` after assigning some of its fields. */
    method Save(id: nat, row: T)
      requires Valid() && id in rows
      modifies this
      ensures Valid()
      ensures rows == old(rows)[id := row] && next == old(next)
    {
      rows := rows[id := row];
    }

    /** A bulk `query().whereIn(...).update(...)`: the changed rows replace the old ones. */
    method UpdateWhere(changed: map<nat, T>)
      requires Valid() && changed.Keys <= rows.Keys
      modifies this
      ensures Valid()
      ensures rows == old(rows) + changed && next == old(next)
    {
      rows := rows + changed;
    }

    /** A bulk `query().where(...).delete()`. */
    method DeleteWhere(ids: set<nat>)
      requires Valid()
      modifies this
      ensures Valid()
      ensures rows == old(rows) - ids && next == old(next)
    {
      rows := rows - ids;
    }
  }

  /** Conversations are keyed by a random UUID chosen at creation. */
  class ConversationTable {
    var rows: map<string, Conversation>

    constructor ()
      ensures rows == map[]
    {
      rows := map[];
    }

    method Create(id: string, c: Conversation)
      requires id !in rows
      modifies this
      ensures rows == old(rows)[id := c]
    {
      rows := rows[id := c];
    }

    method Save(id: string, c: Conversation)
      requires id in rows
      modifies this
      ensures rows == old(rows)[id := c]
    {
      rows := rows[id := c];
    }
  }

  datatype ImagePayload = ImagePayload(
    model: string,
    prompt: string,
    quality: string,
    size: string,
    messageId: nat,
    userId: nat,
    mode: string,
    inputImages: seq<string>)

  datatype FilePayload = FilePayload(vectorStoreId: string, fileId: nat)

  datatype Job = ActivateFile(file: FilePayload) | GenerateImage(image: ImagePayload)

  /** The durable queue, seen as the sequence of jobs dispatched so far. */
  class JobQueue {
    var jobs: seq<Job>

    constructor ()
      ensures jobs == []
    {
      jobs := [];
    }

    method Dispatch(job: Job)
      modifies this
      ensures jobs == old(jobs) + [job]
    {
      jobs := jobs + [job];
    }
  }

  /** The whole persistent state: one object per table, and the queue. */
  class Db {
    const messages: Table<Message>
    const files: Table<ChatFile>
    const conversations: ConversationTable
    const verifies: Table<Verify>
    const users: Table<User>
    const queue: JobQueue

    ghost predicate Valid()
      reads messages, files, verifies, users
    {
      messages.Valid() && files.Valid() && verifies.Valid() && users.Valid()
    }

    constructor ()
      ensures Valid()
      ensures messages.rows == map[] && files.rows == map[] && conversations.rows == map[]
      ensures verifies.rows == map[] && users.rows == map[] && queue.jobs == []
    {
      messages := new Table<Message>();
      files := new Table<ChatFile>();
      conversations := new ConversationTable();
      verifies := new Table<Verify>();
      users := new Table<User>();
      queue := new JobQueue();
    }
  }
}
