/**
 * The ingestion of chat exports (backend/services/file_processor.py) as pure
 * functions over a value of the whole state: the database session's pending
 * rows and the `stats` record. The imperative methods in module FileProcessor
 * are proved to change their objects exactly as these functions say; the
 * properties of ingestion are proved about these functions in module
 * IngestProperties.
 *
 * A Python exception is a returned `Some(e)`; the state returned with it is the
 * state at the moment of the raise, because the upload endpoint commits the
 * session after processing whatever happened.
 */
module IngestModel {
  import opened Wrappers
  import opened PyJson
  import opened PyText

  /**
   * A parsed datetime: its instant, and whether it carries a UTC offset.
   * `datetime.utcfromtimestamp` gives a naive value; `fromisoformat` gives an
   * aware one exactly when the text names an offset.
   */
  datatype Stamp = Stamp(instant: int, aware: bool)

  /**
   * The library calls the ingestion code makes that the model leaves abstract:
   * CPython's `str()` of floats, lists and dicts, `datetime.utcfromtimestamp`
   * (None where it raises) and `datetime.fromisoformat` (None where it raises).
   */
  datatype Builtins = Builtins(
    render: Json -> string,
    fromTimestamp: Json -> Option<int>,
    fromIsoFormat: string -> Option<Stamp>)

  datatype ConversationRow = ConversationRow(
    userId: string,
    externalId: Option<string>,
    title: Json,
    provider: string,
    sourceFile: string,
    messageCount: nat,
    wordCount: nat,
    firstMessageDate: Option<Stamp>,
    lastMessageDate: Option<Stamp>)

  /** A message row; `conversation` is the index of its conversation row. */
  datatype MessageRow = MessageRow(
    userId: string,
    conversation: nat,
    externalId: Option<string>,
    role: Json,
    content: string,
    wordCount: nat,
    timestamp: Option<Stamp>)

  datatype Store = Store(conversations: seq<ConversationRow>, messages: seq<MessageRow>)

  datatype StatsValue = StatsValue(
    conversationsProcessed: nat,
    messagesProcessed: nat,
    filesProcessed: seq<string>,
    errors: seq<string>)

  datatype World = World(store: Store, stats: StatsValue)

  const EmptyStats := StatsValue(0, 0, [], [])

  // ---------------------------------------------------------------------------
  // Content, role, identifiers and timestamps of one message

  /** `str(x) for x in items` */
  function StrEach(items: seq<Json>, render: Json -> string): (r: seq<string>)
    ensures |r| == |items|
    ensures forall k :: 0 <= k < |items| ==> r[k] == PyStr(items[k], render)
  {
    if items == [] then [] else [PyStr(items[0], render)] + StrEach(items[1..], render)
  }

  /** `" ".join(str(x) for x in items)` */
  function StrJoin(items: seq<Json>, render: Json -> string): string
  {
    JoinSpace(StrEach(items, render))
  }

  /** `msg.get("content") or msg.get("text") or msg.get("parts", "")` */
  function ContentSource(msg: seq<(string, Json)>): (v: Json)
    ensures Truthy(Get(msg, "content")) ==> v == Get(msg, "content")
    ensures !Truthy(Get(msg, "content")) && Truthy(Get(msg, "text")) ==> v == Get(msg, "text")
    ensures !Truthy(Get(msg, "content")) && !Truthy(Get(msg, "text")) ==> v == GetOr(msg, "parts", Str(""))
  {
    Or(Or(Get(msg, "content"), Get(msg, "text")), GetOr(msg, "parts", Str("")))
  }

  /** `FileProcessor._extract_message_content` */
  function ExtractMessageContent(msg: seq<(string, Json)>, b: Builtins): (r: Result<string, PyException>)
    ensures ContentSource(msg).Str? ==> r == Ok(ContentSource(msg).sval)
    ensures r.Err? <==>
      (ContentSource(msg).Object? && Has(ContentSource(msg).fields, "parts")
       && Iterate(Get(ContentSource(msg).fields, "parts")).Err?)
  {
    var content := ContentSource(msg);
    match content
    case Object(f) =>
      if Has(f, "parts") then
        match Iterate(Get(f, "parts"))
        case Ok(parts) => Ok(StrJoin(parts, b.render))
        case Err(e) => Err(e)
      else Ok(PyStr(GetOr(f, "text", Str("")), b.render))
    case Array(items) => Ok(StrJoin(items, b.render))
    case _ => Ok(PyStr(content, b.render))
  }

  /** The role as read: `author.role` when `author` is a dict, else `role`; then `or ""`. */
  function MessageRole(msg: seq<(string, Json)>): Json
  {
    var author := Get(msg, "author");
    Or(if author.Object? then Get(author.fields, "role") else Get(msg, "role"), Str(""))
  }

  /** The role written to the row: `role or "assistant"`. */
  function StoredRole(msg: seq<(string, Json)>): (r: Json)
    ensures Truthy(r)
    ensures Truthy(MessageRole(msg)) ==> r == MessageRole(msg)
    ensures !Truthy(MessageRole(msg)) ==> r == Str("assistant")
  {
    Or(MessageRole(msg), Str("assistant"))
  }

  /** `str(msg.get("id")) if msg.get("id") else None` */
  function MessageExternalId(msg: seq<(string, Json)>, render: Json -> string): Option<string>
  {
    if Truthy(Get(msg, "id")) then Some(PyStr(Get(msg, "id"), render)) else None
  }

  /**
   * The parsed timestamp of a message: `create_time or timestamp`; a number
   * (bool included, as `isinstance(x, (int, float))` admits it) goes through
   * `utcfromtimestamp`, a string through `fromisoformat` after every "Z" is
   * replaced by "+00:00"; anything else, and any parse failure, is None.
   */
  function ParseTimestamp(msg: seq<(string, Json)>, b: Builtins): (r: Option<Stamp>)
    ensures r.Some? && Or(Get(msg, "create_time"), Get(msg, "timestamp")).Str? ==>
      r == b.fromIsoFormat(ReplaceChar(Or(Get(msg, "create_time"), Get(msg, "timestamp")).sval, 'Z', "+00:00"))
    ensures r.Some? && !Or(Get(msg, "create_time"), Get(msg, "timestamp")).Str? ==> !r.value.aware
  {
    var createTime := Or(Get(msg, "create_time"), Get(msg, "timestamp"));
    match createTime
    case Bool(_) => NaiveStamp(b.fromTimestamp(createTime))
    case Int(_) => NaiveStamp(b.fromTimestamp(createTime))
    case Float(_) => NaiveStamp(b.fromTimestamp(createTime))
    case Str(s) => b.fromIsoFormat(ReplaceChar(s, 'Z', "+00:00"))
    case _ => None
  }

  function NaiveStamp(seconds: Option<int>): (r: Option<Stamp>)
    ensures r.Some? <==> seconds.Some?
    ensures r.Some? ==> r.value == Stamp(seconds.value, false)
  {
    match seconds
    case Some(i) => Some(Stamp(i, false))
    case None => None
  }

  /** Python's `a < b` on datetimes: a TypeError when one is naive and the other aware. */
  function Less(a: Stamp, b: Stamp): (r: Result<bool, PyException>)
    ensures r.Err? <==> a.aware != b.aware
    ensures r.Ok? ==> (r.value <==> a.instant < b.instant)
  {
    if a.aware != b.aware then Err(NaiveAwareComparison) else Ok(a.instant < b.instant)
  }

  /**
   * `if first_dt is None or ts < first_dt: first_dt = ts` followed by
   * `if last_dt is None or ts > last_dt: last_dt = ts`.
   */
  function UpdateBounds(first: Option<Stamp>, last: Option<Stamp>, t: Stamp)
    : Result<(Option<Stamp>, Option<Stamp>), PyException>
  {
    var lowered :=
      if first.None? then Ok(true)
      else Less(t, first.value);
    match lowered
    case Err(e) => Err(e)
    case Ok(lower) =>
      var first' := if lower then Some(t) else first;
      var raised :=
        if last.None? then Ok(true)
        else Less(last.value, t);
      match raised
      case Err(e) => Err(e)
      case Ok(raise) => Ok((first', if raise then Some(t) else last))
  }

  // ---------------------------------------------------------------------------
  // The message loop of one ChatGPT conversation

  /**
   * The state the message loop changes: `stats["messages_processed"]` and the
   * session's message rows (both outlive the loop), and the locals
   * `conv_message_count`, `conv_word_count`, `first_dt`, `last_dt`.
   */
  datatype Pass = Pass(
    processed: nat,
    rows: seq<MessageRow>,
    count: nat,
    words: nat,
    first: Option<Stamp>,
    last: Option<Stamp>)

  /** `conv` is the index of the conversation row, present exactly when a db is attached. */
  datatype MessageContext = MessageContext(userId: string, conv: Option<nat>, b: Builtins)

  function MessageRowFor(msg: seq<(string, Json)>, content: string, ctx: MessageContext, c: nat): MessageRow
  {
    MessageRow(ctx.userId, c, MessageExternalId(msg, ctx.b.render), StoredRole(msg), content,
               WordCount(content), ParseTimestamp(msg, ctx.b))
  }

  /** One iteration of `for msg_data in messages`. */
  function MessageStep(p: Pass, msg: Json, ctx: MessageContext): (Pass, Option<PyException>)
  {
    if !msg.Object? then (p, None)
    else
      match ExtractMessageContent(msg.fields, ctx.b)
      case Err(e) => (p, Some(e))
      case Ok(content) =>
        if content == "" then (p, None)
        else
          var p1 := p.(processed := p.processed + 1, count := p.count + 1,
                       words := p.words + WordCount(content));
          MessageStepFromContent(p1, msg.fields, content, ctx)
  }

  /** The rest of a counted message: with a session, its row and the date bounds. */
  function MessageStepFromContent(p1: Pass, msg: seq<(string, Json)>, content: string, ctx: MessageContext)
    : (Pass, Option<PyException>)
  {
    match ctx.conv
    case None => (p1, None)
    case Some(c) =>
      var row := MessageRowFor(msg, content, ctx, c);
      match row.timestamp
      case None => (p1.(rows := p1.rows + [row]), None)
      case Some(t) =>
        match UpdateBounds(p1.first, p1.last, t)
        case Err(e) => (p1, Some(e))
        case Ok(bounds) => (p1.(first := bounds.0, last := bounds.1, rows := p1.rows + [row]), None)
  }

  function RunMessages(p: Pass, msgs: seq<Json>, ctx: MessageContext): (Pass, Option<PyException>)
    decreases |msgs|
  {
    if msgs == [] then (p, None)
    else
      var before := RunMessages(p, msgs[..|msgs| - 1], ctx);
      if before.1.Some? then before
      else MessageStep(before.0, msgs[|msgs| - 1], ctx)
  }

  // ---------------------------------------------------------------------------
  // Conversations

  /**
   * The messages of a conversation: its `messages` when that is a non-empty
   * list; otherwise, when `mapping` is a dict, the dict-valued `message` of
   * every dict node in mapping order; otherwise none.
   */
  function MessageSource(conv: seq<(string, Json)>): seq<Json>
  {
    var messages := GetOr(conv, "messages", Array([]));
    if messages.Array? && messages.items != [] then messages.items
    else
      var mapping := Get(conv, "mapping");
      if mapping.Object? then FlattenMapping(mapping.fields) else []
  }

  /** `[node["message"] for node in mapping.values() if node and its message are dicts]` */
  function FlattenMapping(nodes: seq<(string, Json)>): (r: seq<Json>)
    ensures forall k :: 0 <= k < |r| ==> r[k].Object?
  {
    if nodes == [] then []
    else
      var node := nodes[0].1;
      var msg := if node.Object? then Get(node.fields, "message") else Null;
      (if msg.Object? then [msg] else []) + FlattenMapping(nodes[1..])
  }

  /** `conv_data.get("id") or conv_data.get("conversation_id")` */
  function ConversationExternalId(conv: seq<(string, Json)>): Json
  {
    Or(Get(conv, "id"), Get(conv, "conversation_id"))
  }

  /** `conv_data.get("title", "") or "Untitled"` */
  function ConversationTitle(conv: seq<(string, Json)>): (t: Json)
    ensures Truthy(t)
  {
    Or(GetOr(conv, "title", Str("")), Str("Untitled"))
  }

  predicate IsMatch(row: ConversationRow, userId: string, key: string)
  {
    row.userId == userId && row.externalId == Some(key) && row.provider == "chatgpt"
  }

  /** The rows the lookup `user_id == u, external_id == key, provider == "chatgpt"` returns. */
  function MatchingRows(rows: seq<ConversationRow>, userId: string, key: string): (r: seq<nat>)
    ensures forall i :: 0 <= i < |r| ==> r[i] < |rows|
    ensures forall k: nat :: k in r <==> k < |rows| && IsMatch(rows[k], userId, key)
    ensures forall i, j :: 0 <= i < j < |r| ==> r[i] < r[j]
    decreases |rows|
  {
    if rows == [] then []
    else
      var init := MatchingRows(rows[..|rows| - 1], userId, key);
      if IsMatch(rows[|rows| - 1], userId, key) then init + [|rows| - 1] else init
  }

  function NewConversationRow(userId: string, externalId: Json, title: Json, render: Json -> string): ConversationRow
  {
    ConversationRow(userId, if Truthy(externalId) then Some(PyStr(externalId, render)) else None,
                    title, "chatgpt", "conversations.json", 0, 0, None, None)
  }

  /**
   * Find-or-create of the conversation row: `scalar_one_or_none()` raises on
   * two or more matches; no match appends a new row; one match has its title
   * replaced when the new title is truthy and differs. Yields the rows and the
   * index of the conversation's row.
   */
  function FindOrCreate(rows: seq<ConversationRow>, userId: string, externalId: Json, title: Json,
                        render: Json -> string): (r: Result<(seq<ConversationRow>, nat), PyException>)
    ensures r.Ok? ==> r.value.1 < |r.value.0|
  {
    var found := MatchingRows(rows, userId, PyStr(externalId, render));
    if |found| > 1 then Err(MultipleResultsFound)
    else if found == [] then
      Ok((rows + [NewConversationRow(userId, externalId, title, render)], |rows|))
    else
      var k := found[0];
      assert k in found;
      if Truthy(title) && rows[k].title != title then Ok((rows[k := rows[k].(title := title)], k))
      else Ok((rows, k))
  }

  /** The aggregate update after the message loop. */
  function Aggregate(row: ConversationRow, p: Pass): ConversationRow
  {
    row.(messageCount := row.messageCount + p.count,
         wordCount := row.wordCount + p.words,
         firstMessageDate := if row.firstMessageDate.Some? then row.firstMessageDate else p.first,
         lastMessageDate := if p.last.Some? then p.last else row.lastMessageDate)
  }

  /** Everything after the find-or-create: the message check, the loop and the aggregates. */
  function ConversationMessages(w: World, conv: seq<(string, Json)>, row: Option<nat>, userId: string,
                                b: Builtins): (World, Option<PyException>)
    requires row.Some? ==> row.value < |w.store.conversations|
  {
    var msgs := MessageSource(conv);
    if msgs == [] then (w, None)
    else
      var stats := w.stats.(conversationsProcessed := w.stats.conversationsProcessed + 1);
      var p0 := Pass(stats.messagesProcessed, w.store.messages, 0, 0, None, None);
      var run := RunMessages(p0, msgs, MessageContext(userId, row, b));
      var p := run.0;
      var w' := World(w.store.(messages := p.rows), stats.(messagesProcessed := p.processed));
      if run.1.Some? || row.None? then (w', run.1)
      else
        var k := row.value;
        (w'.(store := w'.store.(conversations := w'.store.conversations[k := Aggregate(w'.store.conversations[k], p)])), None)
  }

  /** One iteration of the conversation loop of `_process_chatgpt_json`. */
  function ChatgptConversation(w: World, conv: Json, userId: string, withDb: bool, b: Builtins)
    : (World, Option<PyException>)
  {
    if !conv.Object? then (w, None)
    else if !withDb then ConversationMessages(w, conv.fields, None, userId, b)
    else
      var f := conv.fields;
      match FindOrCreate(w.store.conversations, userId, ConversationExternalId(f), ConversationTitle(f), b.render)
      case Err(e) => (w, Some(e))
      case Ok(found) =>
        ConversationMessages(w.(store := w.store.(conversations := found.0)), f, Some(found.1), userId, b)
  }

  function RunChatgptConversations(w: World, convs: seq<Json>, userId: string, withDb: bool, b: Builtins)
    : (World, Option<PyException>)
    decreases |convs|
  {
    if convs == [] then (w, None)
    else
      var before := RunChatgptConversations(w, convs[..|convs| - 1], userId, withDb, b);
      if before.1.Some? then before
      else ChatgptConversation(before.0, convs[|convs| - 1], userId, withDb, b)
  }

  /**
   * The conversations of a decoded file: a list is taken as they are; a dict
   * gives what iterating its `"conversations"` entry yields (an empty list when
   * absent; a TypeError when it is a scalar); any other value gives none.
   */
  function ConversationList(data: Json): (r: Result<seq<Json>, PyException>)
    ensures data.Array? ==> r == Ok(data.items)
    ensures !data.Array? && !data.Object? ==> r == Ok([])
    ensures data.Object? && !Has(data.fields, "conversations") ==> r == Ok([])
    ensures data.Object? ==> r == Iterate(GetOr(data.fields, "conversations", Array([])))
  {
    match data
    case Array(items) => Ok(items)
    case Object(f) =>
      GetOrCases(f, "conversations", Array([]));
      Iterate(GetOr(f, "conversations", Array([])))
    case _ => Ok([])
  }

  /** `_process_chatgpt_json` */
  function ChatgptJson(w: World, data: Json, userId: string, withDb: bool, b: Builtins): (World, Option<PyException>)
  {
    match ConversationList(data)
    case Err(e) => (w, Some(e))
    case Ok(convs) => RunChatgptConversations(w, convs, userId, withDb, b)
  }

  // ---------------------------------------------------------------------------
  // The Claude path: counting only

  /** `msg_data.get("text", "") or msg_data.get("content", "")` is truthy. */
  predicate ClaudeCounts(msg: Json)
  {
    msg.Object? && Truthy(Or(GetOr(msg.fields, "text", Str("")), GetOr(msg.fields, "content", Str(""))))
  }

  /** How many messages of a list the Claude path counts. */
  function ClaudeMessageCount(msgs: seq<Json>): (n: nat)
    ensures n <= |msgs|
    decreases |msgs|
  {
    if msgs == [] then 0
    else ClaudeMessageCount(msgs[..|msgs| - 1]) + (if ClaudeCounts(msgs[|msgs| - 1]) then 1 else 0)
  }

  /** A Claude conversation is counted when it is a dict whose `messages` (default `[]`) is a list. */
  predicate ClaudeConversationCounted(conv: Json)
  {
    conv.Object? && GetOr(conv.fields, "messages", Array([])).Array?
  }

  function ClaudeConversationCount(convs: seq<Json>): (n: nat)
    ensures n <= |convs|
    decreases |convs|
  {
    if convs == [] then 0
    else ClaudeConversationCount(convs[..|convs| - 1]) + (if ClaudeConversationCounted(convs[|convs| - 1]) then 1 else 0)
  }

  /** The messages the Claude path counts over a list of conversations. */
  function ClaudeMessageTotal(convs: seq<Json>): nat
    decreases |convs|
  {
    if convs == [] then 0
    else
      var c := convs[|convs| - 1];
      ClaudeMessageTotal(convs[..|convs| - 1])
        + (if ClaudeConversationCounted(c) then ClaudeMessageCount(GetOr(c.fields, "messages", Array([])).items) else 0)
  }

  /** `_process_claude_json`: the counters rise; nothing is written to the store. */
  function ClaudeJson(w: World, data: Json): (World, Option<PyException>)
  {
    match ConversationList(data)
    case Err(e) => (w, Some(e))
    case Ok(convs) =>
      (w.(stats := w.stats.(conversationsProcessed := w.stats.conversationsProcessed + ClaudeConversationCount(convs),
                            messagesProcessed := w.stats.messagesProcessed + ClaudeMessageTotal(convs))), None)
  }

  // ---------------------------------------------------------------------------
  // Files, directories and the public entry points

  /** What reading and decoding one JSON file gave. */
  datatype Loaded = Parsed(data: Json) | BadJson(decodeError: string) | Unreadable(ioError: string)

  datatype ExportFile = ExportFile(name: string, loaded: Loaded)

  /** `_process_json_file` */
  function JsonFile(w: World, file: ExportFile, userId: string, isClaude: bool, withDb: bool, b: Builtins)
    : (World, Option<PyException>)
  {
    match file.loaded
    case BadJson(d) => (w, Some(InvalidJson(file.name, d)))
    case Unreadable(d) => (w, Some(OSFailure(d)))
    case Parsed(data) => if isClaude then ClaudeJson(w, data) else ChatgptJson(w, data, userId, withDb, b)
  }

  function FileFailedMessage(name: string, e: PyException): string
  {
    "Failed to process " + name + ": " + Message(e)
  }

  /** One iteration of the per-file loop of `_process_directory_export`. */
  function DirectoryStep(w: World, file: ExportFile, userId: string, isClaude: bool, withDb: bool, b: Builtins): World
  {
    var (w', e) := JsonFile(w, file, userId, isClaude, withDb, b);
    match e
    case None => w'.(stats := w'.stats.(filesProcessed := w'.stats.filesProcessed + [file.name]))
    case Some(x) => w'.(stats := w'.stats.(errors := w'.stats.errors + [FileFailedMessage(file.name, x)]))
  }

  /** `_process_directory_export` over the JSON files the directory globs found, in order. */
  function DirectoryExport(w: World, files: seq<ExportFile>, userId: string, isClaude: bool, withDb: bool, b: Builtins)
    : World
    decreases |files|
  {
    if files == [] then w
    else DirectoryStep(DirectoryExport(w, files[..|files| - 1], userId, isClaude, withDb, b),
                       files[|files| - 1], userId, isClaude, withDb, b)
  }

  /**
   * What the export path turned out to be. For an archive, `extracted` is the
   * JSON files found after extraction, or the error extraction raised.
   */
  datatype ExportInput =
    | JsonPath(file: ExportFile)
    | ZipPath(extracted: Result<seq<ExportFile>, string>)
    | DirectoryPath(files: seq<ExportFile>)
    | OtherPath

  /** `process_chatgpt_export` and `process_claude_export`, from fresh stats. */
  function Export(store: Store, input: ExportInput, userId: string, isClaude: bool, withDb: bool, b: Builtins): World
  {
    var w := World(store, EmptyStats);
    match input
    case JsonPath(file) =>
      var (w', e) := JsonFile(w, file, userId, isClaude, withDb, b);
      if e.Some? then TopLevelError(w', Message(e.value)) else w'
    case ZipPath(Err(detail)) => TopLevelError(w, detail)
    case ZipPath(Ok(files)) => DirectoryExport(w, files, userId, isClaude, withDb, b)
    case DirectoryPath(files) => DirectoryExport(w, files, userId, isClaude, withDb, b)
    case OtherPath => w
  }

  function TopLevelError(w: World, detail: string): World
  {
    w.(stats := w.stats.(errors := w.stats.errors + ["Processing failed: " + detail]))
  }

  // ---------------------------------------------------------------------------
  // An exception ends a loop: once a prefix has raised, the whole loop gives the same.

  lemma {:induction false} RunMessagesStopsAtFailure(p: Pass, msgs: seq<Json>, ctx: MessageContext, i: nat)
    requires i <= |msgs| && RunMessages(p, msgs[..i], ctx).1.Some?
    ensures RunMessages(p, msgs, ctx) == RunMessages(p, msgs[..i], ctx)
    decreases |msgs|
  {
    if i < |msgs| {
      var init := msgs[..|msgs| - 1];
      assert init[..i] == msgs[..i];
      RunMessagesStopsAtFailure(p, init, ctx, i);
    } else {
      assert msgs[..i] == msgs;
    }
  }

  lemma {:induction false} RunConversationsStopsAtFailure(w: World, convs: seq<Json>, userId: string, withDb: bool,
                                                          b: Builtins, i: nat)
    requires i <= |convs| && RunChatgptConversations(w, convs[..i], userId, withDb, b).1.Some?
    ensures RunChatgptConversations(w, convs, userId, withDb, b) == RunChatgptConversations(w, convs[..i], userId, withDb, b)
    decreases |convs|
  {
    if i < |convs| {
      var init := convs[..|convs| - 1];
      assert init[..i] == convs[..i];
      RunConversationsStopsAtFailure(w, init, userId, withDb, b, i);
    } else {
      assert convs[..i] == convs;
    }
  }
}
