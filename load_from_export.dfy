/**
 * The standalone loader of scripts/load_from_export.py: it finds
 * `conversations.json`, normalises the decoded value to a list of
 * conversations, and adds one conversation row per item and one message row per
 * message to a session that is committed only when every item went through.
 */
module LoadFromExport {
  import opened Wrappers
  import opened PyJson
  import opened PyText
  import IngestModel

  /** A `Conversation` row as the loader builds it; its id is its index in the table. */
  datatype LoadedConversation = LoadedConversation(
    userId: string,
    externalId: Json,
    title: Json,
    provider: string,
    sourceFile: string,
    metadata: Json,
    messageCount: nat)

  /** A `Message` row as the loader builds it; `conversation` is the index of its conversation row. */
  datatype LoadedMessage = LoadedMessage(
    userId: string,
    conversation: nat,
    externalId: Json,
    role: Json,
    content: string,
    wordCount: nat,
    metadata: Json)

  // ---------------------------------------------------------------------------
  // Locating and normalising the export

  /** `export_path / "conversations.json"` for a path without a trailing separator. */
  function ChildPath(dir: string, name: string): string
  {
    dir + "/" + name
  }

  /**
   * `find_conversations_json`: the path itself when it is a file, else the
   * `conversations.json` inside it. `path` is the normalised text of the
   * `Path`, as `str(Path(...))` gives it: no trailing separator, and not the
   * root directory.
   */
  function FindConversationsJson(path: string, isFile: string -> bool, pathExists: string -> bool): (r: Result<string, string>)
    ensures isFile(path) ==> r == Ok(path)
    ensures !isFile(path) && pathExists(ChildPath(path, "conversations.json")) ==> r == Ok(ChildPath(path, "conversations.json"))
    ensures r.Err? <==> !isFile(path) && !pathExists(ChildPath(path, "conversations.json"))
    ensures r.Err? ==> r.error == "Could not find conversations.json in " + path
  {
    if isFile(path) then Ok(path)
    else
      var candidate := ChildPath(path, "conversations.json");
      if pathExists(candidate) then Ok(candidate)
      else Err("Could not find conversations.json in " + path)
  }

  /** `normalize_chatgpt`: a list is itself, a dict gives its `conversations` list, anything else nothing. */
  function NormalizeChatgpt(data: Json): (r: seq<Json>)
    ensures data.Array? ==> r == data.items
    ensures data.Object? && Get(data.fields, "conversations").Array? ==> r == Get(data.fields, "conversations").items
    ensures !data.Array? && !(data.Object? && Get(data.fields, "conversations").Array?) ==> r == []
  {
    match data
    case Array(items) => items
    case Object(f) =>
      var convs := Get(f, "conversations");
      if convs.Array? then convs.items else []
    case _ => []
  }

  /** Whatever the loader finds, the backend takes the same conversations from the same value. */
  lemma NormalizeAgreesWithBackend(data: Json)
    requires NormalizeChatgpt(data) != []
    ensures IngestModel.ConversationList(data) == Ok(NormalizeChatgpt(data))
  {
    if data.Object? {
      var f := data.fields;
      GetOrCases(f, "conversations", Null);
      assert Has(f, "conversations");
      GetOrPresent(f, "conversations", Array([]));
    }
  }

  /** A dict whose `conversations` is null: the loader finds nothing, the backend raises a TypeError. */
  lemma NullConversationsDiffer()
    ensures NormalizeChatgpt(Object([("conversations", Null)])) == []
    ensures IngestModel.ConversationList(Object([("conversations", Null)])) == Err(NotIterable("NoneType"))
  {
    var f := [("conversations", Null)];
    assert f[0].0 == "conversations";
  }

  // ---------------------------------------------------------------------------
  // One message

  /** The loader's `extract_message_content`. */
  function LoaderContent(msg: seq<(string, Json)>, render: Json -> string): (s: string)
    ensures IngestModel.ContentSource(msg).Str? ==> s == IngestModel.ContentSource(msg).sval
  {
    var content := IngestModel.ContentSource(msg);
    match content
    case Object(f) =>
      var parts := Get(f, "parts");
      if Has(f, "parts") && parts.Array? then IngestModel.StrJoin(parts.items, render)
      else PyStr(GetOr(f, "text", Str("")), render)
    case Array(items) => IngestModel.StrJoin(items, render)
    case _ => PyStr(Or(content, Str("")), render)
  }

  /**
   * The loader's content for every source shape: a list is its parts' strings
   * joined by spaces; a dict gives its `parts` joined when that is a list, else
   * `str` of its `text`; a falsy scalar gives ""; any other scalar its `str`.
   */
  lemma LoaderContentCases(msg: seq<(string, Json)>, render: Json -> string)
    ensures var c := IngestModel.ContentSource(msg);
            && (c.Array? ==> LoaderContent(msg, render) == IngestModel.StrJoin(c.items, render))
            && (c.Object? && Has(c.fields, "parts") && Get(c.fields, "parts").Array? ==>
                  LoaderContent(msg, render) == IngestModel.StrJoin(Get(c.fields, "parts").items, render))
            && (c.Object? && !(Has(c.fields, "parts") && Get(c.fields, "parts").Array?) ==>
                  LoaderContent(msg, render) == PyStr(GetOr(c.fields, "text", Str("")), render))
            && (!c.Array? && !c.Object? && Truthy(c) ==> LoaderContent(msg, render) == PyStr(c, render))
            && (!Truthy(c) ==> LoaderContent(msg, render) == "")
  {
    var c := IngestModel.ContentSource(msg);
    if c.Object? && c.fields == [] {
      GetOrCases(c.fields, "text", Str(""));
    }
  }

  /**
   * The two extractors agree on every content that is a string, a list, a dict
   * with a `parts` list or a dict without `parts`.
   */
  lemma ExtractorsAgree(msg: seq<(string, Json)>, b: IngestModel.Builtins)
    requires var c := IngestModel.ContentSource(msg);
             c.Str? || c.Array? || (c.Object? && (!Has(c.fields, "parts") || Get(c.fields, "parts").Array?))
    ensures IngestModel.ExtractMessageContent(msg, b) == Ok(LoaderContent(msg, b.render))
  {
  }

  /** Where they differ: `parts: null` with no `content` or `text` is "" to the loader and "None" to the backend. */
  lemma ExtractorsDifferOnNullParts(b: IngestModel.Builtins)
    ensures LoaderContent([("parts", Null)], b.render) == ""
    ensures IngestModel.ExtractMessageContent([("parts", Null)], b) == Ok("None")
  {
    var msg := [("parts", Null)];
    assert msg[0].0 == "parts";
    assert IngestModel.ContentSource(msg) == Null;
  }

  /** `msg.get("role") or (msg.get("author", {}) or {}).get("role") or "unknown"` */
  function LoaderRole(msg: seq<(string, Json)>): Result<Json, PyException>
  {
    var role := Get(msg, "role");
    if Truthy(role) then Ok(role)
    else
      var author := Or(GetOr(msg, "author", Object([])), Object([]));
      if !author.Object? then Err(NoAttributeGet(TypeName(author)))
      else Ok(Or(Get(author.fields, "role"), Str("unknown")))
  }

  /**
   * A truthy `role` wins; otherwise the role of a dict `author`, or "unknown";
   * a truthy `author` that is not a dict raises. The role kept is always truthy.
   */
  lemma LoaderRoleCases(msg: seq<(string, Json)>)
    ensures Truthy(Get(msg, "role")) ==> LoaderRole(msg) == Ok(Get(msg, "role"))
    ensures LoaderRole(msg).Err? <==>
              !Truthy(Get(msg, "role")) && Truthy(GetOr(msg, "author", Object([])))
              && !GetOr(msg, "author", Object([])).Object?
    ensures LoaderRole(msg).Ok? ==> Truthy(LoaderRole(msg).value)
    ensures LoaderRole(msg).Ok? && !Truthy(Get(msg, "role")) && GetOr(msg, "author", Object([])).Object? ==>
              LoaderRole(msg).value == Or(Get(GetOr(msg, "author", Object([])).fields, "role"), Str("unknown"))
    ensures !Truthy(Get(msg, "role")) && !Truthy(GetOr(msg, "author", Object([]))) ==> LoaderRole(msg) == Ok(Str("unknown"))
  {
  }

  /** The loader prefers `role`, the backend prefers `author.role`. */
  lemma RolePrecedenceDiffers()
    ensures var msg := [("role", Str("user")), ("author", Object([("role", Str("assistant"))]))];
            LoaderRole(msg) == Ok(Str("user")) && IngestModel.StoredRole(msg) == Str("assistant")
  {
    var author := [("role", Str("assistant"))];
    var msg := [("role", Str("user")), ("author", Object(author))];
    assert msg[0].0 == "role" && msg[1].0 == "author" && author[0].0 == "role";
  }

  /** The message row, or the AttributeError a non-dict message or author raises. */
  function MessageRecord(msg: Json, userId: string, c: nat, render: Json -> string): (r: Result<LoadedMessage, PyException>)
    ensures r.Ok? ==> r.value.conversation == c && r.value.userId == userId
    ensures r.Ok? ==> r.value.wordCount == WordCount(r.value.content)
  {
    if !msg.Object? then Err(NoAttributeGet(TypeName(msg)))
    else
      var f := msg.fields;
      match LoaderRole(f)
      case Err(e) => Err(e)
      case Ok(role) =>
        var content := LoaderContent(f, render);
        Ok(LoadedMessage(userId, c, GetOr(f, "id", Str("")), role, content,
                         if content != "" then WordCount(content) else 0,
                         GetOr(f, "metadata", Object([]))))
  }

  /**
   * Only a message that is not a dict, or whose role lookup raises, fails; otherwise
   * the row carries the loader's role and content.
   */
  lemma MessageRecordCases(msg: Json, userId: string, c: nat, render: Json -> string)
    ensures MessageRecord(msg, userId, c, render).Err? <==> !msg.Object? || LoaderRole(msg.fields).Err?
    ensures MessageRecord(msg, userId, c, render).Ok? ==>
              MessageRecord(msg, userId, c, render).value.role == LoaderRole(msg.fields).value
              && MessageRecord(msg, userId, c, render).value.content == LoaderContent(msg.fields, render)
  {
  }

  // ---------------------------------------------------------------------------
  // A loop that stops at the first exception

  /** The values of `rs` when every one of them is a value, else the first error among them. */
  function Collect<T>(rs: seq<Result<T, PyException>>): Result<seq<T>, PyException>
    decreases |rs|
  {
    if rs == [] then Ok([])
    else
      var before := Collect(rs[..|rs| - 1]);
      if before.Err? then before
      else if rs[|rs| - 1].Err? then Err(rs[|rs| - 1].error)
      else Ok(before.value + [rs[|rs| - 1].value])
  }

  /** `Collect` goes through exactly when every step does, and then keeps every value in order. */
  lemma {:induction false} CollectOk<T>(rs: seq<Result<T, PyException>>)
    ensures Collect(rs).Ok? <==> forall i :: 0 <= i < |rs| ==> rs[i].Ok?
    ensures Collect(rs).Ok? ==>
              |Collect(rs).value| == |rs| && forall i :: 0 <= i < |rs| ==> Collect(rs).value[i] == rs[i].value
    decreases |rs|
  {
    if rs != [] {
      var init := rs[..|rs| - 1];
      CollectOk(init);
      assert forall i :: 0 <= i < |init| ==> init[i] == rs[i];
    }
  }

  /** The error `Collect` reports is the one of the first step that fails. */
  lemma {:induction false} CollectFirstError<T>(rs: seq<Result<T, PyException>>, i: nat)
    requires i < |rs| && rs[i].Err? && forall j :: 0 <= j < i ==> rs[j].Ok?
    ensures Collect(rs) == Err(rs[i].error)
    decreases |rs|
  {
    var init := rs[..|rs| - 1];
    if i < |rs| - 1 {
      CollectFirstError(init, i);
    } else {
      CollectOk(init);
      assert forall j :: 0 <= j < |init| ==> init[j] == rs[j];
    }
  }

  /** Once a prefix has failed, the steps after it change nothing. */
  lemma {:induction false} CollectStops<T>(rs: seq<Result<T, PyException>>, i: nat)
    requires 0 < i <= |rs| && Collect(rs[..i]).Err?
    ensures Collect(rs) == Collect(rs[..i])
    decreases |rs| - i
  {
    if i < |rs| {
      assert rs[..i + 1][..i] == rs[..i];
      CollectStops(rs, i + 1);
    } else {
      assert rs[..i] == rs;
    }
  }

  // ---------------------------------------------------------------------------
  // One conversation

  /** `messages = item.get("messages", [])`, replaced by `[]` when it is not a list. */
  function MessageList(item: seq<(string, Json)>): seq<Json>
  {
    var messages := Get(item, "messages");
    if messages.Array? then messages.items else []
  }

  /** The conversation row: `message_count` is the length of the `messages` list, 0 when there is none. */
  function ConversationRecord(item: seq<(string, Json)>, userId: string, fileName: string): (r: LoadedConversation)
    ensures r.messageCount == |MessageList(item)|
    ensures Truthy(r.title) && r.provider == "chatgpt"
  {
    var messages := Get(item, "messages");
    LoadedConversation(userId, Or(Or(Get(item, "id"), Get(item, "conversation_id")), Str("")),
                       Or(Get(item, "title"), Str("Untitled Conversation")), "chatgpt", fileName,
                       GetOr(item, "metadata", Object([])),
                       if messages.Array? then |messages.items| else 0)
  }

  /**
   * Each column of the conversation row: the id is `id` when truthy, else
   * `conversation_id` when truthy, else ""; a falsy or missing title becomes
   * "Untitled Conversation"; `metadata` is the item's, or `{}` when absent.
   */
  lemma ConversationRecordFields(item: seq<(string, Json)>, userId: string, fileName: string)
    ensures var r := ConversationRecord(item, userId, fileName);
            && r.userId == userId && r.sourceFile == fileName
            && r.title == (if Truthy(Get(item, "title")) then Get(item, "title") else Str("Untitled Conversation"))
            && r.externalId == (if Truthy(Get(item, "id")) then Get(item, "id")
                                else if Truthy(Get(item, "conversation_id")) then Get(item, "conversation_id")
                                else Str(""))
            && r.metadata == (if Has(item, "metadata") then Get(item, "metadata") else Object([]))
  {
    OrPicksFirstTruthy(Get(item, "id"), Get(item, "conversation_id"), Str(""));
    GetOrCases(item, "metadata", Object([]));
    if Has(item, "metadata") {
      GetOrPresent(item, "metadata", Object([]));
    }
  }

  /** One message row, or one error, per message, all pointing at conversation `c`. */
  function MessageRecords(msgs: seq<Json>, userId: string, c: nat, render: Json -> string)
    : (rs: seq<Result<LoadedMessage, PyException>>)
    ensures |rs| == |msgs|
    decreases |msgs|
  {
    if msgs == [] then []
    else MessageRecords(msgs[..|msgs| - 1], userId, c, render) + [MessageRecord(msgs[|msgs| - 1], userId, c, render)]
  }

  /** The `j`-th result is the `j`-th message's row or error. */
  lemma {:induction false} MessageRecordsAt(msgs: seq<Json>, userId: string, c: nat, render: Json -> string, j: nat)
    requires j < |msgs|
    ensures MessageRecords(msgs, userId, c, render)[j] == MessageRecord(msgs[j], userId, c, render)
    decreases |msgs|
  {
    var init := msgs[..|msgs| - 1];
    if j < |msgs| - 1 {
      MessageRecordsAt(init, userId, c, render, j);
      assert init[j] == msgs[j];
    }
  }

  /** The message rows of one conversation, or the first error. */
  function LoadMessages(msgs: seq<Json>, userId: string, c: nat, render: Json -> string)
    : Result<seq<LoadedMessage>, PyException>
  {
    Collect(MessageRecords(msgs, userId, c, render))
  }

  /**
   * The messages of a conversation load exactly when no message raises, giving one
   * row per message, in order, each pointing at `c` with its word count.
   */
  lemma LoadMessagesRows(msgs: seq<Json>, userId: string, c: nat, render: Json -> string)
    ensures LoadMessages(msgs, userId, c, render).Ok? <==>
              forall j :: 0 <= j < |msgs| ==> MessageRecord(msgs[j], userId, c, render).Ok?
    ensures var r := LoadMessages(msgs, userId, c, render);
            r.Ok? ==> |r.value| == |msgs| && forall k :: 0 <= k < |r.value| ==>
              r.value[k] == MessageRecord(msgs[k], userId, c, render).value
              && r.value[k].conversation == c && r.value[k].userId == userId
              && r.value[k].wordCount == WordCount(r.value[k].content)
  {
    var rs := MessageRecords(msgs, userId, c, render);
    forall j | 0 <= j < |msgs| ensures rs[j] == MessageRecord(msgs[j], userId, c, render) {
      MessageRecordsAt(msgs, userId, c, render, j);
    }
    CollectOk(rs);
    assert LoadMessages(msgs, userId, c, render) == Collect(rs);
  }

  /** One item: its conversation row and its message rows pointing at conversation `c`, or the first exception. */
  function LoadItem(item: Json, userId: string, fileName: string, c: nat, render: Json -> string)
    : Result<(LoadedConversation, seq<LoadedMessage>), PyException>
  {
    if !item.Object? then Err(NoAttributeGet(TypeName(item)))
    else
      match LoadMessages(MessageList(item.fields), userId, c, render)
      case Err(e) => Err(e)
      case Ok(rows) => Ok((ConversationRecord(item.fields, userId, fileName), rows))
  }

  /** Every row of `rows` belongs to conversation `c`. */
  predicate AllPointAt(rows: seq<LoadedMessage>, c: nat)
  {
    forall k :: 0 <= k < |rows| ==> rows[k].conversation == c
  }

  /** A step that loaded has as many message rows as its `message_count`, all pointing at conversation `c`. */
  predicate StepWell(r: Result<(LoadedConversation, seq<LoadedMessage>), PyException>, c: nat)
  {
    r.Ok? ==> |r.value.1| == r.value.0.messageCount && AllPointAt(r.value.1, c)
  }

  /** Every item that loads as conversation `c` is well numbered for `c`. */
  lemma LoadItemRows(item: Json, userId: string, fileName: string, c: nat, render: Json -> string)
    ensures StepWell(LoadItem(item, userId, fileName, c, render), c)
  {
    if item.Object? {
      LoadMessagesRows(MessageList(item.fields), userId, c, render);
    }
  }

  // ---------------------------------------------------------------------------
  // Every conversation

  /** One result per item; the i-th item becomes conversation `base + i`. */
  function ItemResults(items: seq<Json>, userId: string, fileName: string, base: nat, render: Json -> string)
    : seq<Result<(LoadedConversation, seq<LoadedMessage>), PyException>>
  {
    seq(|items|, i requires 0 <= i < |items| => LoadItem(items[i], userId, fileName, base + i, render))
  }

  /** A failing step after a prefix that went through is the error of the whole loop. */
  lemma StopAt<T>(rs: seq<Result<T, PyException>>, i: nat, e: PyException)
    requires i < |rs| && Collect(rs[..i]).Ok? && rs[i] == Err(e)
    ensures Collect(rs) == Err(e)
  {
    var pre := rs[..i + 1];
    assert pre[..i] == rs[..i] && pre[i] == rs[i];
    assert Collect(pre) == Err(e);
    CollectStops(rs, i + 1);
  }

  /** A conversation that fails after all earlier ones went through is the error of the whole load. */
  lemma ItemFails(items: seq<Json>, userId: string, fileName: string, base: nat, render: Json -> string,
                  i: nat, e: PyException)
    requires i < |items| && forall j :: 0 <= j < i ==> ItemResults(items, userId, fileName, base, render)[j].Ok?
    requires ItemResults(items, userId, fileName, base, render)[i] == Err(e)
    ensures LoadConversations(items, userId, fileName, base, render) == Err(e)
  {
    CollectFirstError(ItemResults(items, userId, fileName, base, render), i);
  }

  /** One more step that goes through extends the loop's result by its value. */
  lemma CollectGrows<T>(rs: seq<Result<T, PyException>>, i: nat)
    requires i < |rs| && Collect(rs[..i]).Ok? && rs[i].Ok?
    ensures Collect(rs[..i + 1]) == Ok(Collect(rs[..i]).value + [rs[i].value])
  {
    var pre := rs[..i + 1];
    assert pre[..i] == rs[..i] && pre[i] == rs[i];
  }

  /** Loading one more conversation appends its rows. */
  lemma RowsGrow(loaded: seq<(LoadedConversation, seq<LoadedMessage>)>, x: (LoadedConversation, seq<LoadedMessage>))
    ensures ConversationRows(loaded + [x]) == ConversationRows(loaded) + [x.0]
    ensures MessageRows(loaded + [x]) == MessageRows(loaded) + x.1
  {
    assert (loaded + [x])[..|loaded|] == loaded;
  }

  /** The conversation rows of the loaded items. */
  function ConversationRows(loaded: seq<(LoadedConversation, seq<LoadedMessage>)>): (convs: seq<LoadedConversation>)
    ensures |convs| == |loaded| && forall i :: 0 <= i < |loaded| ==> convs[i] == loaded[i].0
    decreases |loaded|
  {
    if loaded == [] then [] else ConversationRows(loaded[..|loaded| - 1]) + [loaded[|loaded| - 1].0]
  }

  /** The message rows of the loaded items, item after item. */
  function MessageRows(loaded: seq<(LoadedConversation, seq<LoadedMessage>)>): seq<LoadedMessage>
    decreases |loaded|
  {
    if loaded == [] then [] else MessageRows(loaded[..|loaded| - 1]) + loaded[|loaded| - 1].1
  }

  /**
   * The rows `load_openai_export` adds for `items`, conversations numbered from
   * `base`, or the first error (then nothing is committed).
   */
  function LoadConversations(items: seq<Json>, userId: string, fileName: string, base: nat, render: Json -> string)
    : Result<(seq<LoadedConversation>, seq<LoadedMessage>), PyException>
  {
    match Collect(ItemResults(items, userId, fileName, base, render))
    case Err(e) => Err(e)
    case Ok(loaded) => Ok((ConversationRows(loaded), MessageRows(loaded)))
  }

  /** The number of message rows that belong to conversation `c`. */
  function CountFor(msgs: seq<LoadedMessage>, c: nat): nat
    decreases |msgs|
  {
    if msgs == [] then 0
    else CountFor(msgs[..|msgs| - 1], c) + (if msgs[|msgs| - 1].conversation == c then 1 else 0)
  }

  function SumMessageCounts(convs: seq<LoadedConversation>): nat
    decreases |convs|
  {
    if convs == [] then 0 else SumMessageCounts(convs[..|convs| - 1]) + convs[|convs| - 1].messageCount
  }

  lemma {:induction false} CountForAppend(a: seq<LoadedMessage>, b: seq<LoadedMessage>, c: nat)
    ensures CountFor(a + b, c) == CountFor(a, c) + CountFor(b, c)
    decreases |b|
  {
    if b == [] {
      assert a + b == a;
    } else {
      assert (a + b)[..|a + b| - 1] == a + b[..|b| - 1];
      CountForAppend(a, b[..|b| - 1], c);
    }
  }

  lemma {:induction false} CountForUniform(rows: seq<LoadedMessage>, c: nat, d: nat)
    requires AllPointAt(rows, c)
    ensures CountFor(rows, d) == if c == d then |rows| else 0
    decreases |rows|
  {
    if rows != [] {
      CountForUniform(rows[..|rows| - 1], c, d);
    }
  }

  lemma {:induction false} CountForNone(msgs: seq<LoadedMessage>, c: nat)
    requires forall j :: 0 <= j < |msgs| ==> msgs[j].conversation < c
    ensures CountFor(msgs, c) == 0
    decreases |msgs|
  {
    if msgs != [] {
      CountForNone(msgs[..|msgs| - 1], c);
    }
  }

  /** Item `i` of `loaded` has `message_count` rows, all pointing at `base + i`, with their word counts. */
  predicate WellNumbered(loaded: seq<(LoadedConversation, seq<LoadedMessage>)>, base: nat)
  {
    forall i :: 0 <= i < |loaded| ==>
      |loaded[i].1| == loaded[i].0.messageCount
      && AllPointAt(loaded[i].1, base + i)
  }

  /** Dropping the last item keeps the items well numbered; the last one is well numbered for its position. */
  lemma WellNumberedInit(loaded: seq<(LoadedConversation, seq<LoadedMessage>)>, base: nat)
    requires loaded != [] && WellNumbered(loaded, base)
    ensures WellNumbered(loaded[..|loaded| - 1], base)
    ensures var last := loaded[|loaded| - 1];
            |last.1| == last.0.messageCount && AllPointAt(last.1, base + |loaded| - 1)
  {
    var init := loaded[..|loaded| - 1];
    forall i | 0 <= i < |init| ensures init[i] == loaded[i] { }
  }

  /** Over well-numbered items, the message rows number the sum of the message counts. */
  lemma {:induction false} RowsTotal(loaded: seq<(LoadedConversation, seq<LoadedMessage>)>, base: nat)
    requires WellNumbered(loaded, base)
    ensures |MessageRows(loaded)| == SumMessageCounts(ConversationRows(loaded))
    decreases |loaded|
  {
    if loaded != [] {
      WellNumberedInit(loaded, base);
      RowsTotal(loaded[..|loaded| - 1], base);
      assert ConversationRows(loaded)[..|loaded| - 1] == ConversationRows(loaded[..|loaded| - 1]);
    }
  }

  /** Over well-numbered items, every message row points at one of the loaded conversations. */
  lemma {:induction false} RowsInRange(loaded: seq<(LoadedConversation, seq<LoadedMessage>)>, base: nat)
    requires WellNumbered(loaded, base)
    ensures forall j :: 0 <= j < |MessageRows(loaded)| ==>
              base <= MessageRows(loaded)[j].conversation < base + |loaded|
    decreases |loaded|
  {
    if loaded != [] {
      var init := loaded[..|loaded| - 1];
      WellNumberedInit(loaded, base);
      RowsInRange(init, base);
      var msgs: seq<LoadedMessage> := MessageRows(init);
      var rows: seq<LoadedMessage> := loaded[|loaded| - 1].1;
      assert MessageRows(loaded) == msgs + rows;
      forall j | 0 <= j < |msgs + rows|
        ensures base <= (msgs + rows)[j].conversation < base + |loaded|
      {
        if j >= |msgs| {
          assert (msgs + rows)[j] == rows[j - |msgs|];
        }
      }
    }
  }

  /** Over well-numbered items, conversation `base + k` has exactly its `message_count` message rows. */
  lemma {:induction false} RowsPerConversation(loaded: seq<(LoadedConversation, seq<LoadedMessage>)>, base: nat)
    requires WellNumbered(loaded, base)
    ensures forall k :: 0 <= k < |loaded| ==> CountFor(MessageRows(loaded), base + k) == loaded[k].0.messageCount
    decreases |loaded|
  {
    if loaded != [] {
      var init := loaded[..|loaded| - 1];
      WellNumberedInit(loaded, base);
      RowsPerConversation(init, base);
      RowsInRange(init, base);
      var msgs: seq<LoadedMessage> := MessageRows(init);
      var rows: seq<LoadedMessage> := loaded[|loaded| - 1].1;
      assert MessageRows(loaded) == msgs + rows;
      forall k | 0 <= k < |loaded|
        ensures CountFor(msgs + rows, base + k) == loaded[k].0.messageCount
      {
        CountAfterAppend(msgs, rows, base + |init|, base + k);
        if k < |init| {
          assert init[k] == loaded[k];
        }
      }
    }
  }

  /** Appending the rows of a new conversation `c` after rows of earlier conversations. */
  lemma CountAfterAppend(msgs: seq<LoadedMessage>, rows: seq<LoadedMessage>, c: nat, d: nat)
    requires forall j :: 0 <= j < |msgs| ==> msgs[j].conversation < c
    requires AllPointAt(rows, c)
    ensures CountFor(msgs + rows, d) == if d == c then |rows| else CountFor(msgs, d)
  {
    CountForAppend(msgs, rows, d);
    CountForUniform(rows, c, d);
    if d == c {
      CountForNone(msgs, c);
    }
  }

  /** Loop steps whose values are each well numbered for their position give well-numbered items. */
  lemma CollectWellNumbered(rs: seq<Result<(LoadedConversation, seq<LoadedMessage>), PyException>>, base: nat)
    requires Collect(rs).Ok?
    requires forall i :: 0 <= i < |rs| ==> StepWell(rs[i], base + i)
    ensures WellNumbered(Collect(rs).value, base)
  {
    CollectOk(rs);
  }

  /** Every step of the load is well numbered for its position. */
  lemma ItemResultsWell(items: seq<Json>, userId: string, fileName: string, base: nat, render: Json -> string)
    ensures forall i :: 0 <= i < |items| ==> StepWell(ItemResults(items, userId, fileName, base, render)[i], base + i)
  {
    forall i | 0 <= i < |items|
      ensures StepWell(ItemResults(items, userId, fileName, base, render)[i], base + i)
    {
      LoadItemRows(items[i], userId, fileName, base + i, render);
    }
  }

  /**
   * A load that goes through adds one conversation per item and, for each of them,
   * exactly `message_count` message rows pointing at it; the messages inserted are
   * the sum of the message counts.
   */
  lemma LoadCounts(items: seq<Json>, userId: string, fileName: string, base: nat, render: Json -> string)
    requires LoadConversations(items, userId, fileName, base, render).Ok?
    ensures var convs, msgs := LoadConversations(items, userId, fileName, base, render).value.0,
                               LoadConversations(items, userId, fileName, base, render).value.1;
            |convs| == |items| && |msgs| == SumMessageCounts(convs)
            && (forall k :: 0 <= k < |convs| ==> CountFor(msgs, base + k) == convs[k].messageCount)
            && forall j :: 0 <= j < |msgs| ==> base <= msgs[j].conversation < base + |convs|
  {
    var rs := ItemResults(items, userId, fileName, base, render);
    CollectOk(rs);
    var loaded := Collect(rs).value;
    assert LoadConversations(items, userId, fileName, base, render) == Ok((ConversationRows(loaded), MessageRows(loaded)));
    ItemResultsWell(items, userId, fileName, base, render);
    CollectWellNumbered(rs, base);
    RowsTotal(loaded, base);
    RowsPerConversation(loaded, base);
    RowsInRange(loaded, base);
  }

  /** The first item that is not a dict stops the load, whatever follows it. */
  lemma FirstBadItemStops(items: seq<Json>, userId: string, fileName: string, base: nat, render: Json -> string, i: nat)
    requires i < |items| && !items[i].Object?
    requires forall j :: 0 <= j < i ==> LoadItem(items[j], userId, fileName, base + j, render).Ok?
    ensures LoadConversations(items, userId, fileName, base, render) == Err(NoAttributeGet(TypeName(items[i])))
  {
    var rs := ItemResults(items, userId, fileName, base, render);
    assert rs[i] == Err(NoAttributeGet(TypeName(items[i])));
    CollectFirstError(rs, i);
  }

  // ---------------------------------------------------------------------------
  // The database and the load

  /** The committed tables. */
  class Database {
    var conversations: seq<LoadedConversation>
    var messages: seq<LoadedMessage>

    constructor ()
      ensures conversations == [] && messages == []
    {
      conversations, messages := [], [];
    }
  }

  /** An `AsyncSession`: rows added to it reach the database only on `commit`. */
  class Session {
    const db: Database
    var pendingConversations: seq<LoadedConversation>
    var pendingMessages: seq<LoadedMessage>

    constructor (db: Database)
      ensures this.db == db && pendingConversations == [] && pendingMessages == []
    {
      this.db := db;
      pendingConversations, pendingMessages := [], [];
    }

    method Commit()
      modifies this, db
      ensures db.conversations == old(db.conversations) + old(pendingConversations)
      ensures db.messages == old(db.messages) + old(pendingMessages)
      ensures pendingConversations == [] && pendingMessages == []
    {
      db.conversations := db.conversations + pendingConversations;
      db.messages := db.messages + pendingMessages;
      pendingConversations, pendingMessages := [], [];
    }
  }


  /**
   * `load_openai_export` from the decoded file: on success the rows of
   * `LoadConversations` are committed and the counts it prints are returned;
   * on an error nothing is committed.
   */
  method LoadOpenaiExport(db: Database, data: Json, fileName: string, userId: string, render: Json -> string)
    returns (r: Result<(nat, nat), PyException>)
    modifies db
    ensures match LoadConversations(NormalizeChatgpt(data), userId, fileName, old(|db.conversations|), render)
            case Err(e) =>
              r == Err(e) && db.conversations == old(db.conversations) && db.messages == old(db.messages)
            case Ok((convs, msgs)) =>
              r == Ok((|convs|, |msgs|))
              && db.conversations == old(db.conversations) + convs && db.messages == old(db.messages) + msgs
  {
    r := LoadConversationList(db, NormalizeChatgpt(data), fileName, userId, render);
  }

  /** The part of `load_openai_export` after `normalize_chatgpt`: the loop, then one commit. */
  method LoadConversationList(db: Database, convs: seq<Json>, fileName: string, userId: string, render: Json -> string)
    returns (r: Result<(nat, nat), PyException>)
    modifies db
    ensures match LoadConversations(convs, userId, fileName, old(|db.conversations|), render)
            case Err(e) =>
              r == Err(e) && db.conversations == old(db.conversations) && db.messages == old(db.messages)
            case Ok((rows, msgs)) =>
              r == Ok((|rows|, |msgs|))
              && db.conversations == old(db.conversations) + rows && db.messages == old(db.messages) + msgs
  {
    var base := |db.conversations|;
    ghost var results := ItemResults(convs, userId, fileName, base, render);
    ghost var loaded: seq<(LoadedConversation, seq<LoadedMessage>)> := [];
    var session := new Session(db);
    var inserted := 0;
    var i := 0;
    while i < |convs|
      invariant 0 <= i <= |convs| && |loaded| == i
      invariant db.conversations == old(db.conversations) && db.messages == old(db.messages)
      invariant Collect(results[..i]) == Ok(loaded)
      invariant session.pendingConversations == ConversationRows(loaded)
      invariant session.pendingMessages == MessageRows(loaded)
      invariant inserted == |session.pendingMessages|
    {
      var failure;
      inserted, failure := AddConversation(session, convs, userId, fileName, base, i, render, inserted);
      if failure.Some? {
        StopAt(results, i, failure.value);
        return Err(failure.value);
      }
      CollectGrows(results, i);
      RowsGrow(loaded, results[i].value);
      loaded := loaded + [results[i].value];
      i := i + 1;
    }
    assert results[..i] == results;
    session.Commit();
    r := Ok((|convs|, inserted));
  }

  /**
   * The body of the loop over conversations in `load_openai_export`: the
   * conversation row, then its message rows, or the exception that stops the load.
   */
  method AddConversation(session: Session, items: seq<Json>, userId: string, fileName: string, base: nat, i: nat,
                         render: Json -> string, inserted: nat)
    returns (inserted': nat, failure: Option<PyException>)
    requires i < |items|
    modifies session
    ensures var step := ItemResults(items, userId, fileName, base, render)[i];
            (failure.Some? ==> step == Err(failure.value))
            && (failure.None? ==>
                  step.Ok?
                  && session.pendingConversations == old(session.pendingConversations) + [step.value.0]
                  && session.pendingMessages == old(session.pendingMessages) + step.value.1
                  && inserted' == inserted + |step.value.1|)
  {
    if !items[i].Object? {
      return inserted, Some(NoAttributeGet(TypeName(items[i])));
    }
    var conv := ConversationRecord(items[i].fields, userId, fileName);
    session.pendingConversations := session.pendingConversations + [conv];
    inserted', failure := AddMessages(session, MessageList(items[i].fields), userId, base + i, render, inserted);
  }

  /** The inner loop of `load_openai_export`: one message row per message, counting `inserted_messages`. */
  method AddMessages(session: Session, messages: seq<Json>, userId: string, c: nat, render: Json -> string,
                     inserted: nat) returns (inserted': nat, failure: Option<PyException>)
    modifies session
    ensures session.pendingConversations == old(session.pendingConversations)
    ensures var lm := LoadMessages(messages, userId, c, render);
            (lm.Err? ==> failure == Some(lm.error))
            && (lm.Ok? ==>
                  failure == None && session.pendingMessages == old(session.pendingMessages) + lm.value
                  && inserted' == inserted + |lm.value|)
  {
    ghost var records := MessageRecords(messages, userId, c, render);
    inserted' := inserted;
    for j := 0 to |messages|
      invariant session.pendingConversations == old(session.pendingConversations)
      invariant Collect(records[..j]).Ok?
      invariant session.pendingMessages == old(session.pendingMessages) + Collect(records[..j]).value
      invariant |Collect(records[..j]).value| == j && inserted' == inserted + j
    {
      var m := MessageRecord(messages[j], userId, c, render);
      MessageRecordsAt(messages, userId, c, render, j);
      if m.Err? {
        StopAt(records, j, m.error);
        assert LoadMessages(messages, userId, c, render) == Collect(records);
        return inserted', Some(m.error);
      }
      CollectGrows(records, j);
      session.pendingMessages := session.pendingMessages + [m.value];
      inserted' := inserted' + 1;
    }
    assert records[..|messages|] == records;
    assert LoadMessages(messages, userId, c, render) == Collect(records);
    failure := None;
  }
}
