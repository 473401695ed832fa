/**
 * The export processor of backend/services/file_processor.py as it runs: a
 * database session whose pending rows the processor adds and updates, a
 * `stats` record it updates in place, and the `FileProcessor` whose methods
 * walk files, conversations and messages. Every method is proved to leave the
 * session and the stats exactly as the matching function of IngestModel says.
 */
module FileProcessor {
  import opened Wrappers
  import opened PyJson
  import opened PyText
  import opened IngestModel

  /** The pending rows of the database session. */
  class Session {
    var conversations: seq<ConversationRow>
    var messages: seq<MessageRow>

    function Snapshot(): Store
      reads this
    {
      Store(conversations, messages)
    }

    constructor (initial: Store)
      ensures Snapshot() == initial
    {
      conversations := initial.conversations;
      messages := initial.messages;
    }
  }

  /** The `stats` dict every public entry point returns. */
  class Stats {
    var conversationsProcessed: nat
    var messagesProcessed: nat
    var filesProcessed: seq<string>
    var errors: seq<string>

    function Value(): StatsValue
      reads this
    {
      StatsValue(conversationsProcessed, messagesProcessed, filesProcessed, errors)
    }

    constructor ()
      ensures Value() == EmptyStats
    {
      conversationsProcessed, messagesProcessed := 0, 0;
      filesProcessed, errors := [], [];
    }
  }

  class Processor {
    /** `self.db`: rows are looked up and written only when a session is attached. */
    const db: Session?

    constructor (db: Session?)
      ensures this.db == db
    {
      this.db := db;
    }

    /** The session's rows; with no session attached nothing is ever written. */
    function StoreOf(): Store
      reads this, db
    {
      if db == null then Store([], []) else db.Snapshot()
    }

    function WorldOf(stats: Stats): World
      reads this, db, stats
    {
      World(StoreOf(), stats.Value())
    }

    /** `process_chatgpt_export`: always returns the stats, whatever went wrong. */
    method ProcessChatgptExport(input: ExportInput, userId: string, b: Builtins) returns (stats: Stats)
      modifies db
      ensures fresh(stats)
      ensures WorldOf(stats) == Export(old(StoreOf()), input, userId, false, db != null, b)
    {
      stats := ProcessExport(input, userId, false, b);
    }

    /** `process_claude_export`: always returns the stats, whatever went wrong. */
    method ProcessClaudeExport(input: ExportInput, userId: string, b: Builtins) returns (stats: Stats)
      modifies db
      ensures fresh(stats)
      ensures WorldOf(stats) == Export(old(StoreOf()), input, userId, true, db != null, b)
    {
      stats := ProcessExport(input, userId, true, b);
    }

    /** The body both public entry points share; the outer `except` appends one error. */
    method ProcessExport(input: ExportInput, userId: string, isClaude: bool, b: Builtins) returns (stats: Stats)
      modifies db
      ensures fresh(stats)
      ensures WorldOf(stats) == Export(old(StoreOf()), input, userId, isClaude, db != null, b)
    {
      stats := new Stats();
      match input
      case JsonPath(file) =>
        var failure := ProcessJsonFile(file, userId, stats, isClaude, b);
        if failure.Some? {
          stats.errors := stats.errors + ["Processing failed: " + Message(failure.value)];
        }
      case ZipPath(extracted) =>
        var failure := ProcessZipExport(extracted, userId, stats, isClaude, b);
        if failure.Some? {
          stats.errors := stats.errors + ["Processing failed: " + failure.value];
        }
      case DirectoryPath(files) =>
        ProcessDirectoryExport(files, userId, stats, isClaude, b);
      case OtherPath =>
    }

    /** `_process_zip_export`: extraction either fails or yields the files of a directory. */
    method ProcessZipExport(extracted: Result<seq<ExportFile>, string>, userId: string, stats: Stats,
                            isClaude: bool, b: Builtins) returns (failure: Option<string>)
      modifies stats, db
      ensures extracted.Err? ==> failure == Some(extracted.error) && WorldOf(stats) == old(WorldOf(stats))
      ensures extracted.Ok? ==>
                failure == None
                && WorldOf(stats) == DirectoryExport(old(WorldOf(stats)), extracted.value, userId, isClaude, db != null, b)
    {
      match extracted
      case Err(detail) =>
        failure := Some(detail);
      case Ok(files) =>
        ProcessDirectoryExport(files, userId, stats, isClaude, b);
        failure := None;
    }

    /** `_process_directory_export`: a failing file appends one error and the loop goes on. */
    method ProcessDirectoryExport(files: seq<ExportFile>, userId: string, stats: Stats, isClaude: bool, b: Builtins)
      modifies stats, db
      ensures WorldOf(stats) == DirectoryExport(old(WorldOf(stats)), files, userId, isClaude, db != null, b)
    {
      for i := 0 to |files|
        invariant WorldOf(stats) == DirectoryExport(old(WorldOf(stats)), files[..i], userId, isClaude, db != null, b)
      {
        assert files[..i + 1][..i] == files[..i];
        var failure := ProcessJsonFile(files[i], userId, stats, isClaude, b);
        if failure.None? {
          stats.filesProcessed := stats.filesProcessed + [files[i].name];
        } else {
          stats.errors := stats.errors + [FileFailedMessage(files[i].name, failure.value)];
        }
      }
      assert files[..|files|] == files;
    }

    /** `_process_json_file`: a decode error becomes a ValueError naming the file. */
    method ProcessJsonFile(file: ExportFile, userId: string, stats: Stats, isClaude: bool, b: Builtins)
      returns (failure: Option<PyException>)
      modifies stats, db
      ensures (WorldOf(stats), failure) == JsonFile(old(WorldOf(stats)), file, userId, isClaude, db != null, b)
    {
      match file.loaded
      case BadJson(detail) =>
        failure := Some(InvalidJson(file.name, detail));
      case Unreadable(detail) =>
        failure := Some(OSFailure(detail));
      case Parsed(data) =>
        if isClaude {
          failure := ProcessClaudeJson(data, stats);
        } else {
          failure := ProcessChatgptJson(data, userId, stats, b);
        }
    }

    /** `_process_chatgpt_json` */
    method ProcessChatgptJson(data: Json, userId: string, stats: Stats, b: Builtins)
      returns (failure: Option<PyException>)
      modifies stats, db
      ensures (WorldOf(stats), failure) == ChatgptJson(old(WorldOf(stats)), data, userId, db != null, b)
    {
      var listed := ConversationList(data);
      if listed.Err? {
        return Some(listed.error);
      }
      var convs := listed.value;
      ghost var w0 := WorldOf(stats);
      failure := None;
      var i := 0;
      while i < |convs| && failure.None?
        invariant 0 <= i <= |convs|
        invariant (WorldOf(stats), failure) == RunChatgptConversations(w0, convs[..i], userId, db != null, b)
      {
        assert convs[..i + 1][..i] == convs[..i];
        failure := ProcessChatgptConversation(convs[i], userId, stats, b);
        i := i + 1;
      }
      if failure.Some? {
        RunConversationsStopsAtFailure(w0, convs, userId, db != null, b, i);
      } else {
        assert convs[..i] == convs;
      }
    }

    /** One iteration of the conversation loop: find-or-create, message check, message loop, aggregates. */
    method ProcessChatgptConversation(conv: Json, userId: string, stats: Stats, b: Builtins)
      returns (failure: Option<PyException>)
      modifies stats, db
      ensures (WorldOf(stats), failure) == ChatgptConversation(old(WorldOf(stats)), conv, userId, db != null, b)
    {
      if !conv.Object? {
        return None;
      }
      var f := conv.fields;
      var row: Option<nat> := None;
      if db != null {
        var found := FindOrCreateConversation(ConversationExternalId(f), ConversationTitle(f), userId, b);
        if found.Err? {
          return Some(found.error);
        }
        row := Some(found.value);
      }
      failure := ProcessConversationMessages(f, row, userId, stats, b);
    }

    /** The `scalar_one_or_none` lookup by user and external id, then insert or title update. */
    method FindOrCreateConversation(externalId: Json, title: Json, userId: string, b: Builtins)
      returns (r: Result<nat, PyException>)
      requires db != null
      modifies db
      ensures db.messages == old(db.messages)
      ensures match FindOrCreate(old(db.conversations), userId, externalId, title, b.render)
              case Err(e) => r == Err(e) && db.conversations == old(db.conversations)
              case Ok(found) => r == Ok(found.1) && db.conversations == found.0
    {
      var found := MatchingRows(db.conversations, userId, PyStr(externalId, b.render));
      if |found| > 1 {
        return Err(MultipleResultsFound);
      } else if found == [] {
        db.conversations := db.conversations + [NewConversationRow(userId, externalId, title, b.render)];
        return Ok(|db.conversations| - 1);
      }
      var k := found[0];
      assert k in found;
      if Truthy(title) && db.conversations[k].title != title {
        db.conversations := db.conversations[k := db.conversations[k].(title := title)];
      }
      r := Ok(k);
    }

    /** From the `messages` check of one conversation to its aggregate update. */
    method ProcessConversationMessages(f: seq<(string, Json)>, row: Option<nat>, userId: string, stats: Stats,
                                       b: Builtins) returns (failure: Option<PyException>)
      requires row.Some? <==> db != null
      requires row.Some? ==> row.value < |db.conversations|
      modifies stats, db
      ensures (WorldOf(stats), failure) == ConversationMessages(old(WorldOf(stats)), f, row, userId, b)
    {
      var msgs := MessageSource(f);
      if msgs == [] {
        return None;
      }
      stats.conversationsProcessed := stats.conversationsProcessed + 1;
      var count, words, first, last;
      count, words, first, last, failure := ProcessMessages(msgs, MessageContext(userId, row, b), stats);
      if failure.None? && row.Some? {
        var k := row.value;
        var r := db.conversations[k];
        r := r.(messageCount := r.messageCount + count);
        r := r.(wordCount := r.wordCount + words);
        r := r.(firstMessageDate := if r.firstMessageDate.Some? then r.firstMessageDate else first);
        r := r.(lastMessageDate := if last.Some? then last else r.lastMessageDate);
        db.conversations := db.conversations[k := r];
      }
    }

    /** The message loop of one conversation. */
    method ProcessMessages(msgs: seq<Json>, ctx: MessageContext, stats: Stats)
      returns (count: nat, words: nat, first: Option<Stamp>, last: Option<Stamp>, failure: Option<PyException>)
      requires ctx.conv.Some? <==> db != null
      requires ctx.conv.Some? ==> ctx.conv.value < |db.conversations|
      modifies stats, db
      ensures (Pass(stats.messagesProcessed, StoreOf().messages, count, words, first, last), failure)
           == RunMessages(Pass(old(stats.messagesProcessed), old(StoreOf().messages), 0, 0, None, None), msgs, ctx)
      ensures stats.conversationsProcessed == old(stats.conversationsProcessed)
      ensures stats.filesProcessed == old(stats.filesProcessed) && stats.errors == old(stats.errors)
      ensures StoreOf().conversations == old(StoreOf().conversations)
    {
      ghost var p0 := Pass(stats.messagesProcessed, StoreOf().messages, 0, 0, None, None);
      count, words, first, last, failure := 0, 0, None, None, None;
      var i := 0;
      while i < |msgs| && failure.None?
        invariant 0 <= i <= |msgs|
        invariant (Pass(stats.messagesProcessed, StoreOf().messages, count, words, first, last), failure)
               == RunMessages(p0, msgs[..i], ctx)
        invariant stats.conversationsProcessed == old(stats.conversationsProcessed)
        invariant stats.filesProcessed == old(stats.filesProcessed) && stats.errors == old(stats.errors)
        invariant StoreOf().conversations == old(StoreOf().conversations)
      {
        assert msgs[..i + 1][..i] == msgs[..i];
        count, words, first, last, failure := ProcessMessage(msgs[i], ctx, stats, count, words, first, last);
        i := i + 1;
      }
      if failure.Some? {
        RunMessagesStopsAtFailure(p0, msgs, ctx, i);
      } else {
        assert msgs[..i] == msgs;
      }
    }

    /** One iteration of the message loop. */
    method ProcessMessage(msg: Json, ctx: MessageContext, stats: Stats,
                          count: nat, words: nat, first: Option<Stamp>, last: Option<Stamp>)
      returns (count': nat, words': nat, first': Option<Stamp>, last': Option<Stamp>, failure: Option<PyException>)
      requires ctx.conv.Some? <==> db != null
      modifies stats, db
      ensures (Pass(stats.messagesProcessed, StoreOf().messages, count', words', first', last'), failure)
           == MessageStep(Pass(old(stats.messagesProcessed), old(StoreOf().messages), count, words, first, last), msg, ctx)
      ensures stats.conversationsProcessed == old(stats.conversationsProcessed)
      ensures stats.filesProcessed == old(stats.filesProcessed) && stats.errors == old(stats.errors)
      ensures StoreOf().conversations == old(StoreOf().conversations)
    {
      ghost var p := Pass(stats.messagesProcessed, StoreOf().messages, count, words, first, last);
      count', words', first', last', failure := count, words, first, last, None;
      if !msg.Object? {
        return;
      }
      var extracted := ExtractMessageContent(msg.fields, ctx.b);
      if extracted.Err? {
        failure := Some(extracted.error);
        return;
      }
      var content := extracted.value;
      if content == "" {
        return;
      }
      ghost var p1 := p.(processed := p.processed + 1, count := p.count + 1, words := p.words + WordCount(content));
      assert MessageStep(p, msg, ctx) == MessageStepFromContent(p1, msg.fields, content, ctx);
      stats.messagesProcessed := stats.messagesProcessed + 1;
      count' := count + 1;
      words' := words + WordCount(content);
      if db != null {
        var row := MessageRowFor(msg.fields, content, ctx, ctx.conv.value);
        if row.timestamp.Some? {
          var bounds := UpdateBounds(first, last, row.timestamp.value);
          if bounds.Err? {
            failure := Some(bounds.error);
            return;
          }
          first', last' := bounds.value.0, bounds.value.1;
        }
        db.messages := db.messages + [row];
      }
    }

    /** `_process_claude_json`: counts only; nothing is written to the session. */
    method ProcessClaudeJson(data: Json, stats: Stats) returns (failure: Option<PyException>)
      modifies stats
      ensures (WorldOf(stats), failure) == ClaudeJson(old(WorldOf(stats)), data)
    {
      var listed := ConversationList(data);
      if listed.Err? {
        return Some(listed.error);
      }
      var convs := listed.value;
      for i := 0 to |convs|
        invariant stats.conversationsProcessed == old(stats.conversationsProcessed) + ClaudeConversationCount(convs[..i])
        invariant stats.messagesProcessed == old(stats.messagesProcessed) + ClaudeMessageTotal(convs[..i])
        invariant stats.filesProcessed == old(stats.filesProcessed) && stats.errors == old(stats.errors)
      {
        assert convs[..i + 1][..i] == convs[..i];
        var conv := convs[i];
        if conv.Object? {
          var messages := GetOr(conv.fields, "messages", Array([]));
          if messages.Array? {
            stats.conversationsProcessed := stats.conversationsProcessed + 1;
            CountClaudeMessages(messages.items, stats);
          }
        }
      }
      assert convs[..|convs|] == convs;
      failure := None;
    }

    /** The inner loop of `_process_claude_json`: one more processed message per message with text or content. */
    method CountClaudeMessages(msgs: seq<Json>, stats: Stats)
      modifies stats
      ensures stats.messagesProcessed == old(stats.messagesProcessed) + ClaudeMessageCount(msgs)
      ensures stats.conversationsProcessed == old(stats.conversationsProcessed)
      ensures stats.filesProcessed == old(stats.filesProcessed) && stats.errors == old(stats.errors)
    {
      for j := 0 to |msgs|
        invariant stats.messagesProcessed == old(stats.messagesProcessed) + ClaudeMessageCount(msgs[..j])
        invariant stats.conversationsProcessed == old(stats.conversationsProcessed)
        invariant stats.filesProcessed == old(stats.filesProcessed) && stats.errors == old(stats.errors)
      {
        assert msgs[..j + 1][..j] == msgs[..j];
        var msg := msgs[j];
        if msg.Object? {
          var content := Or(GetOr(msg.fields, "text", Str("")), GetOr(msg.fields, "content", Str("")));
          if Truthy(content) {
            stats.messagesProcessed := stats.messagesProcessed + 1;
          }
        }
      }
      assert msgs[..|msgs|] == msgs;
    }
  }
}
