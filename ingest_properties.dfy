/**
 * What ingestion of a ChatGPT export guarantees, proved about the functions of
 * IngestModel (and so, through the method contracts, about the processor):
 * counting, stored rows, date bounds, aggregates, conversation identity and
 * the per-file bookkeeping of a directory export.
 */
module IngestProperties {
  import opened Wrappers
  import opened PyJson
  import opened PyText
  import opened IngestModel

  // ---------------------------------------------------------------------------
  // Content extraction

  /** The fallbacks of content extraction for the shapes the exports use. */
  lemma ContentFallbacks(msg: seq<(string, Json)>, b: Builtins)
    ensures !Has(msg, "content") && !Has(msg, "text") && !Has(msg, "parts") ==> ExtractMessageContent(msg, b) == Ok("")
    ensures Truthy(Get(msg, "content")) && Get(msg, "content").Array? ==>
              ExtractMessageContent(msg, b) == Ok(StrJoin(Get(msg, "content").items, b.render))
    ensures Truthy(Get(msg, "content")) && Get(msg, "content").Object? && !Has(Get(msg, "content").fields, "parts") ==>
              ExtractMessageContent(msg, b) == Ok(PyStr(GetOr(Get(msg, "content").fields, "text", Str("")), b.render))
  {
    GetOrCases(msg, "content", Null);
    GetOrCases(msg, "text", Null);
    GetOrCases(msg, "parts", Str(""));
  }

  /**
   * Extraction by the shape of the content source, wherever it came from
   * (`content`, `text` or `parts`): a list is joined with spaces; a dict
   * with `parts` joins what iterating them yields; a dict without `parts`
   * gives `str` of its `text`, or "" when it has none; a scalar gives its `str`.
   */
  lemma ContentCases(msg: seq<(string, Json)>, b: Builtins)
    ensures var c := ContentSource(msg);
            c.Array? ==> ExtractMessageContent(msg, b) == Ok(StrJoin(c.items, b.render))
    ensures var c := ContentSource(msg);
            c.Object? && Has(c.fields, "parts") && Iterate(Get(c.fields, "parts")).Ok? ==>
              ExtractMessageContent(msg, b) == Ok(StrJoin(Iterate(Get(c.fields, "parts")).value, b.render))
    ensures var c := ContentSource(msg);
            c.Object? && Has(c.fields, "parts") && Get(c.fields, "parts").Array? ==>
              ExtractMessageContent(msg, b) == Ok(StrJoin(Get(c.fields, "parts").items, b.render))
    ensures var c := ContentSource(msg);
            c.Object? && !Has(c.fields, "parts") && Has(c.fields, "text") ==>
              ExtractMessageContent(msg, b) == Ok(PyStr(Get(c.fields, "text"), b.render))
    ensures var c := ContentSource(msg);
            c.Object? && !Has(c.fields, "parts") && !Has(c.fields, "text") ==> ExtractMessageContent(msg, b) == Ok("")
    ensures var c := ContentSource(msg);
            (c.Null? || c.Bool? || c.Int? || c.Float?) ==> ExtractMessageContent(msg, b) == Ok(PyStr(c, b.render))
  {
    var c := ContentSource(msg);
    if c.Object? {
      GetOrCases(c.fields, "text", Str(""));
      if Has(c.fields, "text") {
        GetOrPresent(c.fields, "text", Str(""));
      }
    }
  }

  /** The words of content taken from `parts` are the words of the parts together. */
  lemma PartsWordCount(msg: seq<(string, Json)>, b: Builtins)
    requires Truthy(Get(msg, "content")) && Get(msg, "content").Object?
    requires Has(Get(msg, "content").fields, "parts") && Get(Get(msg, "content").fields, "parts").Array?
    ensures ExtractMessageContent(msg, b).Ok?
    ensures WordCount(ExtractMessageContent(msg, b).value)
         == SumWords(StrEach(Get(Get(msg, "content").fields, "parts").items, b.render))
  {
    WordCountOfJoin(StrEach(Get(Get(msg, "content").fields, "parts").items, b.render));
  }

  /** The extraction examples: parts, a plain string, a text dict, a mixed list, and the dropped cases. */
  lemma ContentExamples(b: Builtins)
    ensures ExtractMessageContent([("content", Object([("parts", Array([Str("a"), Str("b")]))]))], b) == Ok("a b")
    ensures ExtractMessageContent([("content", Str("hello"))], b) == Ok("hello")
    ensures ExtractMessageContent([("content", Object([("text", Str("x"))]))], b) == Ok("x")
    ensures ExtractMessageContent([("content", Array([Int(1), Str("two")]))], b) == Ok("1 two")
    ensures ExtractMessageContent([("content", Str(""))], b) == Ok("")
    ensures ExtractMessageContent([("content", Null)], b) == Ok("")
  {
    var parts := [("parts", Array([Str("a"), Str("b")]))];
    assert parts[0].0 == "parts";
    assert ContentSource([("content", Object(parts))]) == Object(parts);
    assert Get(parts, "parts") == Array([Str("a"), Str("b")]);
    assert StrEach([Str("a"), Str("b")], b.render) == ["a", "b"];
    assert JoinSpace(["a", "b"]) == "a b";
    var mixed := [Int(1), Str("two")];
    assert ContentSource([("content", Array(mixed))]) == Array(mixed);
    assert StrEach(mixed, b.render) == ["1", "two"];
    assert JoinSpace(["1", "two"]) == "1 two";
  }

  // ---------------------------------------------------------------------------
  // Counting and stored rows

  /** The content of a message the loop counts: a dict whose extracted content is non-empty. */
  function CountedContent(msg: Json, b: Builtins): Option<string>
  {
    if !msg.Object? then None
    else
      match ExtractMessageContent(msg.fields, b)
      case Ok(content) => if content == "" then None else Some(content)
      case Err(_) => None
  }

  /** The content a message contributes to the count: none, or its one content. */
  function Added(c: Option<string>): (r: seq<string>)
    ensures |r| <= 1
  {
    if c.Some? then [c.value] else []
  }

  /** The contents of the counted messages, in order. */
  function Counted(msgs: seq<Json>, b: Builtins): (r: seq<string>)
    ensures forall k :: 0 <= k < |r| ==> r[k] != ""
    decreases |msgs|
  {
    if msgs == [] then []
    else Counted(msgs[..|msgs| - 1], b) + Added(CountedContent(msgs[|msgs| - 1], b))
  }

  /** `after` is `before` followed by one row per content, in order, each holding that content and its word count. */
  predicate AppendedRows(before: seq<MessageRow>, after: seq<MessageRow>, contents: seq<string>, userId: string, c: nat)
  {
    |after| == |before| + |contents| && after[..|before|] == before
    && forall k :: 0 <= k < |contents| ==>
         after[|before| + k].content == contents[k] && after[|before| + k].wordCount == WordCount(contents[k])
         && after[|before| + k].conversation == c && after[|before| + k].userId == userId
  }

  /** What one message that does not fail changes in the pass. */
  lemma MessageStepEffect(q: Pass, msg: Json, ctx: MessageContext)
    requires MessageStep(q, msg, ctx).1.None?
    ensures var r := MessageStep(q, msg, ctx).0;
            var a := Added(CountedContent(msg, ctx.b));
            r.processed == q.processed + |a| && r.count == q.count + |a| && r.words == q.words + SumWords(a)
    ensures CountedContent(msg, ctx.b).None? || ctx.conv.None? ==>
              var r := MessageStep(q, msg, ctx).0;
              r.rows == q.rows && r.first == q.first && r.last == q.last
    ensures CountedContent(msg, ctx.b).Some? && ctx.conv.Some? ==>
              var r := MessageStep(q, msg, ctx).0;
              var row := MessageRowFor(msg.fields, CountedContent(msg, ctx.b).value, ctx, ctx.conv.value);
              r.rows == q.rows + [row]
              && (row.timestamp.None? ==> r.first == q.first && r.last == q.last)
              && (row.timestamp.Some? ==> UpdateBounds(q.first, q.last, row.timestamp.value) == Ok((r.first, r.last)))
  {
    var c := CountedContent(msg, ctx.b);
    if c.Some? {
      var s := c.value;
      var q1 := q.(processed := q.processed + 1, count := q.count + 1, words := q.words + WordCount(s));
      assert MessageStep(q, msg, ctx) == MessageStepFromContent(q1, msg.fields, s, ctx);
      assert SumWords([s]) == WordCount(s) + SumWords([]);
    } else {
      assert MessageStep(q, msg, ctx) == (q, None);
    }
  }

  /**
   * A message loop that completes counts exactly the dict messages with non-empty
   * content: each adds one to both counters and its token count to the words, and,
   * with a session, one row; without a session nothing is written.
   */
  lemma {:induction false} RunMessagesCounts(p: Pass, msgs: seq<Json>, ctx: MessageContext)
    requires RunMessages(p, msgs, ctx).1.None?
    ensures RunMessages(p, msgs, ctx).0.processed == p.processed + |Counted(msgs, ctx.b)|
    ensures RunMessages(p, msgs, ctx).0.count == p.count + |Counted(msgs, ctx.b)|
    ensures RunMessages(p, msgs, ctx).0.words == p.words + SumWords(Counted(msgs, ctx.b))
    ensures ctx.conv.None? ==> RunMessages(p, msgs, ctx).0.rows == p.rows
    ensures ctx.conv.Some? ==>
              AppendedRows(p.rows, RunMessages(p, msgs, ctx).0.rows, Counted(msgs, ctx.b), ctx.userId, ctx.conv.value)
    decreases |msgs|
  {
    if msgs != [] {
      var init := msgs[..|msgs| - 1];
      var msg := msgs[|msgs| - 1];
      var before := RunMessages(p, init, ctx);
      assert before.1.None?;
      RunMessagesCounts(p, init, ctx);
      var q := before.0;
      var contents := Counted(init, ctx.b);
      assert RunMessages(p, msgs, ctx) == MessageStep(q, msg, ctx);
      MessageStepEffect(q, msg, ctx);
      var c := CountedContent(msg, ctx.b);
      assert Counted(msgs, ctx.b) == contents + Added(c);
      if c.Some? {
        SumWordsAppend(contents, c.value);
        if ctx.conv.Some? {
          var r := MessageStep(q, msg, ctx).0;
          var row := MessageRowFor(msg.fields, c.value, ctx, ctx.conv.value);
          AppendRow(p.rows, q.rows, contents, row, ctx.userId, ctx.conv.value);
        }
      } else {
        assert contents + Added(c) == contents;
      }
    }
  }

  lemma AppendRow(before: seq<MessageRow>, mid: seq<MessageRow>, contents: seq<string>, row: MessageRow,
                  userId: string, c: nat)
    requires AppendedRows(before, mid, contents, userId, c)
    requires row.content != "" && row.wordCount == WordCount(row.content) && row.conversation == c && row.userId == userId
    ensures AppendedRows(before, mid + [row], contents + [row.content], userId, c)
  {
    var after := mid + [row];
    assert after[..|before|] == mid[..|before|];
    forall k | 0 <= k < |contents| + 1
      ensures after[|before| + k].content == (contents + [row.content])[k]
    {
      if k < |contents| {
        assert after[|before| + k] == mid[|before| + k];
      }
    }
  }

  /**
   * Whitespace-only content is counted as a message but adds no words; with a
   * session its row is written with a word count of 0, without one nothing else
   * changes.
   */
  lemma WhitespaceContentCountsNoWords(p: Pass, msg: Json, ctx: MessageContext)
    requires msg.Object?
    requires ExtractMessageContent(msg.fields, ctx.b).Ok?
    requires ExtractMessageContent(msg.fields, ctx.b).value != ""
    requires AllSpace(ExtractMessageContent(msg.fields, ctx.b).value)
    requires MessageStep(p, msg, ctx).1.None?
    ensures var r := MessageStep(p, msg, ctx).0;
            r.processed == p.processed + 1 && r.count == p.count + 1 && r.words == p.words
    ensures ctx.conv.None? ==> MessageStep(p, msg, ctx) == (p.(processed := p.processed + 1, count := p.count + 1), None)
    ensures ctx.conv.Some? ==>
              var r := MessageStep(p, msg, ctx).0;
              |r.rows| == |p.rows| + 1 && r.rows[..|p.rows|] == p.rows
              && r.rows[|p.rows|].content == ExtractMessageContent(msg.fields, ctx.b).value
              && r.rows[|p.rows|].wordCount == 0
  {
    var content := ExtractMessageContent(msg.fields, ctx.b).value;
    SplitEmptyIffAllSpace(content);
    assert CountedContent(msg, ctx.b) == Some(content);
    MessageStepEffect(p, msg, ctx);
    assert SumWords([content]) == WordCount(content) + SumWords([]);
    if ctx.conv.Some? {
      var r := MessageStep(p, msg, ctx).0;
      assert (p.rows + [MessageRowFor(msg.fields, content, ctx, ctx.conv.value)])[..|p.rows|] == p.rows;
    }
  }

  /** Without a session the only way a message loop fails is a content that cannot be extracted. */
  lemma {:induction false} SessionlessFailureIsExtraction(p: Pass, msgs: seq<Json>, ctx: MessageContext)
    requires ctx.conv.None?
    requires RunMessages(p, msgs, ctx).1.Some?
    ensures exists k :: 0 <= k < |msgs| && msgs[k].Object?
              && ExtractMessageContent(msgs[k].fields, ctx.b) == Err(RunMessages(p, msgs, ctx).1.value)
    decreases |msgs|
  {
    var init := msgs[..|msgs| - 1];
    var before := RunMessages(p, init, ctx);
    if before.1.Some? {
      SessionlessFailureIsExtraction(p, init, ctx);
      var k :| 0 <= k < |init| && init[k].Object? && ExtractMessageContent(init[k].fields, ctx.b) == Err(before.1.value);
      assert msgs[k] == init[k];
    } else {
      var k := |msgs| - 1;
      assert msgs[k].Object? && ExtractMessageContent(msgs[k].fields, ctx.b) == Err(RunMessages(p, msgs, ctx).1.value);
    }
  }

  // ---------------------------------------------------------------------------
  // First and last message dates

  predicate HasStamp(rows: seq<MessageRow>)
  {
    exists k :: 0 <= k < |rows| && rows[k].timestamp.Some?
  }

  /** `t` is the timestamp of some row and no row's timestamp is earlier. */
  predicate IsEarliest(t: Stamp, rows: seq<MessageRow>)
  {
    (exists k :: 0 <= k < |rows| && rows[k].timestamp == Some(t))
    && forall k :: 0 <= k < |rows| && rows[k].timestamp.Some? ==> t.instant <= rows[k].timestamp.value.instant
  }

  /** `t` is the timestamp of some row and no row's timestamp is later. */
  predicate IsLatest(t: Stamp, rows: seq<MessageRow>)
  {
    (exists k :: 0 <= k < |rows| && rows[k].timestamp == Some(t))
    && forall k :: 0 <= k < |rows| && rows[k].timestamp.Some? ==> rows[k].timestamp.value.instant <= t.instant
  }

  /** All timestamps are naive, or all are aware. */
  predicate OneAwareness(rows: seq<MessageRow>)
  {
    forall i, j :: 0 <= i < |rows| && 0 <= j < |rows| && rows[i].timestamp.Some? && rows[j].timestamp.Some? ==>
      rows[i].timestamp.value.aware == rows[j].timestamp.value.aware
  }

  /** `first` and `last` are the earliest and latest timestamps of `rows`, absent when none has one. */
  predicate Bounds(first: Option<Stamp>, last: Option<Stamp>, rows: seq<MessageRow>)
  {
    (first.Some? <==> HasStamp(rows)) && (last.Some? <==> HasStamp(rows))
    && (first.Some? ==> IsEarliest(first.value, rows))
    && (last.Some? ==> IsLatest(last.value, rows))
    && OneAwareness(rows)
  }

  /** Adding one row keeps the bounds when the comparisons succeed. */
  lemma BoundsStep(first: Option<Stamp>, last: Option<Stamp>, rows: seq<MessageRow>, row: MessageRow)
    requires Bounds(first, last, rows)
    requires row.timestamp.Some? ==> UpdateBounds(first, last, row.timestamp.value).Ok?
    ensures row.timestamp.None? ==> Bounds(first, last, rows + [row])
    ensures row.timestamp.Some? ==>
              Bounds(UpdateBounds(first, last, row.timestamp.value).value.0,
                     UpdateBounds(first, last, row.timestamp.value).value.1, rows + [row])
  {
    var rows' := rows + [row];
    assert forall k :: 0 <= k < |rows| ==> rows'[k] == rows[k];
    if row.timestamp.None? {
      assert HasStamp(rows') ==> HasStamp(rows) by {
        if HasStamp(rows') {
          var k :| 0 <= k < |rows'| && rows'[k].timestamp.Some?;
          assert k < |rows|;
        }
      }
    } else {
      var t := row.timestamp.value;
      var u := UpdateBounds(first, last, t).value;
      assert rows'[|rows|].timestamp == Some(t);
      if first.Some? {
        var i :| 0 <= i < |rows| && rows[i].timestamp == first;
        assert t.aware == first.value.aware;
        forall k | 0 <= k < |rows'| && rows'[k].timestamp.Some?
          ensures rows'[k].timestamp.value.aware == t.aware
        {
          if k < |rows| {
            assert rows[k].timestamp.value.aware == rows[i].timestamp.value.aware;
          }
        }
      } else {
        forall k | 0 <= k < |rows'| && rows'[k].timestamp.Some?
          ensures k == |rows|
        {
          if k < |rows| {
            assert HasStamp(rows);
          }
        }
      }
      assert IsEarliest(u.0.value, rows');
      assert IsLatest(u.1.value, rows');
    }
  }

  /**
   * In a message loop with a session that completes, the running first and last
   * dates stay the earliest and latest timestamps of the rows written since `base`.
   */
  lemma {:induction false} RunMessagesBounds(p: Pass, msgs: seq<Json>, ctx: MessageContext, base: nat)
    requires ctx.conv.Some? && base <= |p.rows|
    requires Bounds(p.first, p.last, p.rows[base..])
    requires RunMessages(p, msgs, ctx).1.None?
    ensures base <= |RunMessages(p, msgs, ctx).0.rows|
    ensures Bounds(RunMessages(p, msgs, ctx).0.first, RunMessages(p, msgs, ctx).0.last,
                   RunMessages(p, msgs, ctx).0.rows[base..])
    decreases |msgs|
  {
    if msgs != [] {
      var init := msgs[..|msgs| - 1];
      var msg := msgs[|msgs| - 1];
      var before := RunMessages(p, init, ctx);
      RunMessagesBounds(p, init, ctx, base);
      var q := before.0;
      assert RunMessages(p, msgs, ctx) == MessageStep(q, msg, ctx);
      MessageStepEffect(q, msg, ctx);
      var c := CountedContent(msg, ctx.b);
      if c.Some? {
        var row := MessageRowFor(msg.fields, c.value, ctx, ctx.conv.value);
        assert q.rows[base..] + [row] == (q.rows + [row])[base..];
        BoundsStep(q.first, q.last, q.rows[base..], row);
      }
    }
  }

  // ---------------------------------------------------------------------------
  // One conversation's messages and aggregates

  /**
   * When the messages of a conversation with a row are processed without error:
   * the stats count one conversation and its counted messages; one row is written
   * per counted message; the conversation's counters rise by the count and the
   * words; `first_message_date` is kept when set and otherwise becomes the earliest
   * new timestamp; `last_message_date` becomes the latest new timestamp when there
   * is one and is kept otherwise; no other conversation row changes.
   */
  lemma ConversationAggregates(w: World, conv: seq<(string, Json)>, k: nat, userId: string, b: Builtins)
    requires k < |w.store.conversations|
    requires MessageSource(conv) != []
    requires ConversationMessages(w, conv, Some(k), userId, b).1.None?
    ensures var w' := ConversationMessages(w, conv, Some(k), userId, b).0;
            var contents := Counted(MessageSource(conv), b);
            w'.stats == w.stats.(conversationsProcessed := w.stats.conversationsProcessed + 1,
                                 messagesProcessed := w.stats.messagesProcessed + |contents|)
            && AppendedRows(w.store.messages, w'.store.messages, contents, userId, k)
            && |w'.store.conversations| == |w.store.conversations|
            && (forall j :: 0 <= j < |w.store.conversations| && j != k ==>
                  w'.store.conversations[j] == w.store.conversations[j])
    ensures var w' := ConversationMessages(w, conv, Some(k), userId, b).0;
            var contents := Counted(MessageSource(conv), b);
            var added := w'.store.messages[|w.store.messages|..];
            var before := w.store.conversations[k];
            var after := w'.store.conversations[k];
            after == before.(messageCount := before.messageCount + |contents|,
                             wordCount := before.wordCount + SumWords(contents),
                             firstMessageDate := after.firstMessageDate,
                             lastMessageDate := after.lastMessageDate)
            && OneAwareness(added)
            && (before.firstMessageDate.Some? ==> after.firstMessageDate == before.firstMessageDate)
            && (before.firstMessageDate.None? ==>
                  (after.firstMessageDate.Some? <==> HasStamp(added))
                  && (after.firstMessageDate.Some? ==> IsEarliest(after.firstMessageDate.value, added)))
            && (HasStamp(added) ==> after.lastMessageDate.Some? && IsLatest(after.lastMessageDate.value, added))
            && (!HasStamp(added) ==> after.lastMessageDate == before.lastMessageDate)
  {
    var msgs := MessageSource(conv);
    var ctx := MessageContext(userId, Some(k), b);
    var p0 := Pass(w.stats.messagesProcessed, w.store.messages, 0, 0, None, None);
    var pr := RunMessages(p0, msgs, ctx).0;
    var before := w.store.conversations[k];
    var w' := World(Store(w.store.conversations[k := Aggregate(before, pr)], pr.rows),
                    w.stats.(conversationsProcessed := w.stats.conversationsProcessed + 1,
                             messagesProcessed := pr.processed));
    assert ConversationMessages(w, conv, Some(k), userId, b).0 == w';
    RunMessagesCounts(p0, msgs, ctx);
    assert p0.rows[|p0.rows|..] == [];
    RunMessagesBounds(p0, msgs, ctx, |p0.rows|);
  }

  // ---------------------------------------------------------------------------
  // Conversation identity

  /** A lookup over rows none of which matches returns nothing. */
  lemma {:induction false} NoMatchingRows(rows: seq<ConversationRow>, userId: string, key: string)
    requires forall j :: 0 <= j < |rows| ==> !IsMatch(rows[j], userId, key)
    ensures MatchingRows(rows, userId, key) == []
    decreases |rows|
  {
    if rows != [] {
      NoMatchingRows(rows[..|rows| - 1], userId, key);
    }
  }

  /** The lookup by (user, `str(external id)`, "chatgpt") that matches no row appends a new row. */
  lemma LookupCreates(rows: seq<ConversationRow>, userId: string, externalId: Json, title: Json, render: Json -> string)
    requires forall j :: 0 <= j < |rows| ==> !IsMatch(rows[j], userId, PyStr(externalId, render))
    ensures FindOrCreate(rows, userId, externalId, title, render)
              == Ok((rows + [NewConversationRow(userId, externalId, title, render)], |rows|))
  {
    NoMatchingRows(rows, userId, PyStr(externalId, render));
  }

  /** The lookup that matches exactly one row reuses it, replacing its title by a truthy one. */
  lemma LookupReuses(rows: seq<ConversationRow>, userId: string, externalId: Json, title: Json, render: Json -> string,
                     k: nat)
    requires k < |rows| && IsMatch(rows[k], userId, PyStr(externalId, render))
    requires forall j :: 0 <= j < |rows| && IsMatch(rows[j], userId, PyStr(externalId, render)) ==> j == k
    ensures FindOrCreate(rows, userId, externalId, title, render)
              == Ok((rows[k := if Truthy(title) then rows[k].(title := title) else rows[k]], k))
  {
    var found := MatchingRows(rows, userId, PyStr(externalId, render));
    assert k in found;
    forall x | 0 <= x < |found|
      ensures found[x] == k
    {
      assert found[x] in found;
    }
    assert found[0] == k && found[|found| - 1] == k;
    assert |found| == 1;
    if !Truthy(title) || rows[k].title == title {
      assert rows[k := if Truthy(title) then rows[k].(title := title) else rows[k]] == rows;
    }
  }

  /** `scalar_one_or_none` raises when two rows match. */
  lemma LookupRaises(rows: seq<ConversationRow>, userId: string, externalId: Json, title: Json, render: Json -> string,
                     i: nat, j: nat)
    requires i < j < |rows|
    requires IsMatch(rows[i], userId, PyStr(externalId, render)) && IsMatch(rows[j], userId, PyStr(externalId, render))
    ensures FindOrCreate(rows, userId, externalId, title, render) == Err(MultipleResultsFound)
  {
    var found := MatchingRows(rows, userId, PyStr(externalId, render));
    assert i in found && j in found;
  }

  /** Ingesting a conversation with a truthy id again finds the same row and adds none. */
  lemma ReingestFindsSameRow(rows: seq<ConversationRow>, userId: string, externalId: Json, title: Json,
                             title2: Json, render: Json -> string)
    requires Truthy(externalId)
    requires FindOrCreate(rows, userId, externalId, title, render).Ok?
    ensures var (rows1, k) := FindOrCreate(rows, userId, externalId, title, render).value;
            var again := FindOrCreate(rows1, userId, externalId, title2, render);
            again.Ok? && again.value.1 == k && |again.value.0| == |rows1|
  {
    var key := PyStr(externalId, render);
    var (rows1, k) := FindOrCreate(rows, userId, externalId, title, render).value;
    var found := MatchingRows(rows, userId, key);
    forall j | 0 <= j < |rows1| && IsMatch(rows1[j], userId, key)
      ensures j == k
    {
      if j < |rows| {
        assert IsMatch(rows[j], userId, key);
        assert j in found;
      }
    }
    assert IsMatch(rows1[k], userId, key);
    LookupReuses(rows1, userId, externalId, title2, render, k);
  }

  /**
   * A conversation whose id is falsy is stored with no external id but looked up
   * by `str(id)`, so its row is never found again: ingesting it again adds a second row.
   */
  lemma FalsyIdDuplicates(rows: seq<ConversationRow>, userId: string, externalId: Json, title: Json,
                          title2: Json, render: Json -> string)
    requires !Truthy(externalId)
    requires FindOrCreate(rows, userId, externalId, title, render) == Ok((rows + [NewConversationRow(userId, externalId, title, render)], |rows|))
    ensures var rows1 := rows + [NewConversationRow(userId, externalId, title, render)];
            FindOrCreate(rows1, userId, externalId, title2, render)
              == Ok((rows1 + [NewConversationRow(userId, externalId, title2, render)], |rows1|))
  {
    var key := PyStr(externalId, render);
    var rows1 := rows + [NewConversationRow(userId, externalId, title, render)];
    var found := MatchingRows(rows, userId, key);
    forall j | 0 <= j < |rows1|
      ensures !IsMatch(rows1[j], userId, key)
    {
      if j < |rows| {
        assert rows1[j] == rows[j];
      }
    }
    LookupCreates(rows1, userId, externalId, title2, render);
  }

  /**
   * With a session, the conversation row is created before the message check: a
   * new conversation without messages still gets a row with zero counters and no
   * dates, and the stats do not change.
   */
  lemma RowCreatedWithoutMessages(w: World, conv: Json, userId: string, b: Builtins)
    requires conv.Object? && MessageSource(conv.fields) == []
    requires forall j :: 0 <= j < |w.store.conversations| ==>
               !IsMatch(w.store.conversations[j], userId, PyStr(ConversationExternalId(conv.fields), b.render))
    ensures var (w', e) := ChatgptConversation(w, conv, userId, true, b);
            var rows := w'.store.conversations;
            e.None? && w'.stats == w.stats && w'.store.messages == w.store.messages
            && |rows| == |w.store.conversations| + 1 && rows[..|w.store.conversations|] == w.store.conversations
            && rows[|rows| - 1].messageCount == 0 && rows[|rows| - 1].wordCount == 0
            && rows[|rows| - 1].firstMessageDate.None? && rows[|rows| - 1].lastMessageDate.None?
            && rows[|rows| - 1].title == ConversationTitle(conv.fields)
  {
    LookupCreates(w.store.conversations, userId, ConversationExternalId(conv.fields),
                  ConversationTitle(conv.fields), b.render);
    var rows := w.store.conversations + [NewConversationRow(userId, ConversationExternalId(conv.fields),
                                                            ConversationTitle(conv.fields), b.render)];
    assert rows[..|w.store.conversations|] == w.store.conversations;
  }

  /** A message dict carrying only `content`. */
  function TextMessage(text: string): Json
  {
    Object([("content", Str(text))])
  }

  /** A conversation without `messages` whose `mapping` has a root node and two message nodes. */
  function MappingConversation(t1: string, t2: string): seq<(string, Json)>
  {
    [("id", Str("c1")),
     ("mapping", Object([("root", Object([("message", Null)])),
                         ("n1", Object([("message", TextMessage(t1))])),
                         ("n2", Object([("message", TextMessage(t2))]))]))]
  }

  lemma MappingConversationSource(t1: string, t2: string)
    ensures MessageSource(MappingConversation(t1, t2)) == [TextMessage(t1), TextMessage(t2)]
  {
    var conv := MappingConversation(t1, t2);
    assert !Has(conv, "messages") by {
      assert conv[0].0 != "messages" && conv[1].0 != "messages";
    }
    GetOrCases(conv, "messages", Array([]));
    assert conv[1..][0] == conv[1] && conv[0].0 != "mapping";
    assert GetOr(conv[1..], "mapping", Null) == conv[1].1;
    assert Get(conv, "mapping") == conv[1].1;
    var nodes := Get(conv, "mapping").fields;
    assert FlattenMapping(nodes[2..]) == [TextMessage(t2)];
    assert FlattenMapping(nodes[1..]) == [TextMessage(t1), TextMessage(t2)];
  }

  /** `TextMessage(t)` has content `t`. */
  lemma TextMessageContent(t: string, b: Builtins)
    ensures ExtractMessageContent(TextMessage(t).fields, b) == Ok(t)
  {
    assert ContentSource(TextMessage(t).fields) == Str(t);
  }

  /** Without a session, a message with non-empty content `t` is counted with the words of `t`. */
  lemma CountedStep(p: Pass, msg: Json, t: string, ctx: MessageContext)
    requires ctx.conv.None? && msg.Object? && t != "" && ExtractMessageContent(msg.fields, ctx.b) == Ok(t)
    ensures MessageStep(p, msg, ctx)
         == (p.(processed := p.processed + 1, count := p.count + 1, words := p.words + WordCount(t)), None)
  {
  }

  /** One more message after a run that raised nothing is one more loop step. */
  lemma RunMessagesSnoc(p: Pass, msgs: seq<Json>, m: Json, ctx: MessageContext)
    requires RunMessages(p, msgs, ctx).1.None?
    ensures RunMessages(p, msgs + [m], ctx) == MessageStep(RunMessages(p, msgs, ctx).0, m, ctx)
  {
    assert (msgs + [m])[..|msgs|] == msgs;
  }

  /** Two messages with non-empty contents are both counted, without a session. */
  lemma TwoMessagesRun(p0: Pass, ctx: MessageContext, m1: Json, m2: Json, t1: string, t2: string)
    requires ctx.conv.None? && m1.Object? && m2.Object? && t1 != "" && t2 != ""
    requires ExtractMessageContent(m1.fields, ctx.b) == Ok(t1) && ExtractMessageContent(m2.fields, ctx.b) == Ok(t2)
    ensures RunMessages(p0, [m1, m2], ctx)
         == (p0.(processed := p0.processed + 2, count := p0.count + 2,
                 words := p0.words + WordCount(t1) + WordCount(t2)), None)
  {
    var p1 := p0.(processed := p0.processed + 1, count := p0.count + 1, words := p0.words + WordCount(t1));
    CountedStep(p0, m1, t1, ctx);
    assert [m1][..0] == [];
    assert RunMessages(p0, [m1], ctx) == (p1, None);
    RunMessagesSnoc(p0, [m1], m2, ctx);
    assert [m1] + [m2] == [m1, m2];
    CountedStep(p1, m2, t2, ctx);
  }

  /** The two messages of that conversation make one conversation and two messages processed. */
  lemma MappingConversationMessages(store: Store, userId: string, b: Builtins, t1: string, t2: string)
    requires t1 != "" && t2 != ""
    ensures ConversationMessages(World(store, EmptyStats), MappingConversation(t1, t2), None, userId, b)
         == (World(store, StatsValue(1, 2, [], [])), None)
  {
    MappingConversationSource(t1, t2);
    TextMessageContent(t1, b);
    TextMessageContent(t2, b);
    TwoMessagesRun(Pass(0, store.messages, 0, 0, None, None), MessageContext(userId, None, b),
                   TextMessage(t1), TextMessage(t2), t1, t2);
  }

  /**
   * A conversation with no `messages` list whose `mapping` has three nodes, two of
   * them carrying a message with non-empty content, counts one conversation and two messages.
   */
  lemma MappingScenario(store: Store, userId: string, b: Builtins, t1: string, t2: string)
    requires t1 != "" && t2 != ""
    ensures ChatgptJson(World(store, EmptyStats), Array([Object(MappingConversation(t1, t2))]), userId, false, b)
         == (World(store, StatsValue(1, 2, [], [])), None)
  {
    var w := World(store, EmptyStats);
    var conv := MappingConversation(t1, t2);
    MappingConversationMessages(store, userId, b, t1, t2);
    assert [Object(conv)][..0] == [];
    assert RunChatgptConversations(w, [Object(conv)], userId, false, b) == ChatgptConversation(w, Object(conv), userId, false, b);
  }

  // ---------------------------------------------------------------------------
  // Files of a directory export

  /**
   * Every file of a directory adds exactly one entry, either its name to
   * `files_processed` or one error; earlier entries are kept.
   */
  lemma {:induction false} DirectoryOneEntryPerFile(w: World, files: seq<ExportFile>, userId: string, isClaude: bool,
                                                    withDb: bool, b: Builtins)
    ensures var s := DirectoryExport(w, files, userId, isClaude, withDb, b).stats;
            |s.filesProcessed| + |s.errors| == |w.stats.filesProcessed| + |w.stats.errors| + |files|
            && |w.stats.filesProcessed| <= |s.filesProcessed| && |w.stats.errors| <= |s.errors|
            && s.filesProcessed[..|w.stats.filesProcessed|] == w.stats.filesProcessed
            && s.errors[..|w.stats.errors|] == w.stats.errors
    ensures var s := DirectoryExport(w, files, userId, isClaude, withDb, b).stats;
            forall i :: |w.stats.filesProcessed| <= i < |s.filesProcessed| ==>
              exists j :: 0 <= j < |files| && files[j].name == s.filesProcessed[i]
    decreases |files|
  {
    if files != [] {
      var init := files[..|files| - 1];
      var f := files[|files| - 1];
      var w1 := DirectoryExport(w, init, userId, isClaude, withDb, b);
      DirectoryOneEntryPerFile(w, init, userId, isClaude, withDb, b);
      var (w2, e) := JsonFile(w1, f, userId, isClaude, withDb, b);
      JsonFileKeepsLists(w1, f, userId, isClaude, withDb, b);
      var s := DirectoryExport(w, files, userId, isClaude, withDb, b).stats;
      forall i | |w.stats.filesProcessed| <= i < |s.filesProcessed|
        ensures exists j :: 0 <= j < |files| && files[j].name == s.filesProcessed[i]
      {
        if i < |w1.stats.filesProcessed| {
          assert s.filesProcessed[i] == w1.stats.filesProcessed[i];
          var j :| 0 <= j < |init| && init[j].name == w1.stats.filesProcessed[i];
          assert files[j] == init[j];
        } else {
          assert files[|files| - 1].name == s.filesProcessed[i];
        }
      }
      assert s.filesProcessed[..|w.stats.filesProcessed|] == w1.stats.filesProcessed[..|w.stats.filesProcessed|];
      assert s.errors[..|w.stats.errors|] == w1.stats.errors[..|w.stats.errors|];
    }
  }

  /** Processing one file leaves `files_processed` and `errors` to the directory loop. */
  lemma JsonFileKeepsLists(w: World, file: ExportFile, userId: string, isClaude: bool, withDb: bool, b: Builtins)
    ensures JsonFile(w, file, userId, isClaude, withDb, b).0.stats.filesProcessed == w.stats.filesProcessed
    ensures JsonFile(w, file, userId, isClaude, withDb, b).0.stats.errors == w.stats.errors
  {
    if file.loaded.Parsed? && !isClaude {
      match ConversationList(file.loaded.data)
      case Err(_) =>
      case Ok(convs) => ConversationsKeepLists(w, convs, userId, withDb, b);
    }
  }

  lemma {:induction false} ConversationsKeepLists(w: World, convs: seq<Json>, userId: string, withDb: bool, b: Builtins)
    ensures RunChatgptConversations(w, convs, userId, withDb, b).0.stats.filesProcessed == w.stats.filesProcessed
    ensures RunChatgptConversations(w, convs, userId, withDb, b).0.stats.errors == w.stats.errors
    decreases |convs|
  {
    if convs != [] {
      ConversationsKeepLists(w, convs[..|convs| - 1], userId, withDb, b);
    }
  }

  /** The directory loop over all files is the loop over the first `k`, then over the rest. */
  lemma {:induction false} DirectoryExportSplit(w: World, files: seq<ExportFile>, k: nat, userId: string, isClaude: bool,
                                                withDb: bool, b: Builtins)
    requires k <= |files|
    ensures DirectoryExport(w, files, userId, isClaude, withDb, b)
         == DirectoryExport(DirectoryExport(w, files[..k], userId, isClaude, withDb, b), files[k..], userId, isClaude, withDb, b)
    decreases |files|
  {
    if k == |files| {
      assert files[..k] == files && files[k..] == [];
    } else {
      var init := files[..|files| - 1];
      DirectoryExportSplit(w, init, k, userId, isClaude, withDb, b);
      assert init[..k] == files[..k];
      var tail := files[k..];
      assert tail[..|tail| - 1] == init[k..];
      assert tail[|tail| - 1] == files[|files| - 1];
    }
  }

  /**
   * The outcome of the `k`-th file of a directory: when processing it raised
   * nothing, its name is added to `files_processed` and `errors` is unchanged;
   * when it raised, one "Failed to process" error naming it is added and
   * `files_processed` is unchanged. Both lists keep that entry to the end.
   */
  lemma DirectoryFileOutcome(w: World, files: seq<ExportFile>, k: nat, userId: string, isClaude: bool,
                             withDb: bool, b: Builtins)
    requires k < |files|
    ensures var before := DirectoryExport(w, files[..k], userId, isClaude, withDb, b).stats;
            var e := JsonFile(DirectoryExport(w, files[..k], userId, isClaude, withDb, b), files[k], userId, isClaude, withDb, b).1;
            var after := DirectoryExport(w, files[..k + 1], userId, isClaude, withDb, b).stats;
            (e.None? ==> after.filesProcessed == before.filesProcessed + [files[k].name] && after.errors == before.errors)
            && (e.Some? ==> after.errors == before.errors + [FileFailedMessage(files[k].name, e.value)]
                            && after.filesProcessed == before.filesProcessed)
    ensures var after := DirectoryExport(w, files[..k + 1], userId, isClaude, withDb, b).stats;
            var final := DirectoryExport(w, files, userId, isClaude, withDb, b).stats;
            |after.filesProcessed| <= |final.filesProcessed| && final.filesProcessed[..|after.filesProcessed|] == after.filesProcessed
            && |after.errors| <= |final.errors| && final.errors[..|after.errors|] == after.errors
  {
    var wk := DirectoryExport(w, files[..k], userId, isClaude, withDb, b);
    JsonFileKeepsLists(wk, files[k], userId, isClaude, withDb, b);
    var prefix := files[..k + 1];
    assert prefix[..|prefix| - 1] == files[..k] && prefix[|prefix| - 1] == files[k];
    DirectoryExportSplit(w, files, k + 1, userId, isClaude, withDb, b);
    DirectoryOneEntryPerFile(DirectoryExport(w, prefix, userId, isClaude, withDb, b), files[k + 1..], userId, isClaude, withDb, b);
  }

  // ---------------------------------------------------------------------------
  // Datetime comparison, mapping order, titles and the Claude counts

  /**
   * Among datetimes of one awareness `<` never raises and is a strict total
   * order on their instants; a naive and an aware datetime raise either way round.
   */
  lemma LessOrder(a: Stamp, b: Stamp, c: Stamp)
    ensures a.aware == b.aware ==> Less(a, b).Ok? && Less(b, a).Ok?
    ensures a.aware == b.aware ==> !(Less(a, b).value && Less(b, a).value)
    ensures a.aware == b.aware && a.instant != b.instant ==> Less(a, b).value || Less(b, a).value
    ensures a.aware == b.aware == c.aware && Less(a, b).value && Less(b, c).value ==> Less(a, c).value
    ensures a.aware != b.aware ==> Less(a, b) == Less(b, a) == Err(NaiveAwareComparison)
  {
  }

  /** The messages of two runs of mapping nodes are those of the first run, then those of the second. */
  lemma {:induction false} FlattenMappingAppend(a: seq<(string, Json)>, c: seq<(string, Json)>)
    ensures FlattenMapping(a + c) == FlattenMapping(a) + FlattenMapping(c)
    decreases |a|
  {
    if a == [] {
      assert a + c == c;
    } else {
      assert (a + c)[0] == a[0] && (a + c)[1..] == a[1..] + c;
      FlattenMappingAppend(a[1..], c);
    }
  }

  /** A node contributes its `message` exactly when the node and the message are both dicts. */
  predicate NodeMessage(node: Json, m: Json)
  {
    node.Object? && Get(node.fields, "message") == m && m.Object?
  }

  /** The flattened messages are exactly the dict messages of dict nodes. */
  lemma {:induction false} FlattenMappingMember(nodes: seq<(string, Json)>, m: Json)
    ensures m in FlattenMapping(nodes) <==> exists k :: 0 <= k < |nodes| && NodeMessage(nodes[k].1, m)
    decreases |nodes|
  {
    if nodes != [] {
      FlattenMappingMember(nodes[1..], m);
      if exists k :: 0 <= k < |nodes| && NodeMessage(nodes[k].1, m) {
        var k :| 0 <= k < |nodes| && NodeMessage(nodes[k].1, m);
        if k > 0 {
          assert nodes[1..][k - 1] == nodes[k];
        }
      }
      if exists k :: 0 <= k < |nodes[1..]| && NodeMessage(nodes[1..][k].1, m) {
        var k :| 0 <= k < |nodes[1..]| && NodeMessage(nodes[1..][k].1, m);
        assert nodes[k + 1] == nodes[1..][k];
      }
    }
  }

  /** A truthy title is kept; a missing or falsy one becomes "Untitled". */
  lemma ConversationTitleCases(conv: seq<(string, Json)>)
    ensures ConversationTitle(conv) == if Truthy(Get(conv, "title")) then Get(conv, "title") else Str("Untitled")
  {
    GetOrCases(conv, "title", Str(""));
    GetOrCases(conv, "title", Null);
    if Has(conv, "title") {
      GetOrPresent(conv, "title", Str(""));
    }
  }

  /** A Claude message counts when it is a dict whose `text`, or else whose `content`, is truthy. */
  lemma ClaudeCountsCases(msg: Json)
    ensures ClaudeCounts(msg) <==> msg.Object? && (Truthy(Get(msg.fields, "text")) || Truthy(Get(msg.fields, "content")))
  {
    if msg.Object? {
      OrTruthy(GetOr(msg.fields, "text", Str("")), GetOr(msg.fields, "content", Str("")));
      GetOrCases(msg.fields, "text", Str(""));
      GetOrCases(msg.fields, "content", Str(""));
      GetOrCases(msg.fields, "text", Null);
      GetOrCases(msg.fields, "content", Null);
      if Has(msg.fields, "text") {
        GetOrPresent(msg.fields, "text", Str(""));
      }
      if Has(msg.fields, "content") {
        GetOrPresent(msg.fields, "content", Str(""));
      }
    }
  }

  /** The count over two lists of messages is the sum of their counts. */
  lemma {:induction false} ClaudeMessageCountAppend(a: seq<Json>, c: seq<Json>)
    ensures ClaudeMessageCount(a + c) == ClaudeMessageCount(a) + ClaudeMessageCount(c)
    decreases |c|
  {
    if c == [] {
      assert a + c == a;
    } else {
      var c' := c[..|c| - 1];
      ClaudeMessageCountAppend(a, c');
      assert (a + c)[..|a + c| - 1] == a + c';
      assert (a + c)[|a + c| - 1] == c[|c| - 1];
    }
  }

  /** One message counts one exactly when it has a truthy `text` or `content`. */
  lemma ClaudeMessageCountOne(m: Json)
    ensures ClaudeMessageCount([m]) == if ClaudeCounts(m) then 1 else 0
  {
    assert [m][..0] == [];
  }

  /** The count over two lists of conversations is the sum of their counts. */
  lemma {:induction false} ClaudeConversationCountAppend(a: seq<Json>, c: seq<Json>)
    ensures ClaudeConversationCount(a + c) == ClaudeConversationCount(a) + ClaudeConversationCount(c)
    ensures ClaudeMessageTotal(a + c) == ClaudeMessageTotal(a) + ClaudeMessageTotal(c)
    decreases |c|
  {
    if c == [] {
      assert a + c == a;
    } else {
      var c' := c[..|c| - 1];
      ClaudeConversationCountAppend(a, c');
      assert (a + c)[..|a + c| - 1] == a + c';
      assert (a + c)[|a + c| - 1] == c[|c| - 1];
    }
  }

  /**
   * One conversation counts one exactly when it is a dict whose `messages` is a
   * list or is missing; so an empty `messages` list still counts a conversation.
   * Its messages are counted only then.
   */
  lemma ClaudeConversationCountOne(conv: Json)
    ensures ClaudeConversationCount([conv]) == if ClaudeConversationCounted(conv) then 1 else 0
    ensures ClaudeConversationCounted(conv) <==>
              conv.Object? && (!Has(conv.fields, "messages") || Get(conv.fields, "messages").Array?)
    ensures ClaudeMessageTotal([conv])
         == if ClaudeConversationCounted(conv) then ClaudeMessageCount(GetOr(conv.fields, "messages", Array([])).items) else 0
    ensures ClaudeConversationCounted(Object([("messages", Array([]))])) && ClaudeConversationCounted(Object([]))
  {
    assert [conv][..0] == [];
    if conv.Object? {
      GetOrCases(conv.fields, "messages", Array([]));
      if Has(conv.fields, "messages") {
        GetOrPresent(conv.fields, "messages", Array([]));
      }
    }
  }

  /**
   * Timestamp parsing in every case. The value read is `create_time` when truthy,
   * else `timestamp`; a string goes through `fromisoformat` with every "Z"
   * replaced, a number or bool through `utcfromtimestamp` to a naive datetime,
   * and None, a list or a dict gives no timestamp.
   */
  lemma ParseTimestampCases(msg: seq<(string, Json)>, b: Builtins)
    ensures var t := Or(Get(msg, "create_time"), Get(msg, "timestamp"));
            && t == (if Truthy(Get(msg, "create_time")) then Get(msg, "create_time") else Get(msg, "timestamp"))
            && (t.Str? ==> ParseTimestamp(msg, b) == b.fromIsoFormat(ReplaceChar(t.sval, 'Z', "+00:00")))
            && (t.Int? || t.Float? || t.Bool? ==>
                  ParseTimestamp(msg, b) == if b.fromTimestamp(t).Some? then Some(Stamp(b.fromTimestamp(t).value, false)) else None)
            && (t.Null? || t.Array? || t.Object? ==> ParseTimestamp(msg, b) == None)
  {
  }

  /** A falsy `create_time`, such as 0, defers to `timestamp`. */
  lemma ParseTimestampFallback(b: Builtins)
    ensures ParseTimestamp([("create_time", Int(0)), ("timestamp", Str("1Z"))], b) == b.fromIsoFormat("1+00:00")
  {
    var msg := [("create_time", Int(0)), ("timestamp", Str("1Z"))];
    assert msg[0].0 == "create_time" && msg[1].0 == "timestamp";
    assert Get(msg, "timestamp") == Str("1Z");
    ParseTimestampCases(msg, b);
    ReplaceZ();
  }

  lemma ReplaceZ()
    ensures ReplaceChar("1Z", 'Z', "+00:00") == "1+00:00"
  {
    assert "1Z" == "1" + "Z";
    ReplaceCharAppend("1", "Z", 'Z', "+00:00");
    ReplaceCharOne('1', 'Z', "+00:00");
    ReplaceCharOne('Z', 'Z', "+00:00");
  }

  // ---------------------------------------------------------------------------
  // The ChatGPT conversation loop: skips and totals

  /** The ChatGPT loop counts a conversation when it is a dict whose message source is non-empty. */
  predicate ChatgptCounts(conv: Json)
  {
    conv.Object? && MessageSource(conv.fields) != []
  }

  /** The number of conversations of a list that the ChatGPT loop counts. */
  function ChatgptConversationCount(convs: seq<Json>): (n: nat)
    ensures n <= |convs|
    decreases |convs|
  {
    if convs == [] then 0
    else ChatgptConversationCount(convs[..|convs| - 1]) + (if ChatgptCounts(convs[|convs| - 1]) then 1 else 0)
  }

  /** The number of messages the ChatGPT loop counts over a list: the counted contents of every counted conversation. */
  function ChatgptMessageTotal(convs: seq<Json>, b: Builtins): nat
    decreases |convs|
  {
    if convs == [] then 0
    else
      var conv := convs[|convs| - 1];
      ChatgptMessageTotal(convs[..|convs| - 1], b)
        + (if ChatgptCounts(conv) then |Counted(MessageSource(conv.fields), b)| else 0)
  }

  /**
   * The skips of the conversation loop: an entry that is not a dict changes
   * nothing; a dict whose message source is empty changes no counter and no
   * message row. Without a session it changes nothing at all; with one, only
   * the find-or-create of its row takes place, and the lookup's error is the
   * only one it can raise.
   */
  lemma ChatgptConversationSkips(w: World, conv: Json, userId: string, withDb: bool, b: Builtins)
    ensures !conv.Object? ==> ChatgptConversation(w, conv, userId, withDb, b) == (w, None)
    ensures conv.Object? && MessageSource(conv.fields) == [] && !withDb ==>
              ChatgptConversation(w, conv, userId, withDb, b) == (w, None)
    ensures conv.Object? && MessageSource(conv.fields) == [] && withDb ==>
              var r := ChatgptConversation(w, conv, userId, withDb, b);
              var found := FindOrCreate(w.store.conversations, userId, ConversationExternalId(conv.fields),
                                        ConversationTitle(conv.fields), b.render);
              && r.0.stats == w.stats && r.0.store.messages == w.store.messages
              && (found.Err? ==> r == (w, Some(found.error)))
              && (found.Ok? ==> r == (w.(store := w.store.(conversations := found.value.0)), None))
  {
  }

  /**
   * A conversation that raises nothing adds one to `conversations_processed`
   * when it is counted, and its counted messages to `messages_processed`.
   */
  lemma ChatgptConversationCounts(w: World, conv: Json, userId: string, withDb: bool, b: Builtins)
    requires ChatgptConversation(w, conv, userId, withDb, b).1.None?
    ensures var r := ChatgptConversation(w, conv, userId, withDb, b).0.stats;
            && r.conversationsProcessed == w.stats.conversationsProcessed + (if ChatgptCounts(conv) then 1 else 0)
            && r.messagesProcessed == w.stats.messagesProcessed
                 + (if ChatgptCounts(conv) then |Counted(MessageSource(conv.fields), b)| else 0)
  {
    if ChatgptCounts(conv) {
      var f := conv.fields;
      var msgs := MessageSource(f);
      if withDb {
        var found := FindOrCreate(w.store.conversations, userId, ConversationExternalId(f), ConversationTitle(f), b.render);
        var w1 := w.(store := w.store.(conversations := found.value.0));
        var p0' := Pass(w.stats.messagesProcessed, w1.store.messages, 0, 0, None, None);
        RunMessagesCounts(p0', msgs, MessageContext(userId, Some(found.value.1), b));
      } else {
        var p0' := Pass(w.stats.messagesProcessed, w.store.messages, 0, 0, None, None);
        RunMessagesCounts(p0', msgs, MessageContext(userId, None, b));
      }
    }
  }

  /**
   * A conversation loop that raises nothing adds to `conversations_processed`
   * the number of counted conversations, and to `messages_processed` their
   * counted messages.
   */
  lemma {:induction false} RunChatgptConversationsCounts(w: World, convs: seq<Json>, userId: string, withDb: bool,
                                                         b: Builtins)
    requires RunChatgptConversations(w, convs, userId, withDb, b).1.None?
    ensures var r := RunChatgptConversations(w, convs, userId, withDb, b).0.stats;
            && r.conversationsProcessed == w.stats.conversationsProcessed + ChatgptConversationCount(convs)
            && r.messagesProcessed == w.stats.messagesProcessed + ChatgptMessageTotal(convs, b)
    decreases |convs|
  {
    if convs != [] {
      var init := convs[..|convs| - 1];
      var before := RunChatgptConversations(w, init, userId, withDb, b);
      RunChatgptConversationsCounts(w, init, userId, withDb, b);
      ChatgptConversationCounts(before.0, convs[|convs| - 1], userId, withDb, b);
    }
  }

  /**
   * A ChatGPT file that raises nothing has a conversation list, and adds its
   * counted conversations and their counted messages to the totals.
   */
  lemma ChatgptJsonCounts(w: World, data: Json, userId: string, withDb: bool, b: Builtins)
    requires ChatgptJson(w, data, userId, withDb, b).1.None?
    ensures ConversationList(data).Ok?
    ensures var convs := ConversationList(data).value;
            var r := ChatgptJson(w, data, userId, withDb, b).0.stats;
            && r.conversationsProcessed == w.stats.conversationsProcessed + ChatgptConversationCount(convs)
            && r.messagesProcessed == w.stats.messagesProcessed + ChatgptMessageTotal(convs, b)
  {
    RunChatgptConversationsCounts(w, ConversationList(data).value, userId, withDb, b);
  }
}
