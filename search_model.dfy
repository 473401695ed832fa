// Values and specification functions of the search service: the rows the
// service reads, the result records it returns, the filter of the full-text
// query, the weighted fusion of two result lists, the hybrid page, and the
// conversation context attached to a page.

module SearchModel {
  import opened Wrappers
  import opened Sorting

  // ---------------------------------------------------------------------------
  // Rows and records
  // ---------------------------------------------------------------------------

  /** A `conversations` row; identifiers are the text of their UUIDs. */
  datatype StoredConversation = StoredConversation(
    id: string,
    userId: string,
    projectId: Option<string>,
    title: Option<string>,
    provider: string)

  /** A `messages` row; a timestamp is an instant, NULL being None. */
  datatype StoredMessage = StoredMessage(
    id: string,
    userId: string,
    conversationId: Option<string>,
    role: string,
    content: string,
    wordCount: int,
    timestamp: Option<int>)

  datatype Db = Db(conversations: seq<StoredConversation>, messages: seq<StoredMessage>)

  /** A message as the query returns it, with its conversation loaded. */
  datatype Hit = Hit(message: StoredMessage, conversation: Option<StoredConversation>)

  /** One entry of a result's `context` list. */
  datatype ContextEntry = ContextEntry(
    id: string,
    role: string,
    content: string,
    timestamp: Option<int>,
    isCurrent: bool)

  /** The dictionary the service returns for one message. */
  datatype SearchResult = SearchResult(
    messageId: string,
    conversationId: string,
    title: Option<string>,
    provider: string,
    role: string,
    content: string,
    timestamp: Option<int>,
    wordCount: int,
    relevanceScore: real,
    context: Option<seq<ContextEntry>>)

  /**
   * The keyword filters of a search request. The date bounds are the instants
   * PostgreSQL reads from the request's date text; None when absent or empty.
   */
  datatype Filters = Filters(
    projectId: Option<string>,
    provider: Option<string>,
    role: Option<string>,
    dateFrom: Option<int>,
    dateTo: Option<int>)

  /**
   * PostgreSQL text search, left abstract: whether `to_tsvector(content)`
   * matches `plainto_tsquery(query)`, and `ts_rank` of the pair.
   */
  datatype TextSearch = TextSearch(matches: (string, string) -> bool, rank: (string, string) -> real)

  /** `str()` of a nullable UUID column. */
  function IdText(id: Option<string>): string
  {
    if id.Some? then id.value else "None"
  }

  /** A filter value is applied when it is truthy: present and non-empty. */
  predicate Given(v: Option<string>)
  {
    v.Some? && v.value != ""
  }

  /** The first conversation of `cs` with id `id`. */
  function ConversationById(cs: seq<StoredConversation>, id: Option<string>): Option<StoredConversation>
  {
    if cs == [] then None
    else if Some(cs[0].id) == id then Some(cs[0])
    else ConversationById(cs[1..], id)
  }

  /** The conversation a message's `conversation` relationship loads. */
  function ConversationOf(db: Db, m: StoredMessage): Option<StoredConversation>
  {
    ConversationById(db.conversations, m.conversationId)
  }

  function Repeat<T>(x: T, n: nat): seq<T>
  {
    if n == 0 then [] else [x] + Repeat(x, n - 1)
  }

  // ---------------------------------------------------------------------------
  // Full-text search: filter, order and window
  // ---------------------------------------------------------------------------

  /** The conditions on the message row itself, including the text match. */
  predicate MessageFilter(m: StoredMessage, userId: string, query: string, f: Filters, ts: TextSearch)
  {
    && m.userId == userId
    && (Given(f.role) ==> m.role == f.role.value)
    && (f.dateFrom.Some? ==> m.timestamp.Some? && m.timestamp.value >= f.dateFrom.value)
    && (f.dateTo.Some? ==> m.timestamp.Some? && m.timestamp.value <= f.dateTo.value)
    && ts.matches(m.content, query)
  }

  /** The conditions on a joined conversation row. */
  predicate JoinFilter(c: StoredConversation, m: StoredMessage, f: Filters)
  {
    && Some(c.id) == m.conversationId
    && (Given(f.projectId) ==> c.projectId == f.projectId)
    && (Given(f.provider) ==> c.provider == f.provider.value)
  }

  /** How many conversations of `cs` join `m` under the filters. */
  function CountJoined(cs: seq<StoredConversation>, m: StoredMessage, f: Filters): nat
  {
    if cs == [] then 0
    else (if JoinFilter(cs[0], m, f) then 1 else 0) + CountJoined(cs[1..], m, f)
  }

  /** How many conversations of `cs`, whoever owns them, have provider `p`. */
  function CountProvider(cs: seq<StoredConversation>, p: string): nat
  {
    if cs == [] then 0
    else (if cs[0].provider == p then 1 else 0) + CountProvider(cs[1..], p)
  }

  /**
   * How many rows of the query's FROM clause one message yields. A joined
   * query pairs it with its joined conversations. Without a join, a provider
   * condition pairs it with every conversation of that provider, whoever owns
   * it. `providerJoins` says whether a provider filter adds the join.
   */
  function Multiplicity(db: Db, m: StoredMessage, f: Filters, providerJoins: bool): nat
  {
    if Given(f.projectId) || (providerJoins && Given(f.provider)) then CountJoined(db.conversations, m, f)
    else if Given(f.provider) then CountProvider(db.conversations, f.provider.value)
    else 1
  }

  function RowsOf(db: Db, msgs: seq<StoredMessage>, userId: string, query: string, f: Filters, ts: TextSearch,
                  providerJoins: bool): seq<Hit>
  {
    if msgs == [] then []
    else
      var m := msgs[0];
      (if MessageFilter(m, userId, query, f, ts)
       then Repeat(Hit(m, ConversationOf(db, m)), Multiplicity(db, m, f, providerJoins))
       else [])
      + RowsOf(db, msgs[1..], userId, query, f, ts, providerJoins)
  }

  /**
   * The rows of the full-text query as written: the join is added for a
   * project filter only, since the rendered query always names the
   * `conversation_id` column.
   */
  function FtsRowsAsWritten(db: Db, userId: string, query: string, f: Filters, ts: TextSearch): seq<Hit>
  {
    RowsOf(db, db.messages, userId, query, f, ts, false)
  }

  /** The rows of the full-text query with the conversation joined for either filter. */
  function FtsRows(db: Db, userId: string, query: string, f: Filters, ts: TextSearch): seq<Hit>
  {
    RowsOf(db, db.messages, userId, query, f, ts, true)
  }

  /** `s[offset:offset+count]` for non-negative bounds. */
  function Window<T>(s: seq<T>, offset: nat, count: nat): seq<T>
  {
    if offset >= |s| then []
    else if offset + count >= |s| then s[offset..]
    else s[offset..offset + count]
  }

  /** `s[:n]` for a non-negative `n`. */
  function Take<T>(s: seq<T>, n: nat): seq<T>
  {
    if n >= |s| then s else s[..n]
  }

  /** ORDER BY rank DESC OFFSET offset LIMIT limit. */
  function FtsPage(rows: seq<Hit>, query: string, ts: TextSearch, limit: nat, offset: nat): seq<Hit>
  {
    Window(SortDesc(rows, (h: Hit) => ts.rank(h.message.content, query)), offset, limit)
  }

  // ---------------------------------------------------------------------------
  // Formatting
  // ---------------------------------------------------------------------------

  function FormatHit(h: Hit): SearchResult
  {
    var m := h.message;
    SearchResult(
      m.id, IdText(m.conversationId),
      if h.conversation.Some? then h.conversation.value.title else Some("Untitled"),
      if h.conversation.Some? then h.conversation.value.provider else "unknown",
      m.role, m.content, m.timestamp, m.wordCount, 1.0, None)
  }

  function FormatAll(hits: seq<Hit>): seq<SearchResult>
  {
    seq(|hits|, i requires 0 <= i < |hits| => FormatHit(hits[i]))
  }

  /**
   * The records `full_text_search` returns once its provider filter is joined
   * to the message's own conversation (`FtsRows`); the query as written, which
   * leaves that join out, is `FtsRowsAsWritten`.
   */
  function FtsResults(db: Db, userId: string, query: string, f: Filters, ts: TextSearch, limit: nat, offset: nat)
    : seq<SearchResult>
  {
    FormatAll(FtsPage(FtsRows(db, userId, query, f, ts), query, ts, limit, offset))
  }

  /** Semantic search is not implemented: it finds nothing. */
  function VectorSearch(query: string, limit: nat, offset: nat, threshold: real, f: Filters): seq<SearchResult>
  {
    []
  }

  // ---------------------------------------------------------------------------
  // Weighted fusion
  // ---------------------------------------------------------------------------

  /** `{r["message_id"]: r for r in rs}`: a later record replaces an earlier one. */
  function ResultMap(rs: seq<SearchResult>): map<string, SearchResult>
  {
    if rs == [] then map[]
    else ResultMap(rs[..|rs| - 1])[rs[|rs| - 1].messageId := rs[|rs| - 1]]
  }

  /** The message ids of `rs`, each once, in order of first appearance. */
  function FirstIds(rs: seq<SearchResult>): seq<string>
  {
    if rs == [] then []
    else
      var ids := FirstIds(rs[..|rs| - 1]);
      if rs[|rs| - 1].messageId in ids then ids else ids + [rs[|rs| - 1].messageId]
  }

  /** The union of the two id sets, visited in order of first appearance. */
  function UnionIds(fts: seq<SearchResult>, vec: seq<SearchResult>): seq<string>
  {
    FirstIds(fts + vec)
  }

  /** A list's score for an id; a missing record scores 0. */
  function ScoreIn(m: map<string, SearchResult>, id: string): real
  {
    if id in m then m[id].relevanceScore else 0.0
  }

  function Score(r: SearchResult): real
  {
    r.relevanceScore
  }

  /** The fused record for one id: the FTS record, else the vector one, rescored. */
  function FusedRecord(fm: map<string, SearchResult>, vm: map<string, SearchResult>, alpha: real, id: string)
    : Option<SearchResult>
  {
    var score := alpha * ScoreIn(vm, id) + (1.0 - alpha) * ScoreIn(fm, id);
    if id in fm then Some(fm[id].(relevanceScore := score))
    else if id in vm then Some(vm[id].(relevanceScore := score))
    else None
  }

  function FuseIds(ids: seq<string>, fm: map<string, SearchResult>, vm: map<string, SearchResult>, alpha: real)
    : seq<SearchResult>
  {
    if ids == [] then []
    else
      var r := FusedRecord(fm, vm, alpha, ids[|ids| - 1]);
      FuseIds(ids[..|ids| - 1], fm, vm, alpha) + (if r.Some? then [r.value] else [])
  }

  /** The fused records before sorting. */
  function Fused(fts: seq<SearchResult>, vec: seq<SearchResult>, alpha: real): seq<SearchResult>
  {
    FuseIds(UnionIds(fts, vec), ResultMap(fts), ResultMap(vec), alpha)
  }

  /** All fused records, best score first. */
  function Ranking(fts: seq<SearchResult>, vec: seq<SearchResult>, alpha: real): seq<SearchResult>
  {
    SortDesc(Fused(fts, vec, alpha), Score)
  }

  /** What `_combine_search_results` returns. */
  function Combined(fts: seq<SearchResult>, vec: seq<SearchResult>, alpha: real, limit: nat): seq<SearchResult>
  {
    Take(Ranking(fts, vec, alpha), limit)
  }

  /** The page `hybrid_search` returns: a window of a list already cut to `limit`. */
  function HybridPageAsWritten(fts: seq<SearchResult>, vec: seq<SearchResult>, alpha: real, limit: nat, offset: nat)
    : seq<SearchResult>
  {
    Window(Combined(fts, vec, alpha, limit), offset, limit)
  }

  /** The page with the fusion cut at `offset + limit`, so the window can reach it. */
  function HybridPage(fts: seq<SearchResult>, vec: seq<SearchResult>, alpha: real, limit: nat, offset: nat)
    : seq<SearchResult>
  {
    Window(Combined(fts, vec, alpha, offset + limit), offset, limit)
  }

  // ---------------------------------------------------------------------------
  // Conversation context
  // ---------------------------------------------------------------------------

  function Entry(m: StoredMessage): ContextEntry
  {
    ContextEntry(m.id, m.role, m.content, m.timestamp, false)
  }

  /** The entries of the fetched messages of conversation `c`, in fetched order. */
  function Group(fetched: seq<StoredMessage>, c: string): seq<ContextEntry>
  {
    if fetched == [] then []
    else
      var m := fetched[|fetched| - 1];
      Group(fetched[..|fetched| - 1], c) + (if IdText(m.conversationId) == c then [Entry(m)] else [])
  }

  /** `messages_by_conv` after the grouping loop. */
  function GroupsOf(fetched: seq<StoredMessage>): map<string, seq<ContextEntry>>
  {
    if fetched == [] then map[]
    else
      var groups := GroupsOf(fetched[..|fetched| - 1]);
      var m := fetched[|fetched| - 1];
      var c := IdText(m.conversationId);
      groups[c := (if c in groups then groups[c] else []) + [Entry(m)]]
  }

  /** Flags the first entry with message id `id`, if there is one. */
  function MarkFirst(entries: seq<ContextEntry>, id: string): seq<ContextEntry>
  {
    if entries == [] then []
    else if entries[0].id == id then [entries[0].(isCurrent := true)] + entries[1..]
    else [entries[0]] + MarkFirst(entries[1..], id)
  }

  /** `messages_by_conv` after the marking loop has visited `results`. */
  function MarkResults(groups: map<string, seq<ContextEntry>>, results: seq<SearchResult>)
    : map<string, seq<ContextEntry>>
  {
    if results == [] then groups
    else
      var marked := MarkResults(groups, results[..|results| - 1]);
      var r := results[|results| - 1];
      if r.conversationId in marked then marked[r.conversationId := MarkFirst(marked[r.conversationId], r.messageId)]
      else marked
  }

  /** Every result whose conversation has a list gets that list as context. */
  function Attach(results: seq<SearchResult>, groups: map<string, seq<ContextEntry>>): seq<SearchResult>
  {
    seq(|results|, i requires 0 <= i < |results| =>
      if results[i].conversationId in groups then results[i].(context := Some(groups[results[i].conversationId]))
      else results[i])
  }

  /**
   * What `add_conversation_context` returns for the messages its query
   * fetched. The lists are shared, so every result sees its conversation's
   * list as the marking loop leaves it.
   */
  function WithContext(results: seq<SearchResult>, fetched: seq<StoredMessage>): seq<SearchResult>
  {
    if results == [] then results
    else Attach(results, MarkResults(GroupsOf(fetched), results))
  }
}
