// The operations of the search service that build their results step by
// step: formatting, the full-text search, the weighted fusion, the hybrid
// search and the attachment of conversation context. Each is proved to
// compute the specification function of the same name in SearchModel.

module SearchService {
  import opened Wrappers
  import opened Sorting
  import opened SearchModel
  import opened SearchProperties

  /**
   * One record per message, in order: relevance 1.0, no context yet, and
   * "Untitled" / "unknown" when the message has no conversation.
   */
  method FormatSearchResults(hits: seq<Hit>) returns (results: seq<SearchResult>)
    ensures |results| == |hits|
    ensures forall i :: 0 <= i < |hits| ==> results[i] == FormatHit(hits[i])
    ensures forall i :: 0 <= i < |hits| ==>
      && results[i].messageId == hits[i].message.id
      && results[i].content == hits[i].message.content
      && results[i].relevanceScore == 1.0
      && results[i].context.None?
      && (hits[i].conversation.None? ==> results[i].title == Some("Untitled") && results[i].provider == "unknown")
      && (hits[i].conversation.Some? ==>
            results[i].title == hits[i].conversation.value.title
            && results[i].provider == hits[i].conversation.value.provider)
  {
    results := [];
    for i := 0 to |hits|
      invariant |results| == i
      invariant forall k :: 0 <= k < i ==> results[k] == FormatHit(hits[k])
    {
      var msg := hits[i].message;
      var conv := hits[i].conversation;
      results := results + [SearchResult(
        msg.id,
        IdText(msg.conversationId),
        if conv.Some? then conv.value.title else Some("Untitled"),
        if conv.Some? then conv.value.provider else "unknown",
        msg.role,
        msg.content,
        msg.timestamp,
        msg.wordCount,
        1.0,
        None)];
    }
  }

  /** Runs the (joined) full-text query and formats the page it returns. */
  method FullTextSearch(db: Db, userId: string, query: string, limit: nat, offset: nat, f: Filters, ts: TextSearch)
    returns (results: seq<SearchResult>)
    ensures results == FtsResults(db, userId, query, f, ts, limit, offset)
    ensures |results| <= limit
  {
    var rows := FtsRows(db, userId, query, f, ts);
    var page := FtsPage(rows, query, ts, limit, offset);
    results := FormatSearchResults(page);
    FtsResultsFacts(db, userId, query, f, ts, limit, offset);
  }

  /**
   * Weighted fusion: one record per id of either list, rescored, best first,
   * cut to `limit`.
   */
  method CombineSearchResults(fts: seq<SearchResult>, vec: seq<SearchResult>, alpha: real, limit: nat)
    returns (combined: seq<SearchResult>)
    ensures combined == Combined(fts, vec, alpha, limit)
    ensures |combined| == if limit <= |UnionIds(fts, vec)| then limit else |UnionIds(fts, vec)|
    ensures NonIncreasing(combined, Score)
  {
    var ftsMap := ResultMap(fts);
    var vectorMap := ResultMap(vec);
    var allIds := UnionIds(fts, vec);
    combined := [];
    for k := 0 to |allIds|
      invariant combined == FuseIds(allIds[..k], ftsMap, vectorMap, alpha)
    {
      var msgId := allIds[k];
      var ftsScore := if msgId in ftsMap then ftsMap[msgId].relevanceScore else 0.0;
      var vectorScore := if msgId in vectorMap then vectorMap[msgId].relevanceScore else 0.0;
      var combinedScore := alpha * vectorScore + (1.0 - alpha) * ftsScore;
      assert allIds[..k + 1][..k] == allIds[..k] && allIds[..k + 1][k] == msgId;
      assert ScoreIn(ftsMap, msgId) == ftsScore && ScoreIn(vectorMap, msgId) == vectorScore;
      ghost var fused := FusedRecord(ftsMap, vectorMap, alpha, msgId);
      assert FuseIds(allIds[..k + 1], ftsMap, vectorMap, alpha)
          == FuseIds(allIds[..k], ftsMap, vectorMap, alpha) + (if fused.Some? then [fused.value] else []);
      if msgId in ftsMap {
        combined := combined + [ftsMap[msgId].(relevanceScore := combinedScore)];
      } else if msgId in vectorMap {
        combined := combined + [vectorMap[msgId].(relevanceScore := combinedScore)];
      }
      assert fused.Some? ==> fused.value.relevanceScore == combinedScore;
      assert combined == FuseIds(allIds[..k + 1], ftsMap, vectorMap, alpha);
    }
    assert allIds[..|allIds|] == allIds;
    combined := SortDesc(combined, Score);
    combined := Take(combined, limit);
    CombinedLength(fts, vec, alpha, limit);
    CombinedOrder(fts, vec, alpha, limit);
  }

  /**
   * Hybrid search with the fusion cut at `offset + limit` and enough FTS
   * candidates fetched for the requested page. The vector search is a stub,
   * so every record scores `1 - alpha`.
   */
  method HybridSearch(db: Db, userId: string, query: string, limit: nat, offset: nat, alpha: real, threshold: real,
                      f: Filters, ts: TextSearch)
    returns (page: seq<SearchResult>)
    ensures page == HybridPage(FtsResults(db, userId, query, f, ts, (offset + limit) * 2, 0),
                               VectorSearch(query, (offset + limit) * 2, 0, threshold, f), alpha, limit, offset)
    ensures |page| <= limit
    ensures forall k :: 0 <= k < |page| ==> page[k].relevanceScore == 1.0 - alpha
  {
    var ftsResults := FullTextSearch(db, userId, query, (offset + limit) * 2, 0, f, ts);
    var vectorResults := VectorSearch(query, (offset + limit) * 2, 0, threshold, f);
    var combined := CombineSearchResults(ftsResults, vectorResults, alpha, offset + limit);
    page := Window(combined, offset, limit);
    FtsResultsScore(db, userId, query, f, ts, (offset + limit) * 2, 0);
    HybridStubScores(ftsResults, alpha, limit, offset);
    WindowFacts(combined, offset, limit);
  }

  /**
   * Groups the fetched messages by conversation, flags in each list the
   * first entry of every result's message, and gives each result whose
   * conversation has a list that list. The lists are shared between the
   * results of one conversation, so every such result sees the list as the
   * marking loop leaves it; attaching the final lists after the loop gives
   * the same records.
   */
  method AddConversationContext(results: seq<SearchResult>, fetched: seq<StoredMessage>)
    returns (out: seq<SearchResult>)
    ensures out == WithContext(results, fetched)
  {
    if |results| == 0 {
      return results;
    }
    var messagesByConv: map<string, seq<ContextEntry>> := map[];
    for k := 0 to |fetched|
      invariant messagesByConv == GroupsOf(fetched[..k])
    {
      var msg := fetched[k];
      var convId := IdText(msg.conversationId);
      if convId !in messagesByConv {
        messagesByConv := messagesByConv[convId := []];
      }
      messagesByConv := messagesByConv[convId := messagesByConv[convId]
                                                 + [ContextEntry(msg.id, msg.role, msg.content, msg.timestamp, false)]];
      assert fetched[..k + 1][..k] == fetched[..k];
    }
    assert fetched[..|fetched|] == fetched;

    for k := 0 to |results|
      invariant messagesByConv == MarkResults(GroupsOf(fetched), results[..k])
    {
      var convId := results[k].conversationId;
      if convId in messagesByConv {
        var currentMsgId := results[k].messageId;
        var entries := messagesByConv[convId];
        var j := 0;
        while j < |entries| && entries[j].id != currentMsgId
          invariant 0 <= j <= |entries|
          invariant forall i :: 0 <= i < j ==> entries[i].id != currentMsgId
        {
          j := j + 1;
        }
        if j < |entries| {
          MarkFirstFound(entries, currentMsgId, j);
          entries := entries[j := entries[j].(isCurrent := true)];
        } else {
          MarkFirstAbsent(entries, currentMsgId);
        }
        messagesByConv := messagesByConv[convId := entries];
      }
      assert results[..k + 1][..k] == results[..k];
    }
    assert results[..|results|] == results;

    out := [];
    for i := 0 to |results|
      invariant |out| == i
      invariant forall k :: 0 <= k < i ==> out[k] == Attach(results, messagesByConv)[k]
    {
      var result := results[i];
      if result.conversationId in messagesByConv {
        result := result.(context := Some(messagesByConv[result.conversationId]));
      }
      out := out + [result];
    }
  }
}
