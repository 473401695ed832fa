// What the search model guarantees: the fusion's ids, scores, base records,
// order and length; the hybrid page; the filters of the full-text query;
// and the context lists and their `is_current` flags.

module SearchProperties {
  import opened Wrappers
  import opened Sorting
  import opened SearchModel

  // ---------------------------------------------------------------------------
  // Id lists and result maps
  // ---------------------------------------------------------------------------

  /** Some record of `rs` has message id `id`. */
  ghost predicate HasId(rs: seq<SearchResult>, id: string)
  {
    exists i :: 0 <= i < |rs| && rs[i].messageId == id
  }

  lemma HasIdSnoc(rs: seq<SearchResult>, id: string)
    requires rs != []
    ensures HasId(rs, id) <==> HasId(rs[..|rs| - 1], id) || rs[|rs| - 1].messageId == id
  {
    var init := rs[..|rs| - 1];
    if HasId(rs, id) {
      var i :| 0 <= i < |rs| && rs[i].messageId == id;
      if i < |init| {
        assert init[i] == rs[i];
      }
    }
    if HasId(init, id) {
      var i :| 0 <= i < |init| && init[i].messageId == id;
      assert rs[i] == init[i];
    }
  }

  /** `FirstIds` lists every id of `rs` exactly once. */
  lemma {:induction false} FirstIdsFacts(rs: seq<SearchResult>)
    ensures forall i, j :: 0 <= i < j < |FirstIds(rs)| ==> FirstIds(rs)[i] != FirstIds(rs)[j]
    ensures forall id :: id in FirstIds(rs) <==> HasId(rs, id)
  {
    if rs != [] {
      FirstIdsFacts(rs[..|rs| - 1]);
      forall id
        ensures HasId(rs, id) <==> HasId(rs[..|rs| - 1], id) || rs[|rs| - 1].messageId == id
      {
        HasIdSnoc(rs, id);
      }
    }
  }

  /** The dictionary built from a result list has a key for every id of the list. */
  lemma {:induction false} ResultMapKeys(rs: seq<SearchResult>)
    ensures forall id :: id in ResultMap(rs) <==> HasId(rs, id)
  {
    if rs != [] {
      ResultMapKeys(rs[..|rs| - 1]);
      forall id
        ensures HasId(rs, id) <==> HasId(rs[..|rs| - 1], id) || rs[|rs| - 1].messageId == id
      {
        HasIdSnoc(rs, id);
      }
    }
  }

  /** The dictionary maps an id to a record of the list that carries it. */
  lemma {:induction false} ResultMapValues(rs: seq<SearchResult>)
    ensures forall id :: id in ResultMap(rs) ==> ResultMap(rs)[id].messageId == id && ResultMap(rs)[id] in rs
  {
    if rs != [] {
      var init := rs[..|rs| - 1];
      ResultMapValues(init);
      forall id | id in ResultMap(rs) && id != rs[|rs| - 1].messageId
        ensures ResultMap(rs)[id] in rs
      {
        var k :| 0 <= k < |init| && init[k] == ResultMap(init)[id];
        assert rs[k] == init[k];
      }
    }
  }

  /** No later record of `rs` has the id of record `i`. */
  ghost predicate LastWithId(rs: seq<SearchResult>, i: int)
    requires 0 <= i < |rs|
  {
    forall j :: i < j < |rs| ==> rs[j].messageId != rs[i].messageId
  }

  /** The record the dictionary keeps for an id is the last one with it. */
  lemma {:induction false} ResultMapLastWins(rs: seq<SearchResult>)
    ensures forall i :: 0 <= i < |rs| && LastWithId(rs, i) ==>
      rs[i].messageId in ResultMap(rs) && ResultMap(rs)[rs[i].messageId] == rs[i]
  {
    if rs != [] {
      var init := rs[..|rs| - 1];
      ResultMapLastWins(init);
      forall i | 0 <= i < |init| && LastWithId(rs, i)
        ensures rs[i].messageId in ResultMap(rs) && ResultMap(rs)[rs[i].messageId] == rs[i]
      {
        assert rs[|rs| - 1].messageId != rs[i].messageId;
        assert init[i] == rs[i];
        assert LastWithId(init, i);
      }
    }
  }

  // ---------------------------------------------------------------------------
  // Fusion
  // ---------------------------------------------------------------------------

  lemma {:induction false} FuseIdsAt(ids: seq<string>, fm: map<string, SearchResult>, vm: map<string, SearchResult>,
                                     alpha: real)
    requires forall k :: 0 <= k < |ids| ==> ids[k] in fm || ids[k] in vm
    ensures |FuseIds(ids, fm, vm, alpha)| == |ids|
    ensures forall k :: 0 <= k < |ids| ==> FusedRecord(fm, vm, alpha, ids[k]).Some?
    ensures forall k :: 0 <= k < |ids| ==> FuseIds(ids, fm, vm, alpha)[k] == FusedRecord(fm, vm, alpha, ids[k]).value
  {
    if ids != [] {
      var init := ids[..|ids| - 1];
      FuseIdsAt(init, fm, vm, alpha);
      forall k | 0 <= k < |ids| - 1
        ensures FuseIds(ids, fm, vm, alpha)[k] == FusedRecord(fm, vm, alpha, ids[k]).value
      {
        assert init[k] == ids[k];
      }
    }
  }

  /** Every id of the union has a record in one of the two dictionaries. */
  lemma UnionCovered(fts: seq<SearchResult>, vec: seq<SearchResult>)
    ensures forall k :: 0 <= k < |UnionIds(fts, vec)| ==>
      UnionIds(fts, vec)[k] in ResultMap(fts) || UnionIds(fts, vec)[k] in ResultMap(vec)
  {
    var all := fts + vec;
    FirstIdsFacts(all);
    ResultMapKeys(fts);
    ResultMapKeys(vec);
    forall k | 0 <= k < |UnionIds(fts, vec)|
      ensures UnionIds(fts, vec)[k] in ResultMap(fts) || UnionIds(fts, vec)[k] in ResultMap(vec)
    {
      var id := UnionIds(fts, vec)[k];
      assert id in FirstIds(all);
      var i :| 0 <= i < |all| && all[i].messageId == id;
      if i < |fts| {
        assert fts[i] == all[i];
        assert HasId(fts, id);
      } else {
        assert vec[i - |fts|] == all[i];
        assert HasId(vec, id);
      }
    }
  }

  /** The fused record of an id carries that id. */
  lemma FusedRecordId(fts: seq<SearchResult>, vec: seq<SearchResult>, alpha: real, id: string)
    requires FusedRecord(ResultMap(fts), ResultMap(vec), alpha, id).Some?
    ensures FusedRecord(ResultMap(fts), ResultMap(vec), alpha, id).value.messageId == id
  {
    ResultMapValues(fts);
    ResultMapValues(vec);
  }

  /** Before sorting there is one fused record per id of the union, in union order. */
  lemma FusedFacts(fts: seq<SearchResult>, vec: seq<SearchResult>, alpha: real)
    ensures |Fused(fts, vec, alpha)| == |UnionIds(fts, vec)|
    ensures forall k :: 0 <= k < |UnionIds(fts, vec)| ==>
      FusedRecord(ResultMap(fts), ResultMap(vec), alpha, UnionIds(fts, vec)[k]).Some?
    ensures forall k :: 0 <= k < |UnionIds(fts, vec)| ==>
      Fused(fts, vec, alpha)[k] == FusedRecord(ResultMap(fts), ResultMap(vec), alpha, UnionIds(fts, vec)[k]).value
    ensures forall k :: 0 <= k < |UnionIds(fts, vec)| ==> Fused(fts, vec, alpha)[k].messageId == UnionIds(fts, vec)[k]
    ensures DistinctBy(Fused(fts, vec, alpha), MessageIdOf)
  {
    var ids := UnionIds(fts, vec);
    UnionCovered(fts, vec);
    FuseIdsAt(ids, ResultMap(fts), ResultMap(vec), alpha);
    FirstIdsFacts(fts + vec);
    forall k | 0 <= k < |ids|
      ensures Fused(fts, vec, alpha)[k].messageId == ids[k]
    {
      FusedRecordId(fts, vec, alpha, ids[k]);
    }
  }

  /** A result's message id, as a label for `DistinctBy`. */
  function MessageIdOf(r: SearchResult): string
  {
    r.messageId
  }

  /** Every member of the fused list is the fused record of its own id, which is in the union. */
  lemma FusedMember(fts: seq<SearchResult>, vec: seq<SearchResult>, alpha: real, r: SearchResult)
    requires r in Fused(fts, vec, alpha)
    ensures r.messageId in UnionIds(fts, vec)
    ensures FusedRecord(ResultMap(fts), ResultMap(vec), alpha, r.messageId) == Some(r)
  {
    FusedFacts(fts, vec, alpha);
    var k :| 0 <= k < |Fused(fts, vec, alpha)| && Fused(fts, vec, alpha)[k] == r;
    assert UnionIds(fts, vec)[k] == r.messageId;
  }

  /** The fusion's output is non-increasing in `relevance_score`. */
  lemma CombinedOrder(fts: seq<SearchResult>, vec: seq<SearchResult>, alpha: real, limit: nat)
    ensures NonIncreasing(Combined(fts, vec, alpha, limit), Score)
  {
    SortDescSorted(Fused(fts, vec, alpha), Score);
  }

  /** The fusion returns `min(limit, |union of ids|)` records. */
  lemma CombinedLength(fts: seq<SearchResult>, vec: seq<SearchResult>, alpha: real, limit: nat)
    ensures |Combined(fts, vec, alpha, limit)| == if limit <= |UnionIds(fts, vec)| then limit else |UnionIds(fts, vec)|
  {
    FusedFacts(fts, vec, alpha);
    SortDescPermutes(Fused(fts, vec, alpha), Score);
  }

  /** Each id appears at most once in the fusion, and only ids of the inputs appear. */
  lemma CombinedIds(fts: seq<SearchResult>, vec: seq<SearchResult>, alpha: real, limit: nat)
    ensures forall i, j :: 0 <= i < j < |Combined(fts, vec, alpha, limit)| ==>
      Combined(fts, vec, alpha, limit)[i].messageId != Combined(fts, vec, alpha, limit)[j].messageId
    ensures forall k :: 0 <= k < |Combined(fts, vec, alpha, limit)| ==>
      Combined(fts, vec, alpha, limit)[k].messageId in UnionIds(fts, vec)
  {
    var fused := Fused(fts, vec, alpha);
    var ranking := Ranking(fts, vec, alpha);
    var c := Combined(fts, vec, alpha, limit);
    FusedFacts(fts, vec, alpha);
    SortDescDistinct(fused, Score, MessageIdOf);
    SortDescPermutes(fused, Score);
    forall i, j | 0 <= i < j < |c|
      ensures c[i].messageId != c[j].messageId
    {
      assert c[i] == ranking[i] && c[j] == ranking[j];
      assert MessageIdOf(ranking[i]) != MessageIdOf(ranking[j]);
    }
    forall k | 0 <= k < |c|
      ensures c[k].messageId in UnionIds(fts, vec)
    {
      assert c[k] == ranking[k];
      SortDescMember(fused, Score, c[k]);
      FusedMember(fts, vec, alpha, c[k]);
    }
  }

  /**
   * Each fused record is the FTS record of its id when there is one, else the
   * vector record, with only `relevance_score` replaced by
   * `alpha * vector + (1 - alpha) * fts`, a missing side scoring 0.
   */
  lemma CombinedRecords(fts: seq<SearchResult>, vec: seq<SearchResult>, alpha: real, limit: nat)
    ensures forall k :: 0 <= k < |Combined(fts, vec, alpha, limit)| ==>
      var r := Combined(fts, vec, alpha, limit)[k];
      && (r.messageId in ResultMap(fts) || r.messageId in ResultMap(vec))
      && r.relevanceScore == alpha * ScoreIn(ResultMap(vec), r.messageId) + (1.0 - alpha) * ScoreIn(ResultMap(fts), r.messageId)
      && r == (if r.messageId in ResultMap(fts) then ResultMap(fts)[r.messageId] else ResultMap(vec)[r.messageId])
               .(relevanceScore := r.relevanceScore)
  {
    var fused := Fused(fts, vec, alpha);
    var c := Combined(fts, vec, alpha, limit);
    forall k | 0 <= k < |c|
      ensures FusedRecord(ResultMap(fts), ResultMap(vec), alpha, c[k].messageId) == Some(c[k])
    {
      assert c[k] == Ranking(fts, vec, alpha)[k];
      SortDescMember(fused, Score, c[k]);
      FusedMember(fts, vec, alpha, c[k]);
    }
  }

  /** With `alpha = 0` a fused score is the FTS score; with `alpha = 1` it is the vector score. */
  lemma CombinedScoreExtremes(fts: seq<SearchResult>, vec: seq<SearchResult>, alpha: real, limit: nat)
    ensures alpha == 0.0 ==> forall k :: 0 <= k < |Combined(fts, vec, alpha, limit)| ==>
      Combined(fts, vec, alpha, limit)[k].relevanceScore == ScoreIn(ResultMap(fts), Combined(fts, vec, alpha, limit)[k].messageId)
    ensures alpha == 1.0 ==> forall k :: 0 <= k < |Combined(fts, vec, alpha, limit)| ==>
      Combined(fts, vec, alpha, limit)[k].relevanceScore == ScoreIn(ResultMap(vec), Combined(fts, vec, alpha, limit)[k].messageId)
  {
    CombinedRecords(fts, vec, alpha, limit);
  }

  /** When `limit` covers the union, every id of either input is in the fusion. */
  lemma CombinedComplete(fts: seq<SearchResult>, vec: seq<SearchResult>, alpha: real, limit: nat, id: string)
    requires limit >= |UnionIds(fts, vec)|
    requires (exists i :: 0 <= i < |fts| && fts[i].messageId == id) || (exists i :: 0 <= i < |vec| && vec[i].messageId == id)
    ensures exists k :: 0 <= k < |Combined(fts, vec, alpha, limit)| && Combined(fts, vec, alpha, limit)[k].messageId == id
  {
    var all := fts + vec;
    var fused := Fused(fts, vec, alpha);
    FirstIdsFacts(all);
    if exists i :: 0 <= i < |fts| && fts[i].messageId == id {
      var i :| 0 <= i < |fts| && fts[i].messageId == id;
      assert all[i] == fts[i];
    } else {
      var i :| 0 <= i < |vec| && vec[i].messageId == id;
      assert all[|fts| + i] == vec[i];
    }
    assert id in UnionIds(fts, vec);
    var k :| 0 <= k < |UnionIds(fts, vec)| && UnionIds(fts, vec)[k] == id;
    FusedFacts(fts, vec, alpha);
    SortDescPermutes(fused, Score);
    CombinedLength(fts, vec, alpha, limit);
    assert fused[k] in multiset(Ranking(fts, vec, alpha));
    var j :| 0 <= j < |Ranking(fts, vec, alpha)| && Ranking(fts, vec, alpha)[j] == fused[k];
    assert Combined(fts, vec, alpha, limit)[j] == fused[k];
  }

  // ---------------------------------------------------------------------------
  // Hybrid page
  // ---------------------------------------------------------------------------

  lemma WindowFacts<T>(s: seq<T>, offset: nat, count: nat)
    ensures |Window(s, offset, count)| == if offset >= |s| then 0 else if offset + count >= |s| then |s| - offset else count
    ensures forall k :: 0 <= k < |Window(s, offset, count)| ==> Window(s, offset, count)[k] == s[offset + k]
  {
  }

  /**
   * As written, the page holds at most `max(0, limit - offset)` records: it
   * is a window of a list already cut to `limit`.
   */
  lemma HybridAsWrittenLength(fts: seq<SearchResult>, vec: seq<SearchResult>, alpha: real, limit: nat, offset: nat)
    ensures offset >= limit ==> HybridPageAsWritten(fts, vec, alpha, limit, offset) == []
    ensures offset < limit ==> |HybridPageAsWritten(fts, vec, alpha, limit, offset)| <= limit - offset
    ensures forall k :: 0 <= k < |HybridPageAsWritten(fts, vec, alpha, limit, offset)| ==>
      HybridPageAsWritten(fts, vec, alpha, limit, offset)[k] == Combined(fts, vec, alpha, limit)[offset + k]
  {
    CombinedLength(fts, vec, alpha, limit);
    WindowFacts(Combined(fts, vec, alpha, limit), offset, limit);
  }

  /**
   * Asking for the second page of a result set that fills it: the page as
   * written is empty, the corrected page is full.
   */
  lemma HybridAsWrittenSkipsPages(fts: seq<SearchResult>, vec: seq<SearchResult>, alpha: real, limit: nat, offset: nat)
    requires 1 <= limit <= offset
    requires offset + limit <= |UnionIds(fts, vec)|
    ensures HybridPageAsWritten(fts, vec, alpha, limit, offset) == []
    ensures |HybridPage(fts, vec, alpha, limit, offset)| == limit
  {
    HybridAsWrittenLength(fts, vec, alpha, limit, offset);
    HybridPageWindow(fts, vec, alpha, limit, offset);
  }

  /**
   * The corrected page is the window `[offset, offset + limit)` of the whole
   * fused ranking, so consecutive pages partition it.
   */
  lemma HybridPageWindow(fts: seq<SearchResult>, vec: seq<SearchResult>, alpha: real, limit: nat, offset: nat)
    ensures HybridPage(fts, vec, alpha, limit, offset) == Window(Ranking(fts, vec, alpha), offset, limit)
    ensures |HybridPage(fts, vec, alpha, limit, offset)| ==
      if offset >= |UnionIds(fts, vec)| then 0
      else if offset + limit >= |UnionIds(fts, vec)| then |UnionIds(fts, vec)| - offset
      else limit
  {
    var r := Ranking(fts, vec, alpha);
    FusedFacts(fts, vec, alpha);
    SortDescPermutes(Fused(fts, vec, alpha), Score);
    WindowFacts(r, offset, limit);
    WindowFacts(Take(r, offset + limit), offset, limit);
  }

  /** Formatted results all score 1.0. */
  lemma FtsResultsScore(db: Db, userId: string, query: string, f: Filters, ts: TextSearch, limit: nat, offset: nat)
    ensures forall k :: 0 <= k < |FtsResults(db, userId, query, f, ts, limit, offset)| ==>
      FtsResults(db, userId, query, f, ts, limit, offset)[k].relevanceScore == 1.0
  {
  }

  /**
   * With the vector search a stub, every fused record of FTS results that
   * all score 1.0 scores `1 - alpha`.
   */
  lemma CombinedStubScores(fts: seq<SearchResult>, alpha: real, limit: nat)
    requires forall k :: 0 <= k < |fts| ==> fts[k].relevanceScore == 1.0
    ensures forall k :: 0 <= k < |Combined(fts, [], alpha, limit)| ==>
      Combined(fts, [], alpha, limit)[k].relevanceScore == 1.0 - alpha
  {
    CombinedRecords(fts, [], alpha, limit);
    ResultMapValues(fts);
    forall k | 0 <= k < |Combined(fts, [], alpha, limit)|
      ensures Combined(fts, [], alpha, limit)[k].relevanceScore == 1.0 - alpha
    {
      var id := Combined(fts, [], alpha, limit)[k].messageId;
      assert id !in ResultMap([]);
      var j :| 0 <= j < |fts| && fts[j] == ResultMap(fts)[id];
    }
  }

  /** Every record of a hybrid page, as written or corrected, scores `1 - alpha`. */
  lemma HybridStubScores(fts: seq<SearchResult>, alpha: real, limit: nat, offset: nat)
    requires forall k :: 0 <= k < |fts| ==> fts[k].relevanceScore == 1.0
    ensures forall k :: 0 <= k < |HybridPageAsWritten(fts, [], alpha, limit, offset)| ==>
      HybridPageAsWritten(fts, [], alpha, limit, offset)[k].relevanceScore == 1.0 - alpha
    ensures forall k :: 0 <= k < |HybridPage(fts, [], alpha, limit, offset)| ==>
      HybridPage(fts, [], alpha, limit, offset)[k].relevanceScore == 1.0 - alpha
  {
    CombinedStubScores(fts, alpha, limit);
    CombinedStubScores(fts, alpha, offset + limit);
    WindowFacts(Combined(fts, [], alpha, limit), offset, limit);
    WindowFacts(Combined(fts, [], alpha, offset + limit), offset, limit);
  }

  // ---------------------------------------------------------------------------
  // Full-text filter
  // ---------------------------------------------------------------------------

  lemma {:induction false} CountJoinedPositive(cs: seq<StoredConversation>, m: StoredMessage, f: Filters)
    requires CountJoined(cs, m, f) > 0
    ensures exists c :: c in cs && JoinFilter(c, m, f)
  {
    if !JoinFilter(cs[0], m, f) {
      CountJoinedPositive(cs[1..], m, f);
      var c :| c in cs[1..] && JoinFilter(c, m, f);
      assert c in cs;
    }
  }

  lemma {:induction false} CountJoinedWitness(cs: seq<StoredConversation>, m: StoredMessage, f: Filters, c: StoredConversation)
    requires c in cs && JoinFilter(c, m, f)
    ensures CountJoined(cs, m, f) > 0
  {
    if cs[0] != c {
      CountJoinedWitness(cs[1..], m, f, c);
    }
  }

  lemma {:induction false} RepeatMember<T>(x: T, n: nat, y: T)
    requires y in Repeat(x, n)
    ensures y == x && n > 0
  {
    if n > 0 && y != x {
      RepeatMember(x, n - 1, y);
    }
  }

  /** Every row is a filtered message of `msgs` with its own conversation loaded. */
  lemma {:induction false} RowsOfSound(db: Db, msgs: seq<StoredMessage>, userId: string, query: string, f: Filters,
                                       ts: TextSearch, providerJoins: bool, h: Hit)
    requires h in RowsOf(db, msgs, userId, query, f, ts, providerJoins)
    ensures h.message in msgs
    ensures MessageFilter(h.message, userId, query, f, ts)
    ensures h.conversation == ConversationOf(db, h.message)
    ensures Multiplicity(db, h.message, f, providerJoins) > 0
  {
    var m := msgs[0];
    var head := if MessageFilter(m, userId, query, f, ts)
      then Repeat(Hit(m, ConversationOf(db, m)), Multiplicity(db, m, f, providerJoins)) else [];
    if h in head {
      RepeatMember(Hit(m, ConversationOf(db, m)), Multiplicity(db, m, f, providerJoins), h);
    } else {
      RowsOfSound(db, msgs[1..], userId, query, f, ts, providerJoins, h);
    }
  }

  /** Every filtered message of `msgs` that has a row to pair with yields a row. */
  lemma {:induction false} RowsOfComplete(db: Db, msgs: seq<StoredMessage>, userId: string, query: string, f: Filters,
                                          ts: TextSearch, providerJoins: bool, m: StoredMessage)
    requires m in msgs && MessageFilter(m, userId, query, f, ts)
    requires Multiplicity(db, m, f, providerJoins) > 0
    ensures Hit(m, ConversationOf(db, m)) in RowsOf(db, msgs, userId, query, f, ts, providerJoins)
  {
    if msgs[0] != m {
      RowsOfComplete(db, msgs[1..], userId, query, f, ts, providerJoins, m);
    }
  }

  /**
   * The corrected query returns only the user's messages that match the text
   * and pass the role and date filters, each with its own conversation; under
   * a project or provider filter, only those whose conversation passes it.
   */
  lemma FtsRowsSound(db: Db, userId: string, query: string, f: Filters, ts: TextSearch, h: Hit)
    requires h in FtsRows(db, userId, query, f, ts)
    ensures h.message in db.messages && h.message.userId == userId
    ensures MessageFilter(h.message, userId, query, f, ts)
    ensures h.conversation == ConversationOf(db, h.message)
    ensures Given(f.projectId) || Given(f.provider) ==>
      exists c :: c in db.conversations && JoinFilter(c, h.message, f)
  {
    RowsOfSound(db, db.messages, userId, query, f, ts, true, h);
    if Given(f.projectId) || Given(f.provider) {
      CountJoinedPositive(db.conversations, h.message, f);
    }
  }

  /** Conversely, every such message is among the corrected query's rows. */
  lemma FtsRowsComplete(db: Db, userId: string, query: string, f: Filters, ts: TextSearch, m: StoredMessage)
    requires m in db.messages && MessageFilter(m, userId, query, f, ts)
    requires Given(f.projectId) || Given(f.provider) ==> exists c :: c in db.conversations && JoinFilter(c, m, f)
    ensures Hit(m, ConversationOf(db, m)) in FtsRows(db, userId, query, f, ts)
  {
    if Given(f.projectId) || Given(f.provider) {
      var c :| c in db.conversations && JoinFilter(c, m, f);
      CountJoinedWitness(db.conversations, m, f, c);
    }
    RowsOfComplete(db, db.messages, userId, query, f, ts, true, m);
  }

  lemma {:induction false} CountJoinedZero(cs: seq<StoredConversation>, m: StoredMessage, f: Filters)
    requires forall i :: 0 <= i < |cs| ==> !JoinFilter(cs[i], m, f)
    ensures CountJoined(cs, m, f) == 0
  {
    if cs != [] {
      assert !JoinFilter(cs[0], m, f);
      CountJoinedZero(cs[1..], m, f);
    }
  }

  lemma {:induction false} CountJoinedAtMostOne(cs: seq<StoredConversation>, m: StoredMessage, f: Filters)
    requires forall i, j :: 0 <= i < j < |cs| ==> cs[i].id != cs[j].id
    ensures CountJoined(cs, m, f) <= 1
  {
    if cs != [] {
      var rest := cs[1..];
      if JoinFilter(cs[0], m, f) {
        forall i | 0 <= i < |rest|
          ensures !JoinFilter(rest[i], m, f)
        {
          assert rest[i] == cs[i + 1];
        }
        CountJoinedZero(rest, m, f);
      } else {
        assert forall i, j :: 0 <= i < j < |rest| ==> rest[i].id != rest[j].id by {
          forall i, j | 0 <= i < j < |rest|
            ensures rest[i].id != rest[j].id
          {
            assert rest[i] == cs[i + 1] && rest[j] == cs[j + 1];
          }
        }
        CountJoinedAtMostOne(rest, m, f);
      }
    }
  }

  /** When conversation ids are unique, the joined query yields a message at most once. */
  lemma JoinedOnce(db: Db, m: StoredMessage, f: Filters)
    requires forall i, j :: 0 <= i < j < |db.conversations| ==> db.conversations[i].id != db.conversations[j].id
    requires Given(f.projectId) || Given(f.provider)
    ensures Multiplicity(db, m, f, true) <= 1
  {
    CountJoinedAtMostOne(db.conversations, m, f);
  }

  /** A page of the ordered rows holds at most `limit` of them. */
  lemma FtsPageFacts(rows: seq<Hit>, query: string, ts: TextSearch, limit: nat, offset: nat)
    ensures |FtsPage(rows, query, ts, limit, offset)| <= limit
    ensures forall k :: 0 <= k < |FtsPage(rows, query, ts, limit, offset)| ==> FtsPage(rows, query, ts, limit, offset)[k] in rows
  {
    var key := (h: Hit) => ts.rank(h.message.content, query);
    var sorted := SortDesc(rows, key);
    WindowFacts(sorted, offset, limit);
    forall k | 0 <= k < |FtsPage(rows, query, ts, limit, offset)|
      ensures FtsPage(rows, query, ts, limit, offset)[k] in rows
    {
      SortDescMember(rows, key, sorted[offset + k]);
    }
  }

  /**
   * `full_text_search` returns at most `limit` records: the formatted rows of
   * one page of the query's ordered rows.
   */
  lemma FtsResultsFacts(db: Db, userId: string, query: string, f: Filters, ts: TextSearch, limit: nat, offset: nat)
    ensures |FtsResults(db, userId, query, f, ts, limit, offset)| <= limit
    ensures |FtsResults(db, userId, query, f, ts, limit, offset)|
         == |FtsPage(FtsRows(db, userId, query, f, ts), query, ts, limit, offset)|
    ensures forall k :: 0 <= k < |FtsResults(db, userId, query, f, ts, limit, offset)| ==>
      && FtsPage(FtsRows(db, userId, query, f, ts), query, ts, limit, offset)[k] in FtsRows(db, userId, query, f, ts)
      && FtsResults(db, userId, query, f, ts, limit, offset)[k]
         == FormatHit(FtsPage(FtsRows(db, userId, query, f, ts), query, ts, limit, offset)[k])
  {
    FtsPageFacts(FtsRows(db, userId, query, f, ts), query, ts, limit, offset);
  }

  /**
   * A provider filter without a project filter: the query as written pairs
   * the message with both conversations of that provider, neither of them its
   * own, and returns it twice; the joined query returns nothing.
   */
  lemma FtsProviderCrossJoin(m: StoredMessage, c1: StoredConversation, c2: StoredConversation, c3: StoredConversation,
                             userId: string, query: string, p: string, ts: TextSearch)
    requires p != "" && m.userId == userId && ts.matches(m.content, query)
    requires m.conversationId == Some(c1.id) && c2.id != c1.id && c3.id != c1.id
    requires c1.provider != p && c2.provider == p && c3.provider == p
    ensures FtsRowsAsWritten(Db([c1, c2, c3], [m]), userId, query, Filters(None, Some(p), None, None, None), ts)
         == [Hit(m, Some(c1)), Hit(m, Some(c1))]
    ensures FtsRows(Db([c1, c2, c3], [m]), userId, query, Filters(None, Some(p), None, None, None), ts) == []
  {
    var db := Db([c1, c2, c3], [m]);
    var f := Filters(None, Some(p), None, None, None);
    assert [c1, c2, c3][1..] == [c2, c3];
    assert [c2, c3][1..] == [c3];
    assert [c3][1..] == [];
    assert [m][1..] == [];
    assert MessageFilter(m, userId, query, f, ts);
    assert ConversationOf(db, m) == Some(c1);
    assert CountProvider([c3], p) == 1;
    assert CountProvider([c1, c2, c3], p) == 2;
    assert CountJoined([c3], m, f) == 0;
    assert CountJoined([c1, c2, c3], m, f) == 0;
    assert Multiplicity(db, m, f, false) == 2;
    assert Multiplicity(db, m, f, true) == 0;
    assert RowsOf(db, [m], userId, query, f, ts, false) == Repeat(Hit(m, Some(c1)), 2) + RowsOf(db, [], userId, query, f, ts, false);
    assert RowsOf(db, [m], userId, query, f, ts, true) == [];
    assert Repeat(Hit(m, Some(c1)), 2) == [Hit(m, Some(c1)), Hit(m, Some(c1))];
  }

  // ---------------------------------------------------------------------------
  // Conversation context
  // ---------------------------------------------------------------------------

  /** The grouping loop builds one list per conversation that has fetched messages. */
  lemma {:induction false} GroupsOfAt(fetched: seq<StoredMessage>)
    ensures forall c :: c in GroupsOf(fetched) <==> Group(fetched, c) != []
    ensures forall c :: c in GroupsOf(fetched) ==> GroupsOf(fetched)[c] == Group(fetched, c)
  {
    if fetched != [] {
      GroupsOfAt(fetched[..|fetched| - 1]);
    }
  }

  /** Group entries start unflagged. */
  lemma {:induction false} GroupUnflagged(fetched: seq<StoredMessage>, c: string)
    ensures forall j :: 0 <= j < |Group(fetched, c)| ==> !Group(fetched, c)[j].isCurrent
  {
    if fetched != [] {
      GroupUnflagged(fetched[..|fetched| - 1], c);
    }
  }

  /** Entry `j` of a group is the entry of a fetched message of that conversation. */
  lemma {:induction false} GroupFrom(fetched: seq<StoredMessage>, c: string, j: nat)
    requires j < |Group(fetched, c)|
    ensures exists k :: 0 <= k < |fetched| && IdText(fetched[k].conversationId) == c && Group(fetched, c)[j] == Entry(fetched[k])
  {
    var init := fetched[..|fetched| - 1];
    if j < |Group(init, c)| {
      GroupFrom(init, c, j);
      var k :| 0 <= k < |init| && IdText(init[k].conversationId) == c && Group(init, c)[j] == Entry(init[k]);
      assert fetched[k] == init[k];
      assert Group(fetched, c)[j] == Group(init, c)[j];
    } else {
      assert Group(fetched, c)[j] == Entry(fetched[|fetched| - 1]);
    }
  }

  /** With unique message ids, a group never holds two entries with one id. */
  lemma {:induction false} GroupDistinct(fetched: seq<StoredMessage>, c: string)
    requires forall i, j :: 0 <= i < j < |fetched| ==> fetched[i].id != fetched[j].id
    ensures forall i, j :: 0 <= i < j < |Group(fetched, c)| ==> Group(fetched, c)[i].id != Group(fetched, c)[j].id
  {
    if fetched != [] {
      var init := fetched[..|fetched| - 1];
      var last := fetched[|fetched| - 1];
      GroupDistinct(init, c);
      var g := Group(init, c);
      forall i | 0 <= i < |g|
        ensures g[i].id != last.id
      {
        GroupFrom(init, c, i);
        var k :| 0 <= k < |init| && IdText(init[k].conversationId) == c && g[i] == Entry(init[k]);
        assert init[k] == fetched[k];
      }
    }
  }

  /** Entry `j` is the first entry with message id `id`. */
  ghost predicate FirstWithId(e: seq<ContextEntry>, j: int, id: string)
    requires 0 <= j < |e|
  {
    e[j].id == id && forall i :: 0 <= i < j ==> e[i].id != id
  }

  /** Entry `j` is the first entry with its own message id. */
  ghost predicate FirstOfId(e: seq<ContextEntry>, j: int)
    requires 0 <= j < |e|
  {
    forall i :: 0 <= i < j ==> e[i].id != e[j].id
  }

  /** The inner loop flags the first entry with the result's id and changes nothing else. */
  lemma {:induction false} MarkFirstAt(e: seq<ContextEntry>, id: string)
    ensures |MarkFirst(e, id)| == |e|
    ensures forall j :: 0 <= j < |e| ==> MarkFirst(e, id)[j] == e[j].(isCurrent := e[j].isCurrent || FirstWithId(e, j, id))
  {
    if e != [] && e[0].id != id {
      var rest := e[1..];
      MarkFirstAt(rest, id);
      forall j | 1 <= j < |e|
        ensures MarkFirst(e, id)[j] == e[j].(isCurrent := e[j].isCurrent || FirstWithId(e, j, id))
      {
        assert rest[j - 1] == e[j];
        assert FirstWithId(e, j, id) == FirstWithId(rest, j - 1, id) by {
          if FirstWithId(rest, j - 1, id) {
            forall i | 0 <= i < j
              ensures e[i].id != id
            {
              if i > 0 {
                assert e[i] == rest[i - 1];
              }
            }
          }
          if FirstWithId(e, j, id) {
            forall i | 0 <= i < j - 1
              ensures rest[i].id != id
            {
              assert rest[i] == e[i + 1];
            }
          }
        }
      }
    }
  }

  /** Flagging the first entry found with the id is what `MarkFirst` does. */
  lemma MarkFirstFound(e: seq<ContextEntry>, id: string, j: nat)
    requires j < |e| && FirstWithId(e, j, id)
    ensures MarkFirst(e, id) == e[j := e[j].(isCurrent := true)]
  {
    MarkFirstAt(e, id);
    forall i | 0 <= i < |e| && i != j
      ensures !FirstWithId(e, i, id)
    {
    }
  }

  /** With no entry carrying the id, `MarkFirst` changes nothing. */
  lemma MarkFirstAbsent(e: seq<ContextEntry>, id: string)
    requires forall i :: 0 <= i < |e| ==> e[i].id != id
    ensures MarkFirst(e, id) == e
  {
    MarkFirstAt(e, id);
  }

  /** Some result of the page has message `id` in conversation `c`. */
  ghost predicate Requested(results: seq<SearchResult>, c: string, id: string)
  {
    exists r :: r in results && r.conversationId == c && r.messageId == id
  }

  lemma RequestedSnoc(results: seq<SearchResult>, c: string, id: string)
    requires results != []
    ensures Requested(results, c, id) <==>
      Requested(results[..|results| - 1], c, id) || (results[|results| - 1].conversationId == c && results[|results| - 1].messageId == id)
  {
    var init := results[..|results| - 1];
    assert results == init + [results[|results| - 1]];
    if Requested(results, c, id) {
      var r :| r in results && r.conversationId == c && r.messageId == id;
      assert r in init || r == results[|results| - 1];
    }
  }

  /**
   * After the marking loop every list keeps its entries, and an entry is
   * flagged when it was already, or when it is the first entry with its id
   * and some result of the page names that id in that conversation.
   */
  lemma {:induction false} MarkResultsAt(groups: map<string, seq<ContextEntry>>, results: seq<SearchResult>)
    ensures forall c :: c in MarkResults(groups, results) <==> c in groups
    ensures forall c :: c in groups ==> |MarkResults(groups, results)[c]| == |groups[c]|
    ensures forall c, j :: c in groups && 0 <= j < |groups[c]| ==>
      MarkResults(groups, results)[c][j]
        == groups[c][j].(isCurrent := groups[c][j].isCurrent || (FirstOfId(groups[c], j) && Requested(results, c, groups[c][j].id)))
  {
    if results != [] {
      var init := results[..|results| - 1];
      var r := results[|results| - 1];
      var marked := MarkResults(groups, init);
      MarkResultsAt(groups, init);
      forall c | c in groups
        ensures |MarkResults(groups, results)[c]| == |groups[c]|
      {
        if r.conversationId == c {
          MarkFirstAt(marked[c], r.messageId);
        }
      }
      forall c, j | c in groups && 0 <= j < |groups[c]|
        ensures MarkResults(groups, results)[c][j]
          == groups[c][j].(isCurrent := groups[c][j].isCurrent || (FirstOfId(groups[c], j) && Requested(results, c, groups[c][j].id)))
      {
        var g := groups[c];
        RequestedSnoc(results, c, g[j].id);
        if r.conversationId == c {
          MarkFirstAt(marked[c], r.messageId);
          assert FirstWithId(marked[c], j, r.messageId) <==> g[j].id == r.messageId && FirstOfId(g, j) by {
            forall i | 0 <= i < j
              ensures marked[c][i].id == g[i].id
            {
            }
          }
        }
      }
    }
  }

  /**
   * The context list a result of conversation `c` ends up with: the
   * conversation's fetched messages in fetched order, each flagged when it is
   * the first with its id and some result of the page names it.
   */
  ghost function FinalContext(results: seq<SearchResult>, fetched: seq<StoredMessage>, c: string): seq<ContextEntry>
  {
    var g := Group(fetched, c);
    seq(|g|, j requires 0 <= j < |g| => g[j].(isCurrent := FirstOfId(g, j) && Requested(results, c, g[j].id)))
  }

  /** A conversation with fetched messages ends the marking loop with its final list. */
  lemma MarkedGroup(results: seq<SearchResult>, fetched: seq<StoredMessage>, c: string)
    ensures c in MarkResults(GroupsOf(fetched), results) <==> Group(fetched, c) != []
    ensures Group(fetched, c) != [] ==> MarkResults(GroupsOf(fetched), results)[c] == FinalContext(results, fetched, c)
  {
    var groups := GroupsOf(fetched);
    GroupsOfAt(fetched);
    MarkResultsAt(groups, results);
    if Group(fetched, c) != [] {
      var g := Group(fetched, c);
      assert groups[c] == g;
      GroupUnflagged(fetched, c);
      var marked := MarkResults(groups, results)[c];
      forall j | 0 <= j < |g|
        ensures marked[j] == FinalContext(results, fetched, c)[j]
      {
      }
    }
  }

  /**
   * An empty page comes back unchanged. Otherwise the page keeps its results
   * in order; a result whose conversation has fetched messages gets that
   * conversation's final list as context, and every other result is left as
   * it was.
   */
  lemma ContextAttached(results: seq<SearchResult>, fetched: seq<StoredMessage>)
    ensures results == [] ==> WithContext(results, fetched) == results
    ensures |WithContext(results, fetched)| == |results|
    ensures forall i :: 0 <= i < |results| ==>
      WithContext(results, fetched)[i]
        == if Group(fetched, results[i].conversationId) != []
           then results[i].(context := Some(FinalContext(results, fetched, results[i].conversationId)))
           else results[i]
  {
    if results != [] {
      forall i | 0 <= i < |results|
        ensures WithContext(results, fetched)[i]
          == if Group(fetched, results[i].conversationId) != []
             then results[i].(context := Some(FinalContext(results, fetched, results[i].conversationId)))
             else results[i]
      {
        MarkedGroup(results, fetched, results[i].conversationId);
      }
    }
  }

  /**
   * With unique message ids, an entry of a result's context is flagged
   * exactly when some result of the page has that message id in that
   * conversation.
   */
  lemma ContextFlags(results: seq<SearchResult>, fetched: seq<StoredMessage>, c: string)
    requires forall i, j :: 0 <= i < j < |fetched| ==> fetched[i].id != fetched[j].id
    ensures |FinalContext(results, fetched, c)| == |Group(fetched, c)|
    ensures forall j :: 0 <= j < |Group(fetched, c)| ==>
      FinalContext(results, fetched, c)[j] == Group(fetched, c)[j].(isCurrent := Requested(results, c, Group(fetched, c)[j].id))
  {
    GroupDistinct(fetched, c);
  }
}
