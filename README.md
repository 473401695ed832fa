# Conversation ingestion and search, modelled in Dafny

This project models the core of a personal archive for chat-assistant
conversations. Users upload exports from two providers: ChatGPT, whose
`conversations.json` holds either a `messages` list or a `mapping` tree, and
Claude. The backend's `FileProcessor` reads these exports into conversation
and message rows. It keeps per-conversation aggregates: message and word
counts, and the first and last message dates. It also reports counts, the
processed file names and per-file errors. A stand-alone loader script reads an
OpenAI export directly into the database. The `SearchService` answers
full-text, vector and hybrid queries over the stored messages. It formats the
hits and can attach each hit's surrounding conversation as context.

The model is organised as follows:

- `PyJson` and `PyText` give the Python semantics the code relies on:
  - decoded JSON values, truthiness, `or`, `dict.get` and iteration;
  - `str()` of scalars;
  - `str.split()`, `" ".join` and `str.replace`.
- `IngestModel` states the ingestion path as functions over a store of rows.
  `_process_chatgpt_json` and `_process_claude_json` become folds over the
  conversations and messages. An exception is the value a step returns, and it
  ends the loop it occurs in.
- `FileProcessor` is the imperative form. The classes `Session`, `Stats` and
  `Processor` have methods that update the session's tables and the stats
  object in place. Each method is proved to reach the state the
  `IngestModel` functions describe.
- `IngestProperties` proves what those functions promise: counting, word
  counts, date bounds, find-or-create identity and the one-entry-per-file
  error capture.
- `LoadFromExport` models the loader script and relates its extractor and its
  role rule to the backend's. It proves that one commit adds one conversation
  row per item and exactly `message_count` message rows for each of them.
- `Sorting` is Python's stable `list.sort(key=..., reverse=True)`, written as
  an insertion sort, with its permutation, order and stability lemmas (`SortDescStable`).
- The search side has three modules:
  - `SearchModel` holds the specification functions: the full-text filter
    and join, ranking and pagination, result formatting, the vector stub,
    weighted fusion and context grouping and marking;
  - `SearchProperties` holds their lemmas;
  - `SearchService` holds the loops of the service, each proved equal to its
    specification function.

Outside effects are parameters of the model:

- The decoded JSON is an argument.
- File listings and zip extraction are given as lists of files.
- `str()` of floats, lists and dicts is an abstract `render` function.
- `datetime.utcfromtimestamp` and `datetime.fromisoformat` are abstract
  functions that may fail.
- PostgreSQL's `to_tsvector @@ plainto_tsquery` match and its `ts_rank` are a
  `TextSearch` pair of functions.
- The rows the context query returns are the `fetched` argument.

Two behaviours of the code are worth stating up front:

- **Titles.** The title read at `backend/services/file_processor.py:167` is
  always truthy (`"Untitled"` by default). The update at lines 194-197 writes
  it whenever it is truthy, so re-ingesting a conversation without a title
  resets a stored title to `"Untitled"`.
- **Hybrid pagination.** At `backend/services/search.py:120-124` hybrid search
  cuts the fused list to `limit` (through `_combine_search_results`, line 284)
  before it takes the page `[offset:offset+limit]` (see Findings).

## Model

| member | source | states |
|---|---|---|
| PyJson.OrTruthy | backend/services/file_processor.py:316 | `a or b` is truthy exactly when `a` or `b` is |
| PyJson.OrAssociative | backend/services/file_processor.py:316 | `(a or b) or c` is `a or (b or c)` |
| PyJson.OrPicksFirstTruthy | scripts/load_from_export.py:118 | a chain of `or` yields its first truthy operand, else its last |
| PyJson.GetOrCases | backend/services/file_processor.py:160 | `d.get(k, default)` gives the default for a missing key and otherwise a value bound to `k` in `d` |
| PyJson.GetOrPresent | backend/services/file_processor.py:290-291 | with the key present, the default given to `get` does not matter |
| PyJson.IntToDecimalValue | backend/services/file_processor.py:321 | `str()` of an integer is its canonical decimal text: digits standing for the value with no leading zero, after a minus sign for a negative one |
| PyJson.IntToDecimalInjective | backend/services/file_processor.py:321 | different integers give different texts |
| PyJson.Chars | backend/services/file_processor.py:321 | iterating a string yields its one-character strings, in order |
| PyJson.KeysOf | backend/services/file_processor.py:321 | iterating a dict yields its keys, in order |
| PyJson.ValuesOf | backend/services/file_processor.py:206 | `mapping.values()` yields the values in insertion order |
| PyText.TokenLenStops | backend/services/file_processor.py:234 | the leading token of a string holds no whitespace and ends at whitespace or the end |
| PyText.SplitEmptyIffAllSpace | backend/services/file_processor.py:234 | `split()` yields no words exactly when the string is whitespace only |
| PyText.SplitTokens | backend/services/file_processor.py:234 | every word `split()` yields is non-empty and holds no whitespace |
| PyText.SplitKeepsEveryNonSpace | backend/services/file_processor.py:234 | the words of a string, put back together, are the string without its whitespace |
| PyText.ReplaceCharAppend | backend/services/file_processor.py:246 | replacing distributes over concatenation |
| PyText.ReplaceCharOne | backend/services/file_processor.py:246 | one character becomes the replacement when it is the pattern and stays otherwise |
| PyText.ReplaceCharRemoves | backend/services/file_processor.py:246 | every occurrence is replaced: none is left when the replacement lacks it, and every other character is kept |
| PyText.SplitAtSpace | backend/services/file_processor.py:234 | splitting at a whitespace boundary gives the words before it, then the words after it |
| PyText.SplitJoinSpace | backend/services/file_processor.py:321 | the words of `" ".join(parts)` are the words of the parts, in order |
| PyText.WordCountOfJoin | backend/services/file_processor.py:321 | the word count of parts joined by spaces is the sum of the parts' word counts |
| PyText.SumWordsAppend | backend/services/file_processor.py:234 | one more content adds its own word count to the running total |
| IngestModel.StrEach | backend/services/file_processor.py:321 | `str(part) for part in parts` gives one string per part, in order |
| IngestModel.ContentSource | backend/services/file_processor.py:316 | the content source is `content` when truthy, else `text` when truthy, else `parts` (default `""`) |
| IngestModel.ExtractMessageContent | backend/services/file_processor.py:312-328 | a string source is the content unchanged; extraction raises exactly when the source is a dict whose `parts` is not iterable |
| IngestModel.StoredRole | backend/services/file_processor.py:224-261 | the stored role is always truthy: the role read (`author.role` for a dict author, else `role`) when truthy, else `"assistant"` |
| IngestModel.ParseTimestamp | backend/services/file_processor.py:237-248 | a parsed string timestamp is what `fromisoformat` gives after every `Z` is replaced by `+00:00`; a parsed numeric one is naive |
| IngestProperties.ParseTimestampCases | backend/services/file_processor.py:237-248 | the value read is `create_time` when truthy, else `timestamp`; a string gives exactly `fromisoformat` of it with `Z` replaced; a number or bool gives the naive `utcfromtimestamp` datetime exactly when that succeeds; None, a list or a dict give none |
| IngestProperties.ParseTimestampFallback | backend/services/file_processor.py:237-246 | a `create_time` of 0 defers to a string `timestamp`, whose `Z` is replaced by `+00:00` |
| IngestModel.MatchingRows | backend/services/file_processor.py:172-179 | the lookup returns exactly the rows of this user, this `str(external id)` and provider `chatgpt`, in table order |
| IngestModel.FindOrCreate | backend/services/file_processor.py:169-197 | a successful find-or-create names a row of the resulting table |
| IngestModel.ConversationList | backend/services/file_processor.py:155-160 | a list is taken as is; a dict gives what iterating its `conversations` yields (nothing when absent, TypeError for a scalar); anything else gives nothing |
| IngestProperties.LessOrder | backend/services/file_processor.py:251-254 | datetimes of one awareness compare without raising, as a strict total order on instants (asymmetric, transitive, total on distinct instants); naive against aware raises TypeError either way round |
| IngestProperties.FlattenMappingAppend | backend/services/file_processor.py:206-209 | the messages of two runs of mapping nodes are those of the first run followed by those of the second |
| IngestProperties.FlattenMappingMember | backend/services/file_processor.py:206-209 | a message is taken exactly when some node is a dict whose `message` is that message and is a dict |
| IngestProperties.ConversationTitleCases | backend/services/file_processor.py:167 | a truthy `title` is kept as is; a missing or falsy one becomes `"Untitled"` |
| IngestProperties.ClaudeCountsCases | backend/services/file_processor.py:305-310 | a Claude message counts exactly when it is a dict whose `text` or `content` is truthy |
| IngestProperties.ClaudeMessageCountAppend | backend/services/file_processor.py:301-310 | the message count of two lists is the sum of their counts |
| IngestProperties.ClaudeMessageCountOne | backend/services/file_processor.py:301-310 | one message counts 1 exactly when it has a truthy `text` or `content`, else 0 |
| IngestProperties.ClaudeConversationCountAppend | backend/services/file_processor.py:286-310 | the conversation count and the message total of two lists are the sums of theirs |
| IngestProperties.ClaudeConversationCountOne | backend/services/file_processor.py:286-310 | one conversation counts 1 exactly when it is a dict whose `messages` is a list or missing, so an empty list still counts; only then are its messages counted |
| IngestModel.RunMessagesStopsAtFailure | backend/services/file_processor.py:220-266 | once a message raises, the later messages change nothing |
| IngestModel.RunConversationsStopsAtFailure | backend/services/file_processor.py:162-274 | once a conversation raises, the later conversations change nothing |
| IngestProperties.ContentCases | backend/services/file_processor.py:312-328 | the content of every source shape: a list is its parts' strings joined by spaces; a dict gives its iterated `parts` joined, else `str` of its `text`, else `""`; a scalar gives its `str` |
| IngestProperties.PartsWordCount | backend/services/file_processor.py:318-321 | content from a `parts` list has the words of the parts together |
| IngestProperties.ContentExamples | backend/services/file_processor.py:312-328 | parts `["a","b"]` give `"a b"`; `[1,"two"]` gives `"1 two"`; a text dict gives its text; an empty string and null give `""` |
| IngestProperties.Counted | backend/services/file_processor.py:231 | every content the loop counts is non-empty |
| IngestProperties.MessageStepEffect | backend/services/file_processor.py:220-266 | one message adds its content to both counters and its words, plus one row only with a session; other messages change nothing |
| IngestProperties.RunMessagesCounts | backend/services/file_processor.py:220-266 | a message loop that completes counts exactly the messages with non-empty content and their words, and appends one row per counted message only with a session |
| IngestProperties.WhitespaceContentCountsNoWords | backend/services/file_processor.py:231-234 | with or without a session, whitespace-only content counts as a message but adds no words; with a session it still appends one row, with word count 0 |
| IngestProperties.SessionlessFailureIsExtraction | backend/services/file_processor.py:220-235 | without a session, a message loop can only raise through content extraction |
| IngestProperties.BoundsStep | backend/services/file_processor.py:250-254 | updating first and last dates with one more row keeps them the earliest and latest timestamps |
| IngestProperties.RunMessagesBounds | backend/services/file_processor.py:215-266 | after the message loop, first and last are the earliest and latest timestamps of the rows written |
| IngestProperties.ConversationAggregates | backend/services/file_processor.py:268-274 | counts and words are added; the first date is kept if set; the last date is the newest when there is one; other rows are untouched |
| IngestProperties.LookupCreates | backend/services/file_processor.py:181-193 | when no row matches, one new row is appended and chosen |
| IngestProperties.LookupReuses | backend/services/file_processor.py:194-197 | when exactly one row matches, that row is reused and its title is replaced by a truthy new title |
| IngestProperties.LookupRaises | backend/services/file_processor.py:179 | two matching rows make the lookup raise |
| IngestProperties.ReingestFindsSameRow | backend/services/file_processor.py:166-197 | ingesting a conversation with a truthy id again finds the same row and adds none |
| IngestProperties.FalsyIdDuplicates | backend/services/file_processor.py:175-185 | a conversation with a falsy id is stored without external id, so ingesting it again adds a second row |
| IngestProperties.RowCreatedWithoutMessages | backend/services/file_processor.py:181-211 | a new conversation without messages still gets a row with zero counters, no dates and its title; stats do not change |
| IngestProperties.MappingConversationSource | backend/services/file_processor.py:200-209 | without `messages`, the dict messages of the mapping nodes are taken in mapping order |
| IngestProperties.TwoMessagesRun | backend/services/file_processor.py:220-234 | two messages with content are both counted, with the words of each |
| IngestProperties.MappingConversationMessages | backend/services/file_processor.py:199-234 | a mapping conversation with two message nodes counts one conversation and two messages |
| IngestProperties.MappingScenario | backend/services/file_processor.py:152-234 | a file holding that conversation counts one conversation and two messages |
| IngestProperties.DirectoryOneEntryPerFile | backend/services/file_processor.py:124-129 | every file adds exactly one entry, its name or one error; earlier entries are kept; every name added is a file's |
| IngestProperties.DirectoryExportSplit | backend/services/file_processor.py:124-129 | the loop over all files is the loop over the first `k` files followed by the loop over the rest |
| IngestProperties.DirectoryFileOutcome | backend/services/file_processor.py:124-129 | the `k`-th file adds its name to `files_processed` exactly when processing it raised nothing, else the one error `Failed to process <name>: <error>`; that entry stays in the final lists |
| IngestProperties.JsonFileKeepsLists | backend/services/file_processor.py:131-150 | processing one file leaves `files_processed` and `errors` alone |
| IngestProperties.ConversationsKeepLists | backend/services/file_processor.py:162-274 | the conversation loop leaves `files_processed` and `errors` alone |
| IngestProperties.ChatgptConversationSkips | backend/services/file_processor.py:162-213 | an entry that is not a dict changes nothing; a dict with no messages changes no counter and no message row: nothing at all without a session, only the find-or-create (or its error) with one |
| IngestProperties.ChatgptConversationCounts | backend/services/file_processor.py:162-274 | a conversation that raises nothing adds 1 to `conversations_processed` exactly when it is a dict with messages, and then its counted messages to `messages_processed` |
| IngestProperties.RunChatgptConversationsCounts | backend/services/file_processor.py:162-274 | a conversation loop that raises nothing adds the number of counted conversations and the total of their counted messages |
| IngestProperties.ChatgptJsonCounts | backend/services/file_processor.py:152-274 | a ChatGPT file that raises nothing has a conversation list and adds exactly those totals |
| FileProcessor.Session.constructor | backend/services/file_processor.py:21-24 | a session starts with the given tables |
| FileProcessor.Stats.constructor | backend/services/file_processor.py:29-34 | the stats start at zero counts and empty lists |
| FileProcessor.Processor.constructor | backend/services/file_processor.py:21-24 | the processor keeps the optional session it is given |
| FileProcessor.Processor.ProcessChatgptExport | backend/services/file_processor.py:26-52 | returns fresh stats and leaves the session as the ChatGPT export function describes, whatever failed |
| FileProcessor.Processor.ProcessClaudeExport | backend/services/file_processor.py:54-80 | the same for a Claude export |
| FileProcessor.Processor.ProcessExport | backend/services/file_processor.py:36-50 | dispatches by zip, json or directory; an escaping error adds `Processing failed: ...` |
| FileProcessor.Processor.ProcessZipExport | backend/services/file_processor.py:82-99 | a failed extraction changes nothing and is reported; otherwise the directory is processed |
| FileProcessor.Processor.ProcessDirectoryExport | backend/services/file_processor.py:101-129 | each file is processed in turn; a failing file adds one error and the loop goes on |
| FileProcessor.Processor.ProcessJsonFile | backend/services/file_processor.py:131-150 | a decode error becomes a ValueError naming the file; otherwise the provider's path runs |
| FileProcessor.Processor.ProcessChatgptJson | backend/services/file_processor.py:152-274 | stats and tables end as the ChatGPT fold over the conversation list describes, whose skips and totals `ChatgptConversationSkips` and `ChatgptJsonCounts` state |
| FileProcessor.Processor.ProcessChatgptConversation | backend/services/file_processor.py:162-274 | one conversation as the conversation step: a non-dict entry and a dict without messages are skipped as `ChatgptConversationSkips` states; otherwise find-or-create, message loop and aggregates, with the counts of `ChatgptConversationCounts` |
| FileProcessor.Processor.FindOrCreateConversation | backend/services/file_processor.py:169-197 | the conversation table ends as find-or-create says; message rows are untouched |
| FileProcessor.Processor.ProcessConversationMessages | backend/services/file_processor.py:199-274 | from the messages check to the aggregate update, as the model's conversation step |
| FileProcessor.Processor.ProcessMessages | backend/services/file_processor.py:220-266 | the message loop: counters, rows and dates as the fold says; conversation rows and file lists untouched |
| FileProcessor.Processor.ProcessMessage | backend/services/file_processor.py:221-266 | one message: counted, stored and folded into the dates as the step says |
| FileProcessor.Processor.ProcessClaudeJson | backend/services/file_processor.py:276-311 | the Claude path only raises the counters; nothing is written to the session |
| FileProcessor.Processor.CountClaudeMessages | backend/services/file_processor.py:301-310 | adds to `messages_processed` exactly the Claude count of the list: one per dict message with truthy `text` or `content` |
| LoadFromExport.FindConversationsJson | scripts/load_from_export.py:38-45 | a file is itself; else `conversations.json` inside it if present; else FileNotFoundError naming the path |
| LoadFromExport.NormalizeChatgpt | scripts/load_from_export.py:48-55 | a list is itself; a dict gives its `conversations` list; anything else gives nothing |
| LoadFromExport.NormalizeAgreesWithBackend | scripts/load_from_export.py:48-55 | whenever the loader finds conversations, the backend takes the same ones |
| LoadFromExport.NullConversationsDiffer | scripts/load_from_export.py:51-55 | with `conversations: null` the loader finds nothing while the backend raises TypeError |
| LoadFromExport.LoaderContent | scripts/load_from_export.py:58-66 | a string content source is returned unchanged |
| LoadFromExport.LoaderContentCases | scripts/load_from_export.py:58-66 | a list is its parts' strings joined by spaces; a dict gives its `parts` joined when that is a list, else `str` of its `text`; a falsy source gives `""`; another scalar its `str` |
| LoadFromExport.ExtractorsAgree | scripts/load_from_export.py:58-66 | the loader and the backend extract the same content from strings, lists and dicts |
| LoadFromExport.ExtractorsDifferOnNullParts | scripts/load_from_export.py:66 | `parts: null` alone is `""` to the loader but `"None"` to the backend |
| LoadFromExport.LoaderRoleCases | scripts/load_from_export.py:133 | a truthy `role` wins, else the dict author's role, else `"unknown"`; a truthy non-dict author raises; a falsy `role` with a falsy author gives `"unknown"`; the role is always truthy |
| LoadFromExport.RolePrecedenceDiffers | scripts/load_from_export.py:133 | the loader prefers `role` where the backend prefers `author.role` |
| LoadFromExport.MessageRecord | scripts/load_from_export.py:132-148 | a message row points at its conversation and user and stores the word count of its content |
| LoadFromExport.MessageRecordCases | scripts/load_from_export.py:132-148 | a message fails exactly when it is not a dict or its role lookup raises; otherwise it carries the loader's role and content |
| LoadFromExport.CollectFirstError | scripts/load_from_export.py:113-149 | the load's error is the one of the first step that raises |
| LoadFromExport.ConversationRecord | scripts/load_from_export.py:115-125 | `message_count` is the length of the `messages` list (0 when not a list); the title is truthy; provider is `chatgpt` |
| LoadFromExport.ConversationRecordFields | scripts/load_from_export.py:115-125 | the external id is `id` if truthy, else `conversation_id` if truthy, else `""`; a falsy title becomes `"Untitled Conversation"`; `metadata` is the item's or `{}`; user and source file are the given ones |
| LoadFromExport.LoadMessagesRows | scripts/load_from_export.py:129-149 | a conversation's messages load exactly when none raises, one row per message in order |
| LoadFromExport.LoadItemRows | scripts/load_from_export.py:113-149 | each loaded item has `message_count` rows, all pointing at its conversation |
| LoadFromExport.ItemFails | scripts/load_from_export.py:113-151 | a conversation that raises after the earlier ones loaded is the error of the whole load |
| LoadFromExport.RowsTotal | scripts/load_from_export.py:149 | the messages inserted number the sum of the message counts |
| LoadFromExport.RowsInRange | scripts/load_from_export.py:139 | every message row points at one of the loaded conversations |
| LoadFromExport.RowsPerConversation | scripts/load_from_export.py:123-149 | each conversation has exactly its `message_count` message rows |
| LoadFromExport.LoadCounts | scripts/load_from_export.py:112-152 | a load that goes through adds one conversation per item and exactly `message_count` rows for each |
| LoadFromExport.FirstBadItemStops | scripts/load_from_export.py:113-118 | the first item that is not a dict stops the load with AttributeError |
| LoadFromExport.Session.Commit | scripts/load_from_export.py:151 | the commit appends the pending rows to the tables and empties the session |
| LoadFromExport.LoadOpenaiExport | scripts/load_from_export.py:88-152 | on success the rows are committed and the counts printed are returned; on an error nothing is committed |
| LoadFromExport.LoadConversationList | scripts/load_from_export.py:109-151 | the loop over conversations then one commit, as above |
| LoadFromExport.AddConversation | scripts/load_from_export.py:113-149 | one item adds its conversation row and its message rows to the session, or reports the exception |
| LoadFromExport.AddMessages | scripts/load_from_export.py:129-149 | the inner loop adds one row per message and counts `inserted_messages` |
| Sorting.SortDescPermutes | backend/services/search.py:283 | the sort returns a rearrangement of its input |
| Sorting.SortDescSorted | backend/services/search.py:283 | the sort returns scores in non-increasing order |
| Sorting.SortDescDistinct | backend/services/search.py:283 | sorting keeps distinct message ids distinct |
| Sorting.SortDescStable | backend/services/search.py:283 | two distinct elements with equal scores keep their relative order |
| Sorting.SortDescOfSorted | backend/services/search.py:283 | an already ordered list comes back unchanged |
| SearchProperties.FirstIdsFacts | backend/services/search.py:262 | the union of ids has no duplicates and holds exactly the ids of the results |
| SearchProperties.ResultMapKeys | backend/services/search.py:258-259 | the map by message id has exactly the ids of the list |
| SearchProperties.ResultMapValues | backend/services/search.py:258-259 | every map value is a record of the list with that id |
| SearchProperties.ResultMapLastWins | backend/services/search.py:258-259 | for a repeated id the last record wins |
| SearchProperties.FuseIdsAt | backend/services/search.py:265-280 | fusing a list of ids yields one fused record per id, in order |
| SearchProperties.UnionCovered | backend/services/search.py:262 | every id of the union is in the FTS map or the vector map |
| SearchProperties.FusedFacts | backend/services/search.py:262-280 | one fused record per union id, carrying that id, with no repeated id |
| SearchProperties.FusedMember | backend/services/search.py:265-280 | every fused record is the fusion of its own id |
| SearchProperties.CombinedOrder | backend/services/search.py:283-284 | the combined list is in non-increasing score order |
| SearchProperties.CombinedLength | backend/services/search.py:284 | the combined list has `min(limit, number of distinct ids)` records |
| SearchProperties.CombinedIds | backend/services/search.py:262-284 | combined ids are distinct and come from either input |
| SearchProperties.CombinedRecords | backend/services/search.py:266-280 | each record is the FTS record if there is one, else the vector record; only its score is replaced, by `alpha*vector + (1-alpha)*fts` with missing scores 0 |
| SearchProperties.CombinedScoreExtremes | backend/services/search.py:273 | alpha 0 gives the FTS score and alpha 1 the vector score |
| SearchProperties.CombinedComplete | backend/services/search.py:262-284 | with a limit covering every id, every input id appears in the combined list |
| SearchProperties.WindowFacts | backend/services/search.py:124 | a slice `[offset:offset+count]` has the clipped length and the elements from `offset` on |
| SearchProperties.HybridAsWrittenLength | backend/services/search.py:120-124 | as written, any offset at or past `limit` gives an empty page; otherwise at most `limit - offset` records |
| SearchProperties.HybridAsWrittenSkipsPages | backend/services/search.py:120-124 | with enough results for the page, the page as written is empty while the corrected page is full |
| SearchProperties.HybridPageWindow | backend/services/search.py:120-124 | the corrected page is the `[offset:offset+limit]` window of the whole fused ranking, with its exact length |
| SearchProperties.FtsResultsScore | backend/services/search.py:242 | every full-text result scores 1.0 |
| SearchProperties.CombinedStubScores | backend/services/search.py:270-273 | with the empty vector stub, every fused record scores `1 - alpha` |
| SearchProperties.HybridStubScores | backend/services/search.py:109-124 | with the vector stub, every hybrid result scores `1 - alpha`, as written and corrected |
| SearchProperties.RowsOfSound | backend/services/search.py:33-67 | every row comes from the messages, passes the filters and the text match, and has the message's conversation |
| SearchProperties.RowsOfComplete | backend/services/search.py:33-67 | every message that passes the filters and joins appears as a row |
| SearchProperties.FtsRowsSound | backend/services/search.py:33-67 | every corrected row is the user's matching message with its conversation, which satisfies the project and provider filters when one is given |
| SearchProperties.FtsRowsComplete | backend/services/search.py:33-67 | every message of the user that matches and passes the filters is found |
| SearchProperties.JoinedOnce | backend/services/search.py:40-48 | with unique conversation ids the join repeats no message |
| SearchProperties.FtsPageFacts | backend/services/search.py:69-71 | a page holds at most `limit` rows, all from the query |
| SearchProperties.FtsResultsFacts | backend/services/search.py:69-76 | the results are at most `limit`, one formatted record per row of the page |
| SearchProperties.FtsProviderCrossJoin | backend/services/search.py:45-48 | as written, a provider-only filter returns a message of another provider once per conversation of that provider; corrected, it returns none |
| SearchProperties.GroupsOfAt | backend/services/search.py:197-209 | a conversation has a group exactly when a fetched message belongs to it, and the group is its messages in fetched order |
| SearchProperties.GroupUnflagged | backend/services/search.py:208 | grouped entries start unflagged |
| SearchProperties.GroupFrom | backend/services/search.py:199-209 | every grouped entry is a fetched message of that conversation |
| SearchProperties.GroupDistinct | backend/services/search.py:199-209 | fetched ids that are distinct stay distinct in each group |
| SearchProperties.MarkFirstAt | backend/services/search.py:216-219 | marking flags only the first entry with the id and leaves the rest unchanged |
| SearchProperties.MarkFirstFound | backend/services/search.py:216-219 | the first matching entry is flagged |
| SearchProperties.MarkFirstAbsent | backend/services/search.py:216-219 | with no entry of that id the list is unchanged |
| SearchProperties.MarkResultsAt | backend/services/search.py:211-219 | an entry is flagged exactly when it is the first of its id and some result asks for it |
| SearchProperties.MarkedGroup | backend/services/search.py:197-221 | the marked list of a conversation is its group with the final flags |
| SearchProperties.ContextAttached | backend/services/search.py:180-223 | no results are returned unchanged; otherwise each result whose conversation has messages gets the whole marked list, and the others are unchanged |
| SearchProperties.ContextFlags | backend/services/search.py:211-221 | with distinct message ids, an entry is flagged exactly when some result of its conversation names it |
| SearchService.FormatSearchResults | backend/services/search.py:225-246 | one record per message, in order: its id and content, score 1.0, no context, `"Untitled"`/`"unknown"` without a conversation |
| SearchService.FullTextSearch | backend/services/search.py:23-76 | the formatted page of the filtered, ranked query with the provider join corrected, at most `limit` long |
| SearchService.CombineSearchResults | backend/services/search.py:248-284 | the fused list, `min(limit, ids)` long, in non-increasing score order |
| SearchService.HybridSearch | backend/services/search.py:98-124 | the corrected hybrid page, at most `limit` long, every score `1 - alpha` |
| SearchService.AddConversationContext | backend/services/search.py:174-223 | the results with each conversation's marked list attached |

## Left out

- The SQL queries themselves are not modelled. The full-text match (`to_tsvector @@ plainto_tsquery`) and `ts_rank` are abstract functions. Ties in rank are returned in stored order, where PostgreSQL leaves their order unspecified.
- `vector_search` is the stub the source has: it returns no results. pgvector and embeddings are not part of this model.
- The context query of `add_conversation_context` is not modelled. The messages it returns, already ordered by timestamp, are the `fetched` argument.
- Python's iteration order over the `set` of ids in `_combine_search_results` is arbitrary: it follows the string hashes of the ids, which vary from process to process. The model uses first-appearance order, FTS results first, and the stable sort keeps that order among equal scores. With the vector stub every fused score is `1 - alpha` (`SearchProperties.CombinedStubScores`), so all scores tie. The chosen order then decides the whole fused ranking, including which of the FTS candidates survive the cut to `limit`. In the model the hybrid page holds the best-ranked FTS hits in rank order. In the source it holds an arbitrary selection of them, not ordered by `ts_rank`. That consecutive corrected pages partition the ranking (`SearchProperties.HybridPageWindow`) depends on the model's fixed order.
- Floats are modelled as real numbers, without rounding.
- Date filters are compared as integers, without the string-to-timestamp cast.
- Timestamps in results are shown as integers rather than ISO strings.
- `search_conversations`, `get_message_by_id`, the endpoints, `validate_file` and `ensure_test_user` are not part of this model.
- File I/O is not modelled: opening, JSON decoding, globbing, zip extraction and temporary directories are inputs. The directory's file list is given in glob order.
- `str()` of floats, lists and dicts is abstract. `utcfromtimestamp` and `fromisoformat` are abstract and may fail.
- Ids generated with `uuid4()` are modelled as row positions.
- LoadFromExport.FindConversationsJson: paths are plain text joined with `/`. The path given is taken to be normalised as `str(Path(...))` writes it, so a trailing separator and the root directory, which `pathlib` treats specially, are not modelled.
- The loader's `datetime.utcnow()` timestamps are not stored. Its `metadata` columns are.
- Decoded JSON objects are lists of key-value pairs. A key repeated in the file is kept twice, and lookups take the first occurrence, where `json.load` keeps the last one. Floats are reals, so `NaN` and `Infinity`, which `json.load` accepts, have no counterpart.
- Logging and printing are left out, except the two counts the loader prints, which its method returns.
- Concurrency and transactions are not modelled. The backend path keeps the rows written before an exception, since the upload endpoint commits afterwards. The loader commits once at the end.
- SearchService.AddConversationContext: the source mutates shared per-conversation lists in place, and every result of a conversation references the same list. The model attaches each conversation's final list after the marking loop, which gives the same records but does not model the aliasing.
- SearchService.FullTextSearch: this runs the corrected query, in which a provider filter always joins each message to its own conversation (`FtsRows`). The query as written at `backend/services/search.py:45-48`, which leaves that join out when only a provider is given, is `FtsRowsAsWritten` (see Findings).
- SearchService.HybridSearch: this is the corrected operation. It fetches `(offset + limit) * 2` FTS candidates and cuts the fused list at `offset + limit`. The code as written is `HybridPageAsWritten` (see Findings). Its full-text candidates come from the corrected query of `SearchService.FullTextSearch`.

## Findings

| source | as written | input that shows it | evidently intended | confidence | as-written member | corrected member |
|---|---|---|---|---|---|---|
| backend/services/search.py:120-124 | the fused list is cut to `limit` before the page `[offset:offset+limit]` is taken, so every page after the first is empty | `limit = 10`, `offset = 10` and 25 distinct matching messages: the page is empty | the page is results 11-20 of the full fused ranking | not executed | SearchProperties.HybridAsWrittenSkipsPages | SearchProperties.HybridPageWindow |
| backend/services/search.py:45-48 | with a provider filter and no project filter, `"conversation" not in str(base_query)` is false, because the SQL already names `messages.conversation_id`; so no join is added and the provider condition crosses messages with every conversation | a message in a conversation of provider `claude`, and two conversations of provider `chatgpt`, searched with provider `chatgpt`: the message is returned twice | only messages whose own conversation has the requested provider, each once | not executed | SearchProperties.FtsProviderCrossJoin | SearchProperties.FtsRowsSound |
