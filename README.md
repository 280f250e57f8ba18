# OmniLink core in Dafny

A Dafny model of the core of OmniLink, an instant-messaging backend written in
Go with an AI assistant layer and a JavaScript web client. It covers:

- the chat services: sessions (who may open a chat with whom, the session
  lists), messages (the paged one-to-one and group history), contacts
  (applications, accepting and refusing them, the user list) and groups
  (creating, inviting, leaving, dismissing);
- the WebSocket hub: registering and unregistering clients, closing a client
  and sending a payload to every connection of a user through a bounded
  per-client buffer;
- the AI ingestion path: the asynchronous ingest service that enqueues chat
  pages into an outbox with a dedup key, the outbox relay (retry back-off,
  topic and key selection), the ingest consumer worker (its state flow, error
  scrubbing, job finalisation and page clamping), the ingest graph (prepare,
  merge chat turns, chunk, embed, upsert, status update), the legacy ingest
  node, the rune-based sliding-window chunker, the chat-turn merger and the
  Milvus document adapter;
- retrieval: request validation and defaults, the Milvus filter expression,
  threshold filtering, dedup by source, ranking and the two caps;
- the assistant: the task-suggestion parser, title and content truncation,
  the context string, tool-call ids and statuses, summary truncation, paging
  and the defaults of new sessions and agents;
- the scheduled job service (event triggers, prompt templating, session
  validation, deactivation), the MCP tool dispatcher, the smart-command
  pipeline and the self-profile reader;
- the web client's normalisation of sessions and incoming messages
  (imNormalize.js).

Repositories are maps or sequences held by the service classes or passed as
values; a database transaction is one atomic step that either commits or
leaves the state unchanged. Clocks, ids, hashing, JSON, the message queue and
the language model are parameters of the operations that use them.

Shared pieces live in `common.dfy` (Option, Result, service error kinds),
`go_strings.dfy` (the Go `strings` functions used: TrimSpace with Go's
white-space set, HasPrefix, Contains, Index, ReplaceAll, ToLower over ASCII,
UTF-8 byte length and byte cuts) and `seqs.dfy` (generic sequence lemmas).
Each other file models one source file.

## Model

| member | source | states |
|---|---|---|
| Chunking.NewSimpleChunker | internal/modules/ai/infrastructure/chunking/simple_chunker.go:12-26 | a non-positive size becomes 500; an overlap below 0 becomes 0 and one not below the size becomes size/2, so the chunker is always valid (size > 0, 0 <= overlap < size) |
| Chunking.Chunk | internal/modules/ai/infrastructure/chunking/simple_chunker.go:29-64 | the method's result is the chunk specification: [] for empty text, [text] when it fits, else the sliding window |
| Chunking.ChunkLoop | internal/modules/ai/infrastructure/chunking/simple_chunker.go:43-61 | the loop emits a slice of up to size runes every step runes and stops after the slice that reaches the end of the text |
| Chunking.ChunkSizes | internal/modules/ai/infrastructure/chunking/simple_chunker.go:30-55 | empty text gives no chunks, text of at most ChunkSize runes gives itself, and every chunk holds at most ChunkSize runes (and is non-empty) |
| Chunking.ChunksFromBounds | internal/modules/ai/infrastructure/chunking/simple_chunker.go:43-55 | from any position inside the text the loop emits at least one chunk and each is at most size runes |
| Chunking.ChunkAt | internal/modules/ai/infrastructure/chunking/simple_chunker.go:43-55 | chunk k starts at rune i + k*step and is the slice of up to size runes from there |
| Chunking.ChunkLayout | internal/modules/ai/infrastructure/chunking/simple_chunker.go:43-60 | for a valid chunker, chunk k is text[k*Step .. min(k*Step + size, len)] and the last chunk ends at the end of the text |
| Chunking.LastChunkReachesEnd | internal/modules/ai/infrastructure/chunking/simple_chunker.go:50-60 | the loop terminates with a chunk whose end is the end of the text |
| Chunking.NoChunkAfterEnd | internal/modules/ai/infrastructure/chunking/simple_chunker.go:56-58 | once a chunk reaches the end of the text no further chunk is emitted |
| Chunking.ChunkOverlapShared | internal/modules/ai/infrastructure/chunking/simple_chunker.go:43-55 | consecutive chunks share exactly ChunkOverlap runes: the tail of chunk k is the head of chunk k+1 |
| Chunking.OverlapFrom | internal/modules/ai/infrastructure/chunking/simple_chunker.go:43-55 | every chunk but the last is full, and its last size-step runes open the next chunk |
| Chunking.ChunkRejoin | internal/modules/ai/infrastructure/chunking/simple_chunker.go:29-64 | chunking loses nothing: dropping each overlap and concatenating the chunks gives the text back |
| Chunking.RejoinFrom | internal/modules/ai/infrastructure/chunking/simple_chunker.go:43-60 | the chunks emitted from position i rejoin to text[i..] |
| Chunking.ChunkSingle | internal/modules/ai/infrastructure/chunking/simple_chunker.go:50-58 | a lone chunk is the whole rest of the text |
| Chunking.ChunkTail | internal/modules/ai/infrastructure/chunking/simple_chunker.go:50-55 | when a second chunk exists the first one is full and the rest are the chunks from i + step |
| ImNormalize.NormalizeSession | web/src/utils/imNormalize.js:1-35 | the result holds the computed fields plus every raw key, raw keys overriding computed ones (spread last); it throws a TypeError exactly when no peer_type is given and a truthy non-string peer id meets startsWith |
| ImNormalize.SessionPeerIdDefault | web/src/utils/imNormalize.js:6 | without a peer_id key the peer id is user_id, else group_id, else receive_id (first truthy) |
| ImNormalize.SessionPeerNameDefault | web/src/utils/imNormalize.js:16-21 | without a peer_name key the name is the first truthy of username, group_name, receive_name, else 'Unknown' |
| ImNormalize.SessionUnreadDefault | web/src/utils/imNormalize.js:31 | without an unread_count key the unread count is 0 |
| ImNormalize.SessionPeerTypeDefault | web/src/utils/imNormalize.js:9-15 | without a peer_type key the peer type is 'G' or 'U' |
| ImNormalize.SessionPeerTypeByPrefix | web/src/utils/imNormalize.js:9-15 | with no explicit type, a 'G' id gives 'G', a 'U' id gives 'U', any other id gives 'G' iff group_id is truthy |
| ImNormalize.NormalizeIncomingMessage | web/src/utils/imNormalize.js:37-70 | ids take the snake_case field, else camelCase, else ''; a 'G' receiver is the peer, else the peer is the receiver when the current user sent it and the sender otherwise; the uuid is truthy (raw uuid, else id, else a temp- id); type defaults to 0 only when undefined, content and url to ''; a TypeError exactly for a truthy non-string receiver |
| ImNormalize.IdFieldFallback | web/src/utils/imNormalize.js:39-40 | the snake_case id wins over the camelCase one, which wins over '' |
| ImNormalize.DirectPeerIsTheOtherSide | web/src/utils/imNormalize.js:44-48 | in a direct conversation the message a user sends and the one they receive from the same peer both carry that peer as peer_id |
| Outbox.NewOutboxRelay | internal/modules/ai/infrastructure/queue/outbox_relay.go:25-40 | a non-positive batch size becomes 200 and a non-positive poll interval 500ms, so both are positive; the default topic is trimmed |
| Outbox.RetryDelay | internal/modules/ai/infrastructure/queue/outbox_relay.go:140-152 | the retry delay is at least 500ms and at most 5 minutes, and exactly 500ms for a retry count of zero or less |
| Outbox.ComputeNextRetry | internal/modules/ai/infrastructure/queue/outbox_relay.go:140-152 | the doubling loop (stopping early at the cap) yields now + RetryDelay(retryCount) = now + min(500ms * 2^max(r,0), 5min) |
| Outbox.CappedStaysCapped | internal/modules/ai/infrastructure/queue/outbox_relay.go:145-150 | once the doubled delay reaches five minutes, further doublings leave the capped value unchanged (the early exit is harmless) |
| Outbox.RetryDelayMonotone | internal/modules/ai/infrastructure/queue/outbox_relay.go:140-152 | the delay lies between 500ms and 5 minutes and never shrinks as the retry count grows |
| Outbox.Neg64 | internal/modules/ai/infrastructure/queue/outbox_relay.go:162-164 | 64-bit negation: -n for every int64 except MinInt64, which negates to itself |
| Outbox.WriteDigits | internal/modules/ai/infrastructure/queue/outbox_relay.go:165-169 | the digit loop writes the decimal digits of a positive n backwards into the tail of the 32-byte buffer and writes nothing for n <= 0 |
| Outbox.DecimalLengthBound | internal/modules/ai/infrastructure/queue/outbox_relay.go:158 | a number below 10^k has at most k decimal digits (so 32 bytes always suffice) |
| Outbox.StrconvInt64AsWritten | internal/modules/ai/infrastructure/queue/outbox_relay.go:154-175 | as written: the decimal form (with '-' for negatives, "0" for 0) for every int64 except MinInt64, which renders as "-" |
| Outbox.StrconvInt64 | internal/modules/ai/infrastructure/queue/outbox_relay.go:154-175 | corrected: the magnitude taken as an unsigned value gives the decimal form FormatInt(v) for every int64 |
| Outbox.MinInt64RenderingLost | internal/modules/ai/infrastructure/queue/outbox_relay.go:160-174 | "-" is not the decimal form of MinInt64 and does not parse back, while the corrected rendering parses back to MinInt64 |
| Outbox.Run | internal/modules/ai/infrastructure/queue/outbox_relay.go:42-75 | a missing event repository or publisher is an immediate error with no pause; otherwise Run ends with the context's error after the pauses SleepsFor gives for the RunOnce outcomes |
| Outbox.BackoffDoubling | internal/modules/ai/infrastructure/queue/outbox_relay.go:61-67 | after k consecutive RunOnce errors the backoff is the poll interval doubled k times, capped at 30s |
| Outbox.BackoffResetsOnSuccess | internal/modules/ai/infrastructure/queue/outbox_relay.go:69 | a successful RunOnce resets the backoff to the poll interval whatever came before |
| Outbox.BackoffBounds | internal/modules/ai/infrastructure/queue/outbox_relay.go:50-69 | every backoff lies between min(poll, 30s) and max(poll, 30s) |
| Outbox.KeyFor | internal/modules/ai/infrastructure/queue/outbox_relay.go:100-103 | the partition key is the dedup key when non-empty, else the decimal event id, so it is never empty |
| Outbox.TopicFor | internal/modules/ai/infrastructure/queue/outbox_relay.go:91-98 | the default topic wins when set; the topic is empty exactly when there is no default topic and the event's topic is blank |
| Outbox.PublishEvent | internal/modules/ai/infrastructure/queue/outbox_relay.go:89-134 | one loop iteration: the topic is the default topic else the trimmed event topic; no topic marks the event failed for +5min; a publish error marks it failed at the next retry time; a successful publish is marked published, and only a successful mark bumps the job counter and the count |
| Outbox.RunOnce | internal/modules/ai/infrastructure/queue/outbox_relay.go:77-138 | a claim error returns 0 and that error with no writes; otherwise no error, the count of events published and the repository writes of every event in order |
| Outbox.BatchStep | internal/modules/ai/infrastructure/queue/outbox_relay.go:89-135 | handling one more event appends its writes and adds 1 to the count exactly when it was published |
| Outbox.PublishedIffDelivered | internal/modules/ai/infrastructure/queue/outbox_relay.go:119-134 | an event counts as published exactly when it had a topic, the publish succeeded and MarkPublished succeeded |
| Outbox.PublishedCountIsDelivered | internal/modules/ai/infrastructure/queue/outbox_relay.go:88-137 | the published count is the number of delivered events: a failed mark does not count, and the count is at most the batch size |
| Outbox.EmptyTopicMarkedFailed | internal/modules/ai/infrastructure/queue/outbox_relay.go:91-98 | an event with no default and a blank own topic is marked failed with "kafka topic is empty", to be retried in five minutes, and not counted |
| Outbox.EventMarkedOnce | internal/modules/ai/infrastructure/queue/outbox_relay.go:95-134 | each event gets exactly one Mark call first; a counter update follows only a published event; a publish failure with a topic is retried at RetryDelay(retryCount) |
| Retrieve.NormalizeTopK | internal/modules/ai/infrastructure/pipeline/retrieve_pipeline.go:98-106 | the result is always in [1, 50]: non-positive gives 5, above 50 gives 50, otherwise the input |
| Retrieve.Validate | internal/modules/ai/infrastructure/pipeline/retrieve_graph.go:65-97 | a nil request, a blank tenant and a blank question give their own errors and nothing else fails; on success tenant and question are trimmed and non-empty, top-k is in [1, 50], a blank KB type becomes "global", and the other fields are carried unchanged |
| Retrieve.ValidEntries | internal/modules/ai/infrastructure/pipeline/retrieve_pipeline.go:118-129 | the kept entries are no more than the input and none is empty |
| Retrieve.ValidEntriesEmptyIff | internal/modules/ai/infrastructure/pipeline/retrieve_pipeline.go:118-129 | no entry is kept exactly when every entry is blank |
| Retrieve.QuoteValid | internal/modules/ai/infrastructure/pipeline/retrieve_pipeline.go:118-142 | the loop over a source list yields the quoted trimmed non-blank entries, in order |
| Retrieve.BuildFilterExpr | internal/modules/ai/infrastructure/pipeline/retrieve_pipeline.go:114-144 | the method builds the filter expression FilterExpr: the base clause, then a source_type and a source_key clause |
| Retrieve.FilterStartsWithTenant | internal/modules/ai/infrastructure/pipeline/retrieve_pipeline.go:116 | every filter begins with the tenant_user_id and kb_id clause |
| Retrieve.SourceClausePresence | internal/modules/ai/infrastructure/pipeline/retrieve_pipeline.go:118-142 | a source_type (source_key) clause is present exactly when some entry is non-blank after trimming |
| Retrieve.AboveThreshold | internal/modules/ai/infrastructure/pipeline/retrieve_graph.go:203-211 | a hit is kept exactly when it was a hit and its score is at least the threshold, in order |
| Retrieve.FilterByThreshold | internal/modules/ai/infrastructure/pipeline/retrieve_graph.go:203-211 | the threshold loop yields AboveThreshold of the hits |
| Retrieve.BestByKey | internal/modules/ai/infrastructure/pipeline/retrieve_graph.go:213-221 | for every key seen the map holds a hit of that key from the input whose score is at least that of every hit of the key; the first-seen key order has no repeats |
| Retrieve.DedupBy | internal/modules/ai/infrastructure/pipeline/retrieve_graph.go:213-226 | one hit per key (keys distinct), every hit from the input, every key of the input still present, each with the best score of its key |
| Retrieve.JoinedSourceKeyNotInjective | internal/modules/ai/infrastructure/pipeline/retrieve_graph.go:216 | two hits from different (source_type, source_key) pairs join to the same key, because the joining separator may occur inside a source type |
| Retrieve.JoinedKeyCollision | internal/modules/ai/infrastructure/pipeline/retrieve_graph.go:213-226 | as written: dedup on the joined key collapses two hits from different sources whose joined keys coincide into one |
| Retrieve.PairKeyKeepsSources | internal/modules/ai/infrastructure/pipeline/retrieve_graph.go:212-226 | corrected: dedup on the (source_type, source_key) pair keeps one hit per source, so two different sources both survive |
| Retrieve.DistinctKeysBound | internal/modules/ai/infrastructure/pipeline/retrieve_graph.go:222-225 | a list with distinct keys drawn from a set of keys is no longer than the set |
| Retrieve.InsertByScore | internal/modules/ai/infrastructure/pipeline/retrieve_graph.go:228-230 | insertion adds exactly the one hit (a permutation of the old list plus it) |
| Retrieve.InsertByScoreSorted | internal/modules/ai/infrastructure/pipeline/retrieve_graph.go:228-230 | inserting into a descending list keeps it descending |
| Retrieve.SortByScoreDesc | internal/modules/ai/infrastructure/pipeline/retrieve_graph.go:228-230 | the result is sorted by score descending and is a permutation of the input |
| Retrieve.CapContentChars | internal/modules/ai/infrastructure/pipeline/retrieve_graph.go:236-248 | the longest prefix whose rune total stays within the cap: a prefix within the cap, stopping only at the first hit that would overflow it |
| Retrieve.Caps | internal/modules/ai/infrastructure/pipeline/retrieve_graph.go:231-248 | a prefix of at most MaxChunks hits and at most MaxContentChars runes (each only when positive), all of the input without caps, and it stops short only where a cap forbids the next hit |
| Retrieve.ProcessedPrefix | internal/modules/ai/infrastructure/pipeline/retrieve_graph.go:231-248 | a prefix of a processed list is processed (sorted, from the kept hits, deduplicated when asked) |
| Retrieve.DedupAndSort | internal/modules/ai/infrastructure/pipeline/retrieve_graph.go:212-230 | the result is sorted, from the kept hits and no longer; without dedup it is a permutation of them; with dedup every key of the kept hits is still there, once, with its best score |
| Retrieve.PrefixDropsLower | internal/modules/ai/infrastructure/pipeline/retrieve_graph.go:228-234 | a prefix of the sorted kept hits leaves out only hits that rank no higher than every hit it returns |
| Retrieve.DroppedKeyRanksLower | internal/modules/ai/infrastructure/pipeline/retrieve_graph.go:213-234 | a key missing from a prefix of the sorted dedup has only hits ranking no higher than the returned ones |
| Retrieve.PrefixDropsLowerKeys | internal/modules/ai/infrastructure/pipeline/retrieve_graph.go:213-234 | every key of the kept hits left out by the caps ranks no higher than every returned hit |
| Retrieve.PostProcess | internal/modules/ai/infrastructure/pipeline/retrieve_graph.go:183-252 | no hits give []; the output is sorted, drawn from the hits passing the threshold, deduplicated (one best hit per key) when asked, within both caps; without caps it is all kept hits (a permutation) or, with dedup, covers every key; whatever (or whichever key) it leaves out ranks no higher than everything it returns; the output is the longest prefix of the ranked list (a permutation of the kept hits, or with dedup one best hit for every key) within both caps: it stops only at the chunk cap or at the first hit that would pass the character cap |
| Retrieve.ProcessedHitsPassThreshold | internal/modules/ai/infrastructure/pipeline/retrieve_graph.go:203-211 | every returned hit came from the search and, with a positive threshold, reaches it |
| Retrieve.SameKeySame | internal/modules/ai/infrastructure/pipeline/retrieve_graph.go:213-226 | two hits of a deduplicated list sharing a key are the same hit |
| Retrieve.DistinctAfterPermutation | internal/modules/ai/infrastructure/pipeline/retrieve_graph.go:228-230 | sorting a deduplicated list keeps its keys distinct |
| Retrieve.CoversAfterPermutation | internal/modules/ai/infrastructure/pipeline/retrieve_graph.go:228-230 | sorting a list keeps every key it covered |
| Retrieve.CountAtMostOne | internal/modules/ai/infrastructure/pipeline/retrieve_graph.go:213-226 | a hit occurs at most once in a list whose keys are distinct |
| Retrieve.BuildResult | internal/modules/ai/infrastructure/pipeline/retrieve_graph.go:255-292 | TotalHits counts the hits before filtering, ReturnedCount the filtered ones; IsEmpty holds iff ReturnedCount is 0, and then the hint message is set |
| Retrieve.Retrieve | internal/modules/ai/infrastructure/pipeline/retrieve_pipeline.go:87-95 | a nil request and a failed validation are errors; a result means validation, the knowledge base and the search all succeeded; TotalHits is the number of search hits; the chunks returned are drawn from the hits that pass the threshold, sorted by score, with one best hit per (source_type, source_key) pair when dedup is on; they are the longest prefix of the ranked hits (a permutation of the kept hits, or one hit for every key) within MaxChunks and MaxContentChars; ReturnedCount is their number and IsEmpty iff there are none |
| AssistantGraph.ParseTaskSuggestion | internal/modules/ai/infrastructure/pipeline/assistant_graph.go:685-702 | a suggestion is only ever found in an answer that contains the start tag |
| AssistantGraph.ExtractBlock | internal/modules/ai/infrastructure/pipeline/assistant_graph.go:685-702 | for any tag pair and trimming function, a suggestion requires the opening tag to be present |
| AssistantGraph.ParseWithoutTag | internal/modules/ai/infrastructure/pipeline/assistant_graph.go:686-689 | without a start tag the result is (nil, trimmed answer) |
| AssistantGraph.ParseUnclosedTag | internal/modules/ai/infrastructure/pipeline/assistant_graph.go:690-693 | a start tag with no end tag after it gives (nil, trimmed text before the tag) |
| AssistantGraph.BlockUnclosed | internal/modules/ai/infrastructure/pipeline/assistant_graph.go:685-693 | the unclosed case for any tags whose first character occurs nowhere else in them |
| AssistantGraph.ParseClosedTag | internal/modules/ai/infrastructure/pipeline/assistant_graph.go:694-701 | with both tags the suggestion is what the trimmed block decodes to (nil exactly when decoding fails) and the answer is the text before and after the block, trimmed |
| AssistantGraph.BlockClosed | internal/modules/ai/infrastructure/pipeline/assistant_graph.go:685-701 | the closed case for any such tags and trimming function |
| AssistantGraph.ClosedIndices | internal/modules/ai/infrastructure/pipeline/assistant_graph.go:686-694 | the start tag is found right after the text before it, and the end tag right after the block |
| AssistantGraph.CutFound | internal/modules/ai/infrastructure/pipeline/assistant_graph.go:694-701 | once the end tag is located the block between the tags is decoded and the pieces around it are joined and trimmed |
| AssistantGraph.TruncateContent | internal/modules/ai/infrastructure/pipeline/assistant_graph.go:760-766 | text of at most maxLen runes is returned unchanged; longer text becomes its first maxLen runes followed by "..." |
| AssistantGraph.TruncateTitle | internal/modules/ai/infrastructure/pipeline/assistant_graph.go:752-758 | a title is at most 33 runes |
| AssistantGraph.TruncateKeepsPrefix | internal/modules/ai/infrastructure/pipeline/assistant_graph.go:760-766 | the truncated text agrees with the original on its first min(len, maxLen) runes |
| AssistantGraph.TruncateTitleCases | internal/modules/ai/infrastructure/pipeline/assistant_graph.go:752-758 | a question of at most 30 runes is kept, a longer one becomes its first 30 runes plus "..." |
| AssistantGraph.CitationLine | internal/modules/ai/infrastructure/pipeline/assistant_graph.go:666-667 | each context line starts with "[chunk:" and ends with ")\n" |
| AssistantGraph.LinesOf | internal/modules/ai/infrastructure/pipeline/assistant_graph.go:662-668 | one line per citation, in order |
| AssistantGraph.BuildContextString | internal/modules/ai/infrastructure/pipeline/assistant_graph.go:660-670 | the builder holds the lines of the first min(n, 5) citations, in order |
| AssistantGraph.FlattenPrefix | internal/modules/ai/infrastructure/pipeline/assistant_graph.go:662-669 | what the builder wrote first stays at the front of what it holds later |
| AssistantGraph.ContextBounds | internal/modules/ai/infrastructure/pipeline/assistant_graph.go:660-670 | the context opens with the first citation's line and closes with the line of the last citation written (the fifth when there are more) |
| AssistantGraph.FindTool | internal/modules/ai/infrastructure/pipeline/assistant_graph.go:444-463 | the tool found is one of the tools and carries the name, and one is found exactly when some tool reports that name |
| AssistantGraph.ToolStatusIff | internal/modules/ai/infrastructure/pipeline/assistant_graph.go:465-482 | the status is "error" exactly when the tool is missing, not invokable or its run fails, and "success" otherwise |
| AssistantGraph.ToolResponseOnSuccess | internal/modules/ai/infrastructure/pipeline/assistant_graph.go:449-456 | a successful run answers with exactly what the tool returned |
| AssistantGraph.ToolCallIdFallback | internal/modules/ai/infrastructure/pipeline/assistant_graph.go:484-488 | the tool message's call id is the call's id, or the tool name when the id is empty |
| AssistantGraph.ToolMessages | internal/modules/ai/infrastructure/pipeline/assistant_graph.go:430-497 | one tool message per call, in order |
| AssistantGraph.StreamOf | internal/modules/ai/infrastructure/pipeline/assistant_graph.go:432-482 | two stream events per call |
| AssistantGraph.ToolsNode | internal/modules/ai/infrastructure/pipeline/assistant_graph.go:411-505 | the prompt gets one tool message per call appended in order, and the emitter (if set) a tool_call and a tool_result event per call |
| AssistantGraph.CallTool | internal/modules/ai/infrastructure/pipeline/assistant_graph.go:430-497 | one iteration: the message and events of the call as ToolMessageOf and EventsOf define them |
| AssistantService.TruncateSummary | internal/modules/ai/application/service/assistant_service.go:305-315 | blank text or a non-positive limit gives ""; otherwise the summary is at most maxLen + 3 runes |
| AssistantService.SummaryIsTruncatedTrim | internal/modules/ai/application/service/assistant_service.go:305-315 | a summary is the trimmed text, kept whole when it fits and otherwise its first maxLen runes plus "..." (the same rule as truncateContent) |
| AssistantService.SummaryNeverBlankWhenKept | internal/modules/ai/application/service/assistant_service.go:305-315 | a non-blank text with a positive limit gives a non-empty summary that starts with as much of the trimmed text as fits |
| AssistantService.ParseCitations | internal/modules/ai/application/service/assistant_service.go:317-333 | a blank or "{}" column gives no citations; a column that decodes as an array gives that array; a single citation otherwise is the decoded object and carries a chunk id, source key or content |
| AssistantService.ItemOf | internal/modules/ai/application/service/assistant_service.go:381-402 | an item keeps role, content and time; citations appear only on assistant messages with a citations column; token counts are 0 when the column is empty or does not decode |
| AssistantService.PageWindow | internal/modules/ai/application/service/assistant_service.go:356-373 | the limit is the given one or the default when non-positive; the offset is the given one, else the last page of total messages, never negative |
| AssistantService.DefaultPageIsLast | internal/modules/ai/application/service/assistant_service.go:367-373 | without an offset the page read reaches the newest message |
| AssistantService.GetSessionMessages | internal/modules/ai/application/service/assistant_service.go:335-409 | blank session id and blank tenant give their own errors; success exactly when the session is the tenant's and the reads succeed; then the items are those of the page read at the paging window, one per stored message in order, with the total count |
| AssistantService.BuildItems | internal/modules/ai/application/service/assistant_service.go:380-402 | one item per stored message, in order |
| AssistantService.KnowledgeBaseFor | internal/modules/ai/application/service/assistant_service.go:421-517 | an agent is bound to a knowledge base exactly for the kb types "global" and "agent_private" |
| AssistantService.CreateAgent | internal/modules/ai/application/service/assistant_service.go:411-544 | a blank tenant and an unknown kb type give their own errors; a created agent has the generated id, the trimmed tenant as owner, the request's name and kb type, the ensured knowledge base, its system prompt and an empty tool list, and was stored |
| AssistantService.PrivateAgentDefaults | internal/modules/ai/application/service/assistant_service.go:479-513 | a private agent owns its knowledge base; without a persona it gets the default one, without a kb name its base is "<name> Knowledge Base", else the trimmed kb name |
| AssistantService.GlobalAgentBinding | internal/modules/ai/application/service/assistant_service.go:422-478 | a global agent is bound to the tenant's "Global Knowledge Base" and the global prompt |
| AssistantService.NewSession | internal/modules/ai/application/service/assistant_service.go:565-578 | a new session is active, titled by the request or the default title when blank |
| AssistantService.CreateSession | internal/modules/ai/application/service/assistant_service.go:546-590 | blank tenant and blank agent give their own errors; a session is created exactly when both are present, the agent is visible to the tenant and the store succeeds, and then it is NewSession |
| AsyncIngest.IsDuplicateKeyErr | internal/modules/ai/application/service/async_ingest_service.go:216-228 | a nil error is never a duplicate-key error |
| AsyncIngest.DuplicateMarkerRecognized | internal/modules/ai/application/service/async_ingest_service.go:216-228 | any message containing "duplicate entry" or "uniq_ai_event_dedup" (in any ASCII case) is a duplicate-key error |
| AsyncIngest.BuildDedupKey | internal/modules/ai/application/service/async_ingest_service.go:201-210 | every dedup key starts with "inc_" |
| AsyncIngest.DedupKeyIgnoresSpace | internal/modules/ai/application/service/async_ingest_service.go:201-210 | the dedup key depends only on the trimmed parts |
| AsyncIngest.GoDiv | internal/modules/ai/application/service/async_ingest_service.go:212-214 | Go's division truncates toward zero |
| AsyncIngest.DedupByMinute | internal/modules/ai/application/service/async_ingest_service.go:212-214 | the per-minute dedup extra is never empty, and for a time after the epoch it is the decimal number of whole minutes |
| AsyncIngest.SameMinuteSameExtra | internal/modules/ai/application/service/async_ingest_service.go:212-214 | two requests within the same minute get the same dedup extra |
| AsyncIngest.DedupKeyOfTrimmed | internal/modules/ai/application/service/async_ingest_service.go:155-199 | the key of the trimmed arguments is the one buildDedupKey computes from the raw ones |
| AsyncIngest.EnqueueWritesOne | internal/modules/ai/application/service/async_ingest_service.go:155-199 | enqueue writes at most one event, and exactly one when the arguments are complete, the payload marshals and the insert succeeds; that event has the trimmed non-empty names and an "inc_" key |
| AsyncIngest.EnqueueErrors | internal/modules/ai/application/service/async_ingest_service.go:155-199 | enqueue fails exactly on incomplete arguments (parameter error), a payload that does not marshal (server error) or a non-duplicate insert error; a duplicate insert is success and writes nothing |
| AsyncIngest.ClampPage | internal/modules/ai/application/service/async_ingest_service.go:106-116 | the page is at least 1; the page size is 50 when unset and at most 200 |
| AsyncIngest.ChatPageFallbacks | internal/modules/ai/application/service/async_ingest_service.go:83-153 | a chat page request is rejected exactly when, after trimming, it lacks a tenant, a session, both target and source key, or a source type (each with its message); target id and source key stand in for each other and the page is clamped |
| AsyncIngest.ChatPageArgsComplete | internal/modules/ai/application/service/async_ingest_service.go:129-153 | a chat page request that passes its own checks always passes enqueue's completeness check |
| AsyncIngest.AsyncIngestService.Enqueue | internal/modules/ai/application/service/async_ingest_service.go:155-199 | a nil repository makes enqueue a no-op returning nil; otherwise the new events and status are EnqueueSpec |
| AsyncIngest.AsyncIngestService.Write | internal/modules/ai/application/service/async_ingest_service.go:167-199 | on complete arguments: marshal, build the event, insert it, as EnqueueTrimmed |
| AsyncIngest.AsyncIngestService.Insert | internal/modules/ai/application/service/async_ingest_service.go:186-198 | a duplicate-key insert error is success with nothing written; another error fails |
| AsyncIngest.AsyncIngestService.EnqueueSelfProfile | internal/modules/ai/application/service/async_ingest_service.go:54-61 | a blank tenant is rejected; otherwise one self_profile event keyed by the tenant, deduplicated per minute |
| AsyncIngest.AsyncIngestService.EnqueueContactProfile | internal/modules/ai/application/service/async_ingest_service.go:63-71 | a blank tenant or contact is rejected; otherwise one contact_profile event keyed by the trimmed contact id, deduplicated per minute |
| AsyncIngest.AsyncIngestService.EnqueueGroupProfile | internal/modules/ai/application/service/async_ingest_service.go:73-81 | a blank tenant or group is rejected; otherwise one group_profile event keyed by the trimmed group id, deduplicated per minute |
| AsyncIngest.AsyncIngestService.EnqueueChatMessagesPage | internal/modules/ai/application/service/async_ingest_service.go:83-153 | a nil repository accepts anything; otherwise a rejected request writes nothing and a valid one is enqueued with its fallbacks |
| ChatTurn.SenderName | internal/modules/ai/infrastructure/transform/chat_turn_merger.go:83-87 | the sender shown is the trimmed name, or the trimmed id when the name is blank |
| ChatTurn.ReceiverName | internal/modules/ai/infrastructure/transform/chat_turn_merger.go:88-92 | the receiver shown is the trimmed id, or "unknown" when it is blank, so never empty |
| ChatTurn.Line | internal/modules/ai/infrastructure/transform/chat_turn_merger.go:93 | a rendered line ends with the trimmed content, after a non-empty header |
| ChatTurn.ItemOf | internal/modules/ai/infrastructure/transform/chat_turn_merger.go:61-97 | a message yields no line exactly when its content is blank; otherwise a non-empty line at the message's time |
| ChatTurn.Kept | internal/modules/ai/infrastructure/transform/chat_turn_merger.go:61-66 | the entries of the non-blank messages, in order, each with a non-empty line |
| ChatTurn.Groups | internal/modules/ai/infrastructure/transform/chat_turn_merger.go:68-80 | the entries cut into runs: runs exist exactly when entries do, and none is empty |
| ChatTurn.GroupsLast | internal/modules/ai/infrastructure/transform/chat_turn_merger.go:96-103 | the last run ends with the last entry |
| ChatTurn.GroupsConcat | internal/modules/ai/infrastructure/transform/chat_turn_merger.go:68-80 | read in order, the runs give the entries back |
| ChatTurn.GroupsClose | internal/modules/ai/infrastructure/transform/chat_turn_merger.go:76-79 | inside a run every gap is within the window |
| ChatTurn.GroupsApart | internal/modules/ai/infrastructure/transform/chat_turn_merger.go:70-75 | each run after the first starts with a gap beyond the window |
| ChatTurn.Texts | internal/modules/ai/infrastructure/transform/chat_turn_merger.go:72-78 | one text per run |
| ChatTurn.MatchesFirst | internal/modules/ai/infrastructure/transform/chat_turn_merger.go:69 | the first kept message opens the first segment |
| ChatTurn.MatchesApart | internal/modules/ai/infrastructure/transform/chat_turn_merger.go:70-75 | a message beyond the window closes the current segment and opens a new one |
| ChatTurn.MatchesClose | internal/modules/ai/infrastructure/transform/chat_turn_merger.go:76-79 | a message within the window extends the segment by a newline and its line |
| ChatTurn.StepMatches | internal/modules/ai/infrastructure/transform/chat_turn_merger.go:61-97 | one more message keeps the loop state in step with the runs of the kept entries |
| ChatTurn.RunMatches | internal/modules/ai/infrastructure/transform/chat_turn_merger.go:61-98 | after the loop the state matches the runs of all kept entries |
| ChatTurn.FlushMatches | internal/modules/ai/infrastructure/transform/chat_turn_merger.go:100-103 | flushing the last segment emits the text of every run |
| ChatTurn.SessionSegmentsAreRuns | internal/modules/ai/infrastructure/transform/chat_turn_merger.go:57-103 | the segments of a session are exactly the texts of the maximal runs of its non-blank messages: a new segment starts iff the gap exceeds the window, lines within a segment are joined by newlines, and the runs give the messages back |
| ChatTurn.SessionSegmentsNonEmpty | internal/modules/ai/infrastructure/transform/chat_turn_merger.go:72 | every emitted segment is non-empty (also chat_turn_merger.go:101) |
| ChatTurn.SessionIdsIff | internal/modules/ai/infrastructure/transform/chat_turn_merger.go:32-40 | a session id is collected exactly when some message carries it |
| ChatTurn.InSession | internal/modules/ai/infrastructure/transform/chat_turn_merger.go:32-35 | the messages collected for a session all carry that session id, and none for an unknown one |
| ChatTurn.GroupStep | internal/modules/ai/infrastructure/transform/chat_turn_merger.go:33-35 | appending one message to its session's list keeps the grouping equal to the messages of each session read so far |
| ChatTurn.InsertByTime | internal/modules/ai/infrastructure/transform/chat_turn_merger.go:53-55 | insertion adds exactly the one message |
| ChatTurn.InsertByTimeSorted | internal/modules/ai/infrastructure/transform/chat_turn_merger.go:53-55 | inserting into a list sorted by time keeps it sorted |
| ChatTurn.SortByTime | internal/modules/ai/infrastructure/transform/chat_turn_merger.go:53-55 | the result is sorted by creation time and is a permutation of the session's messages |
| ChatTurn.ChatTurnMerger.Merge | internal/modules/ai/infrastructure/transform/chat_turn_merger.go:26-107 | the method's result is MergeSpec: sessions in ascending id order, each session's messages sorted by time and cut into segments |
| ChatTurn.ChatTurnMerger.SegmentSessions | internal/modules/ai/infrastructure/transform/chat_turn_merger.go:46-104 | the segments of the given sessions, in the given order |
| ChatTurn.ChatTurnMerger.GroupBySession | internal/modules/ai/infrastructure/transform/chat_turn_merger.go:31-35 | the map's keys are exactly the session ids present, and each holds that session's messages in input order |
| ChatTurn.ChatTurnMerger.SegmentSession | internal/modules/ai/infrastructure/transform/chat_turn_merger.go:57-103 | the loop over one session's messages yields SessionSegments |
| ChatTurn.ChatTurnMerger.Advance | internal/modules/ai/infrastructure/transform/chat_turn_merger.go:61-97 | one pass of the loop body is one Step of the segmenting state |
| ChatTurn.NewChatTurnMerger | internal/modules/ai/infrastructure/transform/chat_turn_merger.go:17-22 | the default window is five minutes |
| ChatTurn.MergeSegmentsNonEmpty | internal/modules/ai/infrastructure/transform/chat_turn_merger.go:26-29 | no messages give no segments, and every segment emitted is non-empty (also chat_turn_merger.go:100-103) |
| ContactService.FriendRowIdsExact | internal/modules/contact/application/service/contact_service.go:62-79 | the collected ids are exactly the ids of the friend rows (type 0, status 0) |
| ContactService.FriendIdsShape | internal/modules/contact/application/service/contact_service.go:62-79 | the friend ids have no duplicate and no empty id, and are exactly the non-empty friend-row ids |
| ContactService.FriendIdsPrefix | internal/modules/contact/application/service/contact_service.go:62-79 | ids keep the place of their first occurrence: later rows only append |
| ContactService.DisplayName | internal/modules/contact/application/service/contact_service.go:108-123 | the display name is the nickname, or the username when the nickname is empty |
| ContactService.ListItemsExact | internal/modules/contact/application/service/contact_service.go:108-123 | every item describes a listed id from its brief, and every listed id with a brief has its item; ids without a brief are skipped |
| ContactService.FriendListExact | internal/modules/contact/application/service/contact_service.go:51-126 | for a non-empty owner the list is served exactly when the contacts read and the briefs read both succeed, and a failed read is a server error; a served list names only friends in good standing (type 0, status 0, non-empty id) that have a brief, and every such friend |
| ContactService.CollectFriendIds | internal/modules/contact/application/service/contact_service.go:62-79 | the seen-set loop yields FriendIds, first-seen order |
| ContactService.GetUserList | internal/modules/contact/application/service/contact_service.go:51-126 | the method's result is GetUserListSpec: a parameter error for an empty owner, a server error when the contacts or briefs read fails, else the items of the deduplicated friend ids that have a brief |
| ContactService.ContactTypeOf | internal/modules/contact/application/service/contact_service.go:458-462 | the contact type is 1 exactly when the id starts with "G", else 0 |
| ContactService.ApplyMessage | internal/modules/contact/application/service/contact_service.go:541-544 | only a group application gets the default message when the message is empty |
| ContactService.ApplyRefusedUnchanged | internal/modules/contact/application/service/contact_service.go:450-567 | self-application is refused, and a refused application changes nothing (the transaction rolls back) |
| ContactService.ApplyStored | internal/modules/contact/application/service/contact_service.go:517-559 | a successful application is stored pending under (applicant, target, type), a reopened one keeps its id, and nothing else changes |
| ContactService.ApplyKeepsKeys | internal/modules/contact/application/service/contact_service.go:517-559 | every application stays stored under its own key |
| ContactService.ApplyReadFailures | internal/modules/contact/application/service/contact_service.go:466-515 | a failed read of the target refuses a well-formed application with a server error; a server error comes only from a failed read or write; a failed membership read never reports "already in the group" (the source only refuses when that read succeeds) |
| ContactService.ApplyToFriendRefused | internal/modules/contact/application/service/contact_service.go:499-515 | already being friends or blacklisting in either direction refuses a friend application |
| ContactService.PassEffect | internal/modules/contact/application/service/contact_service.go:175-344 | a failed pass changes nothing; a failed read of the application (other than not-found) is a server error; a blacklisted application (status 3) is refused; an already passed one succeeds without change |
| ContactService.PassFriendEffect | internal/modules/contact/application/service/contact_service.go:205-249 | a friend application is passed exactly by its target (when the write succeeds) and then is marked passed and makes the two users friends in both directions |
| ContactService.PassTwice | internal/modules/contact/application/service/contact_service.go:197-202 | passing twice is the same as passing once |
| ContactService.PassKeepsGroupsConsistent | internal/modules/contact/application/service/contact_service.go:256-320 | a passed group application keeps every group's MemberCnt equal to its member list's length |
| ContactService.PassGroupKeepsConsistent | internal/modules/contact/application/service/contact_service.go:256-320 | the group branch of a pass keeps MemberCnt equal to the member list's length |
| ContactService.RefuseEffect | internal/modules/contact/application/service/contact_service.go:346-395 | a failed read of the application (other than not-found) is a server error that changes nothing; refusing is a no-op on a refused application and an error on a passed one; otherwise it sets status 2 and nothing else, and refusing again succeeds without change |
| ContactService.ApplicantIdsShape | internal/modules/contact/application/service/contact_service.go:614-626 | the applicant ids have no duplicate or empty id, and every non-empty applicant is listed |
| ContactService.NewItemOf | internal/modules/contact/application/service/contact_service.go:652-674 | an item carries the application's id, applicant and status; group applications get the "[申请入群] " prefix; without a brief the names are empty |
| ContactService.NewItemsExact | internal/modules/contact/application/service/contact_service.go:650-676 | items are exactly those of the pending applications, each pending application having its item |
| ContactService.NewContactListTagged | internal/modules/contact/application/service/contact_service.go:569-682 | for a non-empty owner the list is served exactly when the transaction's reads succeed and, when there is any application, the briefs read succeeds too; a failed read is a server error; every served item has status 0 and every pending group application appears with the "[申请入群] " tag |
| ContactService.GatherGroupApplies | internal/modules/contact/application/service/contact_service.go:588-600 | the loop over owned groups gathers their pending applications in order |
| ContactService.CollectApplicants | internal/modules/contact/application/service/contact_service.go:614-626 | the seen-set loop lists the applicants whose briefs are fetched |
| ContactService.GetNewContactList | internal/modules/contact/application/service/contact_service.go:569-682 | the result is NewContactListSpec (parameter error, server error on a failed transaction or briefs read, empty list without applications, else the items), and the briefs fetched are those of the applicants |
| ContactService.ContactServiceImpl.ApplyContact | internal/modules/contact/application/service/contact_service.go:450-567 | the new state and result are ApplySpec of the old state, including the server error on a failed read of the target or of the friend relation |
| ContactService.ContactServiceImpl.CheckApply | internal/modules/contact/application/service/contact_service.go:466-515 | the checks before writing refuse exactly as ApplyRefusal says: a failed target read is a server error, then the user or group checks, then a failed friend-relation read is a server error, then the relation statuses |
| ContactService.ContactServiceImpl.PassContactApply | internal/modules/contact/application/service/contact_service.go:175-344 | the new state and result are PassSpec of the old state, including the server error when the read of the application fails |
| ContactService.ContactServiceImpl.PassFriendApply | internal/modules/contact/application/service/contact_service.go:205-249 | the new state and result are PassFriend of the old state |
| ContactService.ContactServiceImpl.PassGroupApply | internal/modules/contact/application/service/contact_service.go:256-320 | the new state and result are PassGroup of the old state |
| ContactService.ContactServiceImpl.RefuseContactApply | internal/modules/contact/application/service/contact_service.go:346-395 | the new state and result are RefuseSpec of the old state, including the server error when the read of the application fails |
| ContactService.GroupRefreshes | internal/modules/contact/application/service/contact_service.go:335-339 | one profile refresh per member of the group, in order |
| GroupService.Pairs | internal/modules/contact/application/service/group_service.go:188-190 | one profile refresh per id, in order, each for the group |
| GroupService.AddMemberStep | internal/modules/contact/application/service/group_service.go:65-76 | one addMember step keeps the list as a prefix and adds at most the trimmed id |
| GroupService.AddMemberClean | internal/modules/contact/application/service/group_service.go:65-76 | one addMember step keeps the list free of duplicates and blanks |
| GroupService.CollectContents | internal/modules/contact/application/service/group_service.go:77-80 | collecting keeps the ids already listed as a prefix and adds exactly the non-empty trimmed entries |
| GroupService.CollectClean | internal/modules/contact/application/service/group_service.go:62-80 | collecting never lists an id twice and lists only trimmed non-empty ids |
| GroupService.MemberListStart | internal/modules/contact/application/service/group_service.go:77 | the member list starts with the trimmed owner (when not blank), extended by the requested ids |
| GroupService.MemberListClean | internal/modules/contact/application/service/group_service.go:62-80 | a new group's member list holds no duplicate and no blank id |
| GroupService.MemberListContents | internal/modules/contact/application/service/group_service.go:62-80 | the member list holds exactly the trimmed non-empty owner and requested ids, the owner first |
| GroupService.FirstBadMember | internal/modules/contact/application/service/group_service.go:91-105 | no error exactly when every member exists with account status 0; otherwise "not found" or "status abnormal" |
| GroupService.JoinAll | internal/modules/contact/application/service/group_service.go:136-150 | every member gets a status-0 contact row for the group, other rows unchanged |
| GroupService.CreateRefusals | internal/modules/contact/application/service/group_service.go:54-60 | a blank owner or name is refused with a parameter error, and every refusal leaves the state unchanged |
| GroupService.CreateSucceedsIff | internal/modules/contact/application/service/group_service.go:54-205 | a group is created exactly when the owner and the trimmed name are present, the briefs read succeeds, every member exists with status 0 and the writes succeed; it then holds the member list, MemberCnt is its length, it is active, and every member becomes a status-0 member |
| GroupService.InviteAllMembers | internal/modules/contact/application/service/group_service.go:317-345 | after the invite loop the members are the old members plus the non-empty invited ids, old members' rows unchanged |
| GroupService.InviteAllOthers | internal/modules/contact/application/service/group_service.go:317-345 | the invite loop touches no row of another group |
| GroupService.InviteAllCount | internal/modules/contact/application/service/group_service.go:317-345 | the loop counts exactly the invited ids that were not members yet (status 0 or 5) |
| GroupService.InviteCountGrows | internal/modules/contact/application/service/group_service.go:317-345 | the added count never decreases along the loop |
| GroupService.InviteNoNewcomers | internal/modules/contact/application/service/group_service.go:299-301 | an empty list, or one whose ids are all members already, succeeds without touching any row or the group (also group_service.go:323-325, group_service.go:365) |
| GroupService.InviteEffect | internal/modules/contact/application/service/group_service.go:298-398 | a missing group is "not found" and an inactive one refused unchanged; success makes every non-empty invited id a member and keeps existing members' rows |
| GroupService.Without | internal/modules/contact/application/service/group_service.go:443-451 | removing an id never lengthens the list |
| GroupService.WithoutExactly | internal/modules/contact/application/service/group_service.go:443-451 | removing the leaver removes exactly that id, and nothing when absent |
| GroupService.LeaveEffect | internal/modules/contact/application/service/group_service.go:400-470 | the owner cannot leave and neither can a non-member (status not 0/5); a leaver gets status 6, drops out of the member list (nobody else does) and MemberCnt becomes the new length; failures change nothing |
| GroupService.NonBlank | internal/modules/contact/application/service/group_service.go:518-526 | skipping blank ids never lengthens the list |
| GroupService.NonBlankExactly | internal/modules/contact/application/service/group_service.go:518-526 | exactly the non-blank ids are kept |
| GroupService.DismissEffect | internal/modules/contact/application/service/group_service.go:472-529 | only the owner of an active group can dismiss it; dismissal sets status 2 and, unless the follow-up update fails, moves every contact row of the group to status 8 and no other row; dismissing again is refused as a repeat without change |
| GroupService.DismissedNobodyInGroup | internal/modules/contact/application/service/group_service.go:507-517 | after a dismissal whose follow-up update succeeds, no contact row of the group counts as a member (status 0 or 5) |
| GroupService.CreateKeepsConsistent | internal/modules/contact/application/service/group_service.go:54-205 | creating keeps every group's MemberCnt equal to its member list's length and its members recorded |
| GroupService.InviteKeepsConsistent | internal/modules/contact/application/service/group_service.go:298-398 | inviting keeps the groups consistent |
| GroupService.LeaveKeepsConsistent | internal/modules/contact/application/service/group_service.go:400-470 | leaving keeps the groups consistent |
| GroupService.DismissKeepsConsistent | internal/modules/contact/application/service/group_service.go:472-529 | dismissing keeps the groups consistent |
| GroupService.CollectMembers | internal/modules/contact/application/service/group_service.go:62-80 | the addMember loop yields MemberList |
| GroupService.CheckMembers | internal/modules/contact/application/service/group_service.go:97-105 | the check loop yields the first bad member's error |
| GroupService.RemoveMember | internal/modules/contact/application/service/group_service.go:443-451 | the leave loop yields the members without the leaver |
| GroupService.NonBlankRefreshes | internal/modules/contact/application/service/group_service.go:518-526 | the dismissal loop queues one refresh per non-blank member, in order |
| GroupService.GroupServiceImpl.UpsertMembers | internal/modules/contact/application/service/group_service.go:136-150 | the contact rows become JoinAll of the old ones; groups and queue unchanged |
| GroupService.GroupServiceImpl.EnqueueProfiles | internal/modules/contact/application/service/group_service.go:188-190 | the queue gets one refresh per id appended, nothing else changes |
| GroupService.GroupServiceImpl.CreateGroup | internal/modules/contact/application/service/group_service.go:54-205 | the new state and result are CreateSpec of the old state, including the server error on a failed briefs read |
| GroupService.GroupServiceImpl.CommitCreate | internal/modules/contact/application/service/group_service.go:110-190 | the committed state is CreateCommit |
| GroupService.GroupServiceImpl.InviteGroupMembers | internal/modules/contact/application/service/group_service.go:298-398 | the new state and result are InviteSpec of the old state |
| GroupService.GroupServiceImpl.LeaveGroup | internal/modules/contact/application/service/group_service.go:400-470 | the new state and result are LeaveSpec of the old state |
| GroupService.GroupServiceImpl.CommitLeave | internal/modules/contact/application/service/group_service.go:431-466 | the committed state is LeaveCommit |
| GroupService.GroupServiceImpl.DismissGroup | internal/modules/contact/application/service/group_service.go:472-529 | the new state and result are DismissSpec of the old state: group status 2, the group's contact rows at status 8 unless the follow-up update fails, and the members' profile refreshes queued |
| SessionService.PeerTypeOf | internal/modules/chat/application/service/session_service.go:395-400 | "G" exactly for ids starting with 'G', else "U" |
| SessionService.UserItems | internal/modules/chat/application/service/session_service.go:57-69 | one item per session, in order, with the receiver as peer, its peer type, unread 0, and UpdatedAt the last message time when valid else the creation time |
| SessionService.GetUserSessionList | internal/modules/chat/application/service/session_service.go:43-74 | the method's result is UserSessionListSpec (error on a blank owner or a read error, else UserItems) |
| SessionService.GroupItems | internal/modules/chat/application/service/session_service.go:108-130 | every group item is typed "G", has a 'G' peer that is an active group, and unread 0 |
| SessionService.GroupItemsComplete | internal/modules/chat/application/service/session_service.go:108-130 | every kept session appears in the group list |
| SessionService.GroupSessionListExact | internal/modules/chat/application/service/session_service.go:76-134 | the group list shows exactly the 'G' sessions of groups the owner has an active membership row (type 1, status 0 or 5) for |
| SessionService.CollectActiveGroups | internal/modules/chat/application/service/session_service.go:93-105 | the loop over contact rows yields the active group ids |
| SessionService.GetGroupSessionList | internal/modules/chat/application/service/session_service.go:76-134 | the method's result is GroupSessionListSpec |
| SessionService.UserRows | internal/modules/chat/application/service/session_service.go:224 | the briefs read are those of listed ids that exist |
| SessionService.CheckAllowed | internal/modules/chat/application/service/session_service.go:320-392 | an empty sender or receiver is a parameter error; an allowed session has two distinct non-empty ids (the group and friend rules are GroupSessionAllowedIff and FriendSessionAllowedIff) |
| SessionService.CheckRefusesDegenerate | internal/modules/chat/application/service/session_service.go:320-325 | empty ids and a session with oneself are refused as bad requests |
| SessionService.GroupSessionAllowedIff | internal/modules/chat/application/service/session_service.go:339-358 | a group session is allowed iff the group has status 0 and the sender's member row has status 0 or 5 |
| SessionService.FriendSessionAllowedIff | internal/modules/chat/application/service/session_service.go:360-392 | a user session is allowed iff the sender's friend row is status 0 and the peer's account is status 0; status 2 and status 1 give their own Forbidden messages |
| SessionService.LastBrief | internal/modules/chat/application/service/session_service.go:238-260 | the brief kept for an id is the last one seen for it, and none when it is absent |
| SessionService.FriendCommitEffect | internal/modules/chat/application/service/session_service.go:276-316 | a failed write changes nothing; success stores the missing direction(s) and ends with both directions present |
| SessionService.OpenGroupEffect | internal/modules/chat/application/service/session_service.go:176-222 | a failed group open changes nothing; success adds only the sender's row if missing and never the group's reverse row |
| SessionService.OpenFriendEffect | internal/modules/chat/application/service/session_service.go:224-316 | a failed user open changes nothing; success adds only the missing directions and ends with both |
| SessionService.OpenRefusedUnchanged | internal/modules/chat/application/service/session_service.go:140-317 | a refused or failed open leaves the store unchanged; a successful one was allowed |
| SessionService.OpenCreatesOnlyMissing | internal/modules/chat/application/service/session_service.go:278-314 | a successful open keeps every existing row, adds only the missing direction(s) and returns the sender's row |
| SessionService.OpenTwice | internal/modules/chat/application/service/session_service.go:190-197 | opening an open session again changes nothing and returns the same item |
| SessionService.FindBriefs | internal/modules/chat/application/service/session_service.go:238-260 | the briefs loop keeps the last brief seen for the sender and for the peer |
| SessionService.SessionServiceImpl.OpenSession | internal/modules/chat/application/service/session_service.go:140-317 | the new store and result are OpenSpec of the old store |
| SessionService.SessionServiceImpl.OpenGroupSession | internal/modules/chat/application/service/session_service.go:176-222 | the new store and result are OpenGroup of the old store |
| SessionService.SessionServiceImpl.OpenFriendSession | internal/modules/chat/application/service/session_service.go:224-316 | the new store and result are OpenFriend of the old store |
| Hub.Client.constructor | pkg/ws/hub.go:98-104 | a new client belongs to its user, has an empty send buffer and is open |
| Hub.Client.Close | pkg/ws/hub.go:106-113 | closing marks the client closed and keeps its queue; a second close changes nothing |
| Hub.AddRemoveKeepShape | pkg/ws/hub.go:24-52 | registering and unregistering keep the table free of empty sets and file each client under its own user |
| Hub.RemoveForgets | pkg/ws/hub.go:24-52 | after unregistering, the client is filed under no user; after registering, it is filed under its user |
| Hub.AddThenRemove | pkg/ws/hub.go:24-52 | registering a new client and then unregistering it gives back the original table |
| Hub.DroppedStep | pkg/ws/hub.go:67-77 | unregistering one more full client during Send extends the set of clients dropped |
| Hub.DroppedKeepsShape | pkg/ws/hub.go:67-77 | dropping clients keeps the table's shape and only shrinks sets |
| Hub.DroppedNone | pkg/ws/hub.go:62-77 | when no client is dropped, the table is unchanged |
| Hub.Enumerate | pkg/ws/hub.go:67 | ranging over a client set visits each member exactly once, in some order |
| Hub.Hub.constructor | pkg/ws/hub.go:18-22 | a new hub has no clients |
| Hub.Hub.Register | pkg/ws/hub.go:24-36 | a nil client or one with no user is ignored; otherwise it joins its user's set |
| Hub.Hub.Unregister | pkg/ws/hub.go:38-52 | the client leaves its user's set, an emptied set is removed, and the client is closed |
| Hub.Hub.Send | pkg/ws/hub.go:54-79 | an empty user, an empty payload or a user with no clients gets false and nothing changes; otherwise each client either queues the payload or, when its buffer is full, is unregistered and closed; the answer is true iff some client had room |
| Hub.Deliver | pkg/ws/hub.go:66-78 | the loop over the clients: each client ends up handled, exactly the full ones are dropped from the table, and ok says whether one took the payload |
| MessageService.Paging | internal/modules/chat/application/service/message_service.go:41-51 | the page is at least 1 and the page size is between 1 and 200: a non-positive size becomes 20 and one over 200 becomes 200 |
| MessageService.PagingIdempotent | internal/modules/chat/application/service/message_service.go:41-51 | clamping an already clamped page leaves it unchanged |
| MessageService.ClampPaging | internal/modules/chat/application/service/message_service.go:41-51 | the reassignments compute Paging |
| MessageService.RevItems | internal/modules/chat/application/service/message_service.go:77-95 | one item per message, in reverse order |
| MessageService.OldestFirst | internal/modules/chat/application/service/message_service.go:77-95 | a page the repository lists newest first comes out oldest first |
| MessageService.ReverseItems | internal/modules/chat/application/service/message_service.go:77-95 | the reverse index loop computes RevItems |
| MessageService.MessageListServedIff | internal/modules/chat/application/service/message_service.go:33-98 | the private history is served iff both ids are present and distinct, the friend row exists with status 0 and the repository answers; it is then the repository's page, oldest first |
| MessageService.MessageListRefusals | internal/modules/chat/application/service/message_service.go:34-69 | bad ids are BadRequest and are checked first; status 2 and status 1 each get their own Forbidden message |
| MessageService.GetMessageList | internal/modules/chat/application/service/message_service.go:33-98 | the method's result is MessageListSpec |
| MessageService.GroupMessageListServedIff | internal/modules/chat/application/service/message_service.go:100-156 | the group history is served iff a group id is given, the caller's member row has status 0 and the repository answers; it is then the repository's page, oldest first |
| MessageService.GetGroupMessageList | internal/modules/chat/application/service/message_service.go:100-156 | the method's result is GroupMessageListSpec |
| MilvusEino.MetaString | internal/modules/ai/infrastructure/vectordb/milvus_eino.go:133-146 | nothing (an empty string and false) exactly for a missing or nil value; a string as it is; any other value in its %v form |
| MilvusEino.TruncateReal | internal/modules/ai/infrastructure/vectordb/milvus_eino.go:163-166 | a float becomes an integer by dropping the fraction, towards zero |
| MilvusEino.MetaInt64Err | internal/modules/ai/infrastructure/vectordb/milvus_eino.go:148-177 | a missing value is the "missing meta" error, an empty string the "empty" error, and a float is truncated towards zero (the remaining cases are MetaInt64Cases) |
| MilvusEino.MetaInt64 | internal/modules/ai/infrastructure/vectordb/milvus_eino.go:148-177 | a missing value, an empty string or a value of another type gives nothing; a 64-bit, plain or 32-bit integer gives itself |
| MilvusEino.MetaInt64Cases | internal/modules/ai/infrastructure/vectordb/milvus_eino.go:148-177 | a missing value, an empty string, an unparsable string or json.Number and a value of any other type are errors; integers pass through, floats are truncated, decimal strings give the value they spell |
| MilvusEino.MetaInt64ReadsFormatted | internal/modules/ai/infrastructure/vectordb/milvus_eino.go:168-174 | a 64-bit value written in decimal, as a string or as a json.Number, reads back as itself |
| MilvusEino.MetaJson | internal/modules/ai/infrastructure/vectordb/milvus_eino.go:179-201 | "{}" for a missing value or an empty string, a non-empty string as it is, and never an empty text on success |
| MilvusEino.DocToItem | internal/modules/ai/infrastructure/vectordb/milvus_eino.go:70-131 | a document without an id or without a vector does not convert; a converted item keeps the document's id, vector and content, and has a non-empty tenant, source type and source key, non-zero kb and chunk ids and non-empty metadata text |
| MilvusEino.DocToItemIff | internal/modules/ai/infrastructure/vectordb/milvus_eino.go:70-131 | a document converts iff it has an id and a vector, a non-empty tenant, source type and source key, non-zero kb and chunk ids and marshalable metadata; the item then carries exactly those values and the document's id, vector and content |
| MilvusEino.NonNil | internal/modules/ai/infrastructure/vectordb/milvus_eino.go:52-56 | the nil documents are dropped, so the result is no longer than the input |
| MilvusEino.ItemsSkipNil | internal/modules/ai/infrastructure/vectordb/milvus_eino.go:52-61 | converting while skipping nil documents is converting the non-nil ones |
| MilvusEino.ConvertAllOkIff | internal/modules/ai/infrastructure/vectordb/milvus_eino.go:52-61 | a batch converts iff every document in it converts |
| MilvusEino.ConvertAllItems | internal/modules/ai/infrastructure/vectordb/milvus_eino.go:52-61 | a converted batch has one item per document, that document's item, in order |
| MilvusEino.ItemsCount | internal/modules/ai/infrastructure/vectordb/milvus_eino.go:52-61 | the items Store collects (Items) for a batch that converts are exactly one per non-nil document |
| MilvusEino.StoreSpec | internal/modules/ai/infrastructure/vectordb/milvus_eino.go:47-64 | no documents is an empty answer; a batch whose conversion fails returns that error (and never reaches the upsert) |
| MilvusEino.StoreSkipsNil | internal/modules/ai/infrastructure/vectordb/milvus_eino.go:47-64 | no documents give an empty answer with no upsert; one document that does not convert fails the batch before any upsert; otherwise the items of the non-nil documents are upserted together, one per document, in order |
| MilvusEino.ItemsStep | internal/modules/ai/infrastructure/vectordb/milvus_eino.go:52-61 | one step of the loop: a nil document is skipped, a failed one ends the batch, and a converted one is appended |
| MilvusEino.Store | internal/modules/ai/infrastructure/vectordb/milvus_eino.go:47-64 | the loop computes StoreSpec |
| McpDispatcher.NewDispatcher | internal/modules/ai/application/service/mcp_dispatcher.go:48-58 | the default timeout is the configured one when positive, else 30 seconds, so it is always positive |
| McpDispatcher.CallTimeoutPositive | internal/modules/ai/application/service/mcp_dispatcher.go:48-58 | a call's timeout is positive: the request's when it gives one, else the configured default, else 30 seconds (also mcp_dispatcher.go:94-98) |
| McpDispatcher.InjectTenant | internal/modules/ai/application/service/mcp_dispatcher.go:103-109 | a nil argument map becomes empty, tenant_user_id is added only when absent, and every other argument is kept as it was |
| McpDispatcher.InjectTenantIdempotent | internal/modules/ai/application/service/mcp_dispatcher.go:107-109 | a tenant_user_id already present is never overwritten, so injecting twice is injecting once |
| McpDispatcher.RouteSkips | internal/modules/ai/application/service/mcp_dispatcher.go:154-167 | routing goes past every server that is not running or does not know the tool |
| McpDispatcher.RouteStopsAt | internal/modules/ai/application/service/mcp_dispatcher.go:160-172 | the first server that is running and does not answer ToolNotFound decides the outcome, its result or its error |
| McpDispatcher.RouteNotFound | internal/modules/ai/application/service/mcp_dispatcher.go:174-175 | when every server is passed over, the error is ToolNotFound naming the tool |
| McpDispatcher.RunningOnly | internal/modules/ai/application/service/mcp_dispatcher.go:155-157 | the running servers of the list, in order |
| McpDispatcher.RouteIgnoresStopped | internal/modules/ai/application/service/mcp_dispatcher.go:155-157 | a server that is not running is never called: routing over the running ones alone gives the same answer |
| McpDispatcher.RouteAndCallTool | internal/modules/ai/application/service/mcp_dispatcher.go:150-176 | the routing loop computes Route |
| McpDispatcher.TextOfAppend | internal/modules/ai/application/service/mcp_dispatcher.go:198-212 | the text of two runs of entries is the first's text followed by the second's |
| McpDispatcher.TextOfSkipsOthers | internal/modules/ai/application/service/mcp_dispatcher.go:202-206 | entries whose type is not "text" contribute nothing |
| McpDispatcher.TextOfBounded | internal/modules/ai/application/service/mcp_dispatcher.go:198-212 | the text is no longer than the texts of all entries together |
| McpDispatcher.ExtractTextContent | internal/modules/ai/application/service/mcp_dispatcher.go:198-212 | the loop computes TextOf, the in-order concatenation of the "text" entries |
| McpDispatcher.ConvertToResponse | internal/modules/ai/application/service/mcp_dispatcher.go:179-195 | success iff the result is not an error; an error result has empty content and its text as error, any other has its text as content and no error; metadata is passed on |
| McpDispatcher.CallToolAnswers | internal/modules/ai/application/service/mcp_dispatcher.go:88-123 | rejected iff the tool name is empty; otherwise the response fails iff routing errs or the server reports an error, a failed response has no content and a successful one no error |
| McpDispatcher.CallToolNotFound | internal/modules/ai/application/service/mcp_dispatcher.go:112-119 | a tool no running server knows gives a failed response carrying the not-found error, not a Go error (also mcp_dispatcher.go:174-175) |
| McpDispatcher.ToolCallRequest.constructor | internal/modules/ai/application/service/mcp_dispatcher.go:88 | the request holds the given tenant, tool, arguments and timeout |
| McpDispatcher.CallTool | internal/modules/ai/application/service/mcp_dispatcher.go:88-123 | an empty tool name is refused and leaves the request alone; otherwise the request's arguments become the injected ones and the answer is CallToolSpec's |
| SmartCommand.ExtractJSONObject | internal/modules/ai/infrastructure/pipeline/smart_command_pipeline.go:247-254 | a non-empty span starts with '{' and ends with '}' |
| SmartCommand.ExtractEmptyIff | internal/modules/ai/infrastructure/pipeline/smart_command_pipeline.go:247-254 | the span is empty exactly when no '{' has a '}' after it |
| SmartCommand.ExtractFindsBody | internal/modules/ai/infrastructure/pipeline/smart_command_pipeline.go:247-254 | text with no '{' before a braced body and no '}' after it yields exactly that body |
| SmartCommand.ExtractIsOutermost | internal/modules/ai/infrastructure/pipeline/smart_command_pipeline.go:247-254 | a non-empty span runs from the first '{' to the last '}' of the text |
| SmartCommand.ParseJSONFromContent | internal/modules/ai/infrastructure/pipeline/smart_command_pipeline.go:239-245 | text without a braced span fails with "json not found" |
| SmartCommand.RecognizeIntent | internal/modules/ai/infrastructure/pipeline/smart_command_pipeline.go:113-134 | a recognised intent is non-empty and trimmed, and so is its trigger type |
| SmartCommand.ExtractParams | internal/modules/ai/infrastructure/pipeline/smart_command_pipeline.go:136-158 | every extracted field is trimmed |
| SmartCommand.WithDefaults | internal/modules/ai/infrastructure/pipeline/smart_command_pipeline.go:84-89 | a blank action becomes "create" and a blank agent id the request's trimmed one; set fields and the trigger and prompt are kept |
| SmartCommand.NamedKeepsExactly | internal/modules/ai/infrastructure/pipeline/smart_command_pipeline.go:209-224 | filterTools keeps exactly the tools whose info names the tool |
| SmartCommand.FilterTools | internal/modules/ai/infrastructure/pipeline/smart_command_pipeline.go:209-224 | the loop computes Named, with the reported info beside each tool |
| SmartCommand.FirstNamed | internal/modules/ai/infrastructure/pipeline/smart_command_pipeline.go:226-237 | the index of the first tool reporting the name, and none exactly when no tool reports it |
| SmartCommand.InvokeTool | internal/modules/ai/infrastructure/pipeline/smart_command_pipeline.go:226-237 | the first tool with the name decides the answer; later ones are never tried |
| SmartCommand.ArgsOf | internal/modules/ai/infrastructure/pipeline/smart_command_pipeline.go:171-179 | the arguments are exactly action, trigger_type, trigger_value and prompt, plus agent_id only when set, each with the parameter's value |
| SmartCommand.CallNameFallback | internal/modules/ai/infrastructure/pipeline/smart_command_pipeline.go:195-198 | a blank tool name in the model's call means manage_ai_job, any other is trimmed |
| SmartCommand.CallArgsFallback | internal/modules/ai/infrastructure/pipeline/smart_command_pipeline.go:199-202 | blank call arguments mean the pipeline's own JSON, any other are trimmed |
| SmartCommand.OnlyManageJobRuns | internal/modules/ai/infrastructure/pipeline/smart_command_pipeline.go:160-207 | a call that succeeds used the name manage_ai_job and ran a listed tool reporting that name |
| SmartCommand.OtherToolNotFound | internal/modules/ai/infrastructure/pipeline/smart_command_pipeline.go:203-206 | a tool call naming another tool fails with "tool not found" (also smart_command_pipeline.go:226-237) |
| SmartCommand.ExecuteRejectsIff | internal/modules/ai/infrastructure/pipeline/smart_command_pipeline.go:58-68 | Execute fails outright exactly for a nil request, a blank command or a blank tenant |
| SmartCommand.OtherIntentStops | internal/modules/ai/infrastructure/pipeline/smart_command_pipeline.go:75-77 | any intent other than create_job stops with "not a scheduling command" |
| SmartCommand.IncompleteParamsRefused | internal/modules/ai/infrastructure/pipeline/smart_command_pipeline.go:90-92 | a blank trigger type, trigger value or prompt is refused before any tool is looked at |
| SmartCommand.DispatchSucceeded | internal/modules/ai/infrastructure/pipeline/smart_command_pipeline.go:90-105 | a dispatch without error had complete parameters and ran manage_ai_job |
| SmartCommand.SuccessfulRun | internal/modules/ai/infrastructure/pipeline/smart_command_pipeline.go:58-106 | a result without error comes from a create_job intent, has complete parameters with the defaults applied, and names manage_ai_job |
| SmartCommand.SmartCommandPipeline.constructor | internal/modules/ai/infrastructure/pipeline/smart_command_pipeline.go:44-52 | the pipeline holds the given tools |
| SmartCommand.SmartCommandPipeline.SetTools | internal/modules/ai/infrastructure/pipeline/smart_command_pipeline.go:54-56 | the tools are replaced |
| SmartCommand.SmartCommandPipeline.CallManageJob | internal/modules/ai/infrastructure/pipeline/smart_command_pipeline.go:160-207 | the method's outcome is CallManageJobSpec |
| SmartCommand.SmartCommandPipeline.Execute | internal/modules/ai/infrastructure/pipeline/smart_command_pipeline.go:58-106 | the method's result is ExecuteSpec |
| SmartCommand.SmartCommandPipeline.Run | internal/modules/ai/infrastructure/pipeline/smart_command_pipeline.go:70-77 | the method's result is RunSpec |
| SmartCommand.SmartCommandPipeline.ParamsStep | internal/modules/ai/infrastructure/pipeline/smart_command_pipeline.go:79-89 | the method's result is ParamsStepSpec |
| SmartCommand.SmartCommandPipeline.Dispatch | internal/modules/ai/infrastructure/pipeline/smart_command_pipeline.go:90-105 | the method's result is DispatchSpec |
| IngestWorker.ScrubErrMsg | internal/modules/ai/infrastructure/queue/ingest_consumer_worker.go:382-395 | "" for a blank message, "redacted" for one naming api_key, apikey, secret or sk-, else the trimmed message, kept whole when it fits in 255 bytes and otherwise cut to at most 255 bytes |
| IngestWorker.PrefixNotSensitive | internal/modules/ai/infrastructure/queue/ingest_consumer_worker.go:391-393 | cutting a message that names no secret leaves one that names none |
| IngestWorker.RedactedNotSensitive | internal/modules/ai/infrastructure/queue/ingest_consumer_worker.go:388-390 | the replacement text "redacted" names no secret |
| IngestWorker.ScrubbedNeverSensitive | internal/modules/ai/infrastructure/queue/ingest_consumer_worker.go:382-395 | what scrubErrMsg returns never names api_key, apikey, secret or sk- |
| IngestWorker.StoredError | internal/modules/ai/infrastructure/persistence/ingest_event_repository_impl.go:51-55 | the stored error is the trimmed message, kept whole when it fits in 255 bytes and otherwise cut to at most 255 bytes |
| IngestWorker.StoredErrorNeverSensitive | internal/modules/ai/infrastructure/queue/ingest_consumer_worker.go:94 | what MarkFailed stores for a scrubbed message never names a key or a secret (also ingest_event_repository_impl.go:51-55) |
| IngestWorker.StoredScrubNotSensitive | internal/modules/ai/infrastructure/persistence/ingest_event_repository_impl.go:51-55 | trimming and cutting a message that names no secret cannot make it name one |
| IngestWorker.CutNotSensitive | internal/modules/ai/infrastructure/persistence/ingest_event_repository_impl.go:53-55 | the 255-byte cut of a message that names no secret names none |
| IngestWorker.EventId | internal/modules/ai/infrastructure/queue/ingest_consumer_worker.go:63-68 | an accepted id is positive and is the trimmed message value parsed as an int64 |
| IngestWorker.InvalidIdSkipped | internal/modules/ai/infrastructure/queue/ingest_consumer_worker.go:63-68 | a message whose value is not a positive int64 is acknowledged without touching anything |
| IngestWorker.ErrorsComeFromRepositories | internal/modules/ai/infrastructure/queue/ingest_consumer_worker.go:62-120 | an error is returned only when reading, claiming or marking succeeded failed; with no repository fault the answer is nil |
| IngestWorker.SettledOrClaimedSkipped | internal/modules/ai/infrastructure/queue/ingest_consumer_worker.go:75-90 | an event that already succeeded, or that another worker holds, is skipped with nil and left as it is |
| IngestWorker.FailedRunSettles | internal/modules/ai/infrastructure/queue/ingest_consumer_worker.go:92-108 | a failed run marks the event failed with the scrubbed message, adds one retry and exactly one failure to its job, and is acknowledged with nil |
| IngestWorker.FailCountsJob | internal/modules/ai/infrastructure/queue/ingest_consumer_worker.go:94-97 | a failed event keeps its place, counts one more retry, and its job counts exactly one more failure (also ingest_event_repository_impl.go:51-62) |
| IngestWorker.SucceededRunSettles | internal/modules/ai/infrastructure/queue/ingest_consumer_worker.go:110-119 | a successful run marks the event succeeded with no error and adds exactly one success to its job |
| IngestWorker.SucceedCountsJob | internal/modules/ai/infrastructure/queue/ingest_consumer_worker.go:110-117 | a succeeded event has no error and its job counts exactly one more success (also ingest_event_repository_impl.go:46-49) |
| IngestWorker.HandleIsLocal | internal/modules/ai/infrastructure/queue/ingest_consumer_worker.go:62-120 | handling one message changes at most its own event and that event's job; no record appears or vanishes |
| IngestWorker.HandleIdIsLocal | internal/modules/ai/infrastructure/queue/ingest_consumer_worker.go:70-120 | once the id is known, only that event and its job can change |
| IngestWorker.RunIsLocal | internal/modules/ai/infrastructure/queue/ingest_consumer_worker.go:92-119 | running a claimed event changes only that event and its job |
| IngestWorker.SettleAfterMarkIsLocal | internal/modules/ai/infrastructure/queue/ingest_consumer_worker.go:94-97 | marking an event and then settling its job changes only that event and that job (also ingest_consumer_worker.go:110-117) |
| IngestWorker.SettleIsLocal | internal/modules/ai/infrastructure/queue/ingest_consumer_worker.go:95-97 | the job bookkeeping changes no event and at most the job it names (also ingest_consumer_worker.go:114-117) |
| IngestWorker.FinalizeOnlyWhenDone | internal/modules/ai/infrastructure/queue/ingest_consumer_worker.go:360-380 | tryFinalizeJob changes a job only when every event is settled, and then marks it failed exactly when some event failed |
| IngestWorker.IngestConsumerWorker.constructor | internal/modules/ai/infrastructure/queue/ingest_consumer_worker.go:36-47 | the worker starts over the given events and jobs |
| IngestWorker.IngestConsumerWorker.TryFinalizeJob | internal/modules/ai/infrastructure/queue/ingest_consumer_worker.go:360-380 | the new state is FinalizeSpec of the old one |
| IngestWorker.IngestConsumerWorker.SettleJob | internal/modules/ai/infrastructure/queue/ingest_consumer_worker.go:95-97 | the new state is SettleJobSpec of the old one (also ingest_consumer_worker.go:114-117) |
| IngestWorker.IngestConsumerWorker.Handle | internal/modules/ai/infrastructure/queue/ingest_consumer_worker.go:62-120 | the new state and the answer are HandleSpec of the old state |
| IngestWorker.IngestConsumerWorker.HandleId | internal/modules/ai/infrastructure/queue/ingest_consumer_worker.go:70-120 | the new state and the answer are HandleIdSpec of the old state |
| IngestWorker.IngestConsumerWorker.Run | internal/modules/ai/infrastructure/queue/ingest_consumer_worker.go:92-119 | the new state and the answer are RunSpec of the old state |
| IngestWorker.IngestConsumerWorker.MarkFailed | internal/modules/ai/infrastructure/persistence/ingest_event_repository_impl.go:51-62 | the event is failed with the stored error and one more retry |
| IngestWorker.ClampChatPage | internal/modules/ai/infrastructure/queue/ingest_consumer_worker.go:254-264 | the page is at least 1 and the page size is between 1 and 200; a missing or oversized page size becomes 200 |
| IngestWorker.PlanEvent | internal/modules/ai/infrastructure/queue/ingest_consumer_worker.go:122-358 | only the four known event types plan a read; contact, group and chat plans carry non-empty ids and a clamped page |
| IngestWorker.IdFallback | internal/modules/ai/infrastructure/queue/ingest_consumer_worker.go:158-164 | a non-blank payload id wins, a blank one falls back to the trimmed source key, and the id is empty only when both are blank (also ingest_consumer_worker.go:191-197, ingest_consumer_worker.go:246-252) |
| IngestPipeline.Truncate4096 | internal/modules/ai/infrastructure/pipeline/ingest_pipeline.go:356-362 | a prefix of the text of at most 4096 runes, the whole text when it fits, and exactly 4096 runes otherwise |
| IngestPipeline.Truncate4096Idempotent | internal/modules/ai/infrastructure/pipeline/ingest_pipeline.go:356-362 | truncating twice is truncating once |
| IngestPipeline.PurgeSource | internal/modules/ai/infrastructure/pipeline/ingest_pipeline.go:88-132 | any write it issues comes after ensuring the trimmed tenant's knowledge base |
| IngestPipeline.PurgeGuards | internal/modules/ai/infrastructure/pipeline/ingest_pipeline.go:92-112 | a blank tenant, source type or source key is refused before any write; a source that does not exist, or has no positive id, is a no-op without error |
| IngestPipeline.PurgeOrder | internal/modules/ai/infrastructure/pipeline/ingest_pipeline.go:114-131 | when every call succeeds, the store's vectors are deleted first (only when there are some), then the chunks and vector records, then the source is disabled when asked |
| IngestPipeline.PurgeStopsAtFailure | internal/modules/ai/infrastructure/pipeline/ingest_pipeline.go:114-131 | a failed step ends the purge with its error and nothing after it is issued |
| IngestPipeline.ChatKept | internal/modules/ai/infrastructure/pipeline/ingest_pipeline.go:184-194 | the chat filter keeps at most as many messages as it is given |
| IngestPipeline.ChatKeptIff | internal/modules/ai/infrastructure/pipeline/ingest_pipeline.go:184-194 | a message comes out of the filter iff it is a text message of the input with non-blank content, trimmed |
| IngestPipeline.ChatKeptShape | internal/modules/ai/infrastructure/pipeline/ingest_pipeline.go:184-194 | every kept message is of type 0 with trimmed, non-empty content |
| IngestPipeline.FilterChat | internal/modules/ai/infrastructure/pipeline/ingest_pipeline.go:184-194 | the loop computes ChatKept |
| IngestPipeline.BeforeAsymmetric | internal/modules/ai/infrastructure/pipeline/ingest_pipeline.go:195-200 | the sort's less-than never holds both ways |
| IngestPipeline.NotBeforeTransitive | internal/modules/ai/infrastructure/pipeline/ingest_pipeline.go:195-200 | "not before" is transitive, so the order on (time, uuid) is total |
| IngestPipeline.InsertChat | internal/modules/ai/infrastructure/pipeline/ingest_pipeline.go:195-200 | inserting adds exactly the one message |
| IngestPipeline.InsertChatSorted | internal/modules/ai/infrastructure/pipeline/ingest_pipeline.go:195-200 | inserting into a sorted list keeps it sorted |
| IngestPipeline.SortChat | internal/modules/ai/infrastructure/pipeline/ingest_pipeline.go:195-200 | the messages come out sorted by time then uuid, and are a permutation of the input |
| IngestPipeline.NumberedUnits | internal/modules/ai/infrastructure/pipeline/ingest_pipeline.go:168-182 | documents and merged segments give at most one unit each (also ingest_pipeline.go:214-228) |
| IngestPipeline.NumberedUnitsFrom | internal/modules/ai/infrastructure/pipeline/ingest_pipeline.go:168-182 | each unit is a non-blank text, trimmed, keyed by the prefix and its own position among all the texts (also ingest_pipeline.go:214-228) |
| IngestPipeline.ChatText | internal/modules/ai/infrastructure/pipeline/ingest_pipeline.go:203 | a rendered chat message is never blank |
| IngestPipeline.ChatUnits | internal/modules/ai/infrastructure/pipeline/ingest_pipeline.go:201-211 | one unit per message, in order, keyed by its trimmed uuid, with its rendered text and the message |
| IngestPipeline.PartItemsShape | internal/modules/ai/infrastructure/pipeline/ingest_pipeline.go:175-181 | every chunk item has trimmed, non-empty content and carries its unit's key and message and a part index (also ingest_pipeline.go:205-211, ingest_pipeline.go:221-227) |
| IngestPipeline.ChunkItemsShape | internal/modules/ai/infrastructure/pipeline/ingest_pipeline.go:168-229 | every chunk collected has trimmed, non-empty content |
| IngestPipeline.CollectChunks | internal/modules/ai/infrastructure/pipeline/ingest_pipeline.go:168-229 | the loop over the units computes ChunkItems |
| IngestPipeline.UnitItems | internal/modules/ai/infrastructure/pipeline/ingest_pipeline.go:175-181 | the loop over one unit's parts computes PartItems |
| IngestPipeline.UnitKey | internal/modules/ai/infrastructure/pipeline/ingest_pipeline.go:249-252 | a blank unit key becomes idx_ followed by the chunk's position, any other is trimmed; the key is never blank |
| IngestPipeline.First48 | internal/modules/ai/infrastructure/pipeline/ingest_pipeline.go:254 | the first 48 characters of the digest, or all of it when shorter |
| IngestPipeline.JsonOr | internal/modules/ai/infrastructure/pipeline/ingest_pipeline.go:364-396 | the marshalled text when there is one, otherwise "{}"; never empty |
| IngestPipeline.PrepareChunk | internal/modules/ai/infrastructure/pipeline/ingest_pipeline.go:261-293 | skipped exactly when the chunk is known and its vector record says the embedding succeeded; a chunk to embed carries its vector id, its text, and its content cut to 4096 runes |
| IngestPipeline.TallyTotal | internal/modules/ai/infrastructure/pipeline/ingest_pipeline.go:246-294 | every chunk is counted once: to embed, failed or skipped |
| IngestPipeline.Verdicts | internal/modules/ai/infrastructure/pipeline/ingest_pipeline.go:246-294 | one verdict per chunk |
| IngestPipeline.CountVerdict | internal/modules/ai/infrastructure/pipeline/ingest_pipeline.go:262-293 | the loop body adds one to the failed or skipped count, or keeps the item to embed |
| IngestPipeline.PrepareAll | internal/modules/ai/infrastructure/pipeline/ingest_pipeline.go:246-294 | the loop computes the tally of the verdicts, and items plus failed plus skipped equal the chunks |
| IngestPipeline.CheckVectors | internal/modules/ai/infrastructure/pipeline/ingest_pipeline.go:315-328 | every item is either upserted, with a vector of the configured size, or written failed |
| IngestPipeline.ShortEmbeddingPanics | internal/modules/ai/infrastructure/pipeline/ingest_pipeline.go:316-317 | with one item and no vector the code as written indexes past the end, while the corrected check marks the item failed |
| IngestPipeline.CheckVectorsAgree | internal/modules/ai/infrastructure/pipeline/ingest_pipeline.go:315-328 | with a vector for every item the code as written and the corrected check agree |
| IngestPipeline.CheckAll | internal/modules/ai/infrastructure/pipeline/ingest_pipeline.go:315-328 | the loop computes CheckVectors |
| IngestPipeline.MarkAll | internal/modules/ai/infrastructure/pipeline/ingest_pipeline.go:307-309 | one status write per id, in order, with the given status and message (also ingest_pipeline.go:333-335, ingest_pipeline.go:340-343) |
| IngestPipeline.EmbedAndUpsert | internal/modules/ai/infrastructure/pipeline/ingest_pipeline.go:301-344 | every item is counted once, as upserted or failed; an embedder error fails every item; otherwise the right-sized vectors are upserted together, and the store's error fails them all while its success marks them all succeeded; nothing is counted upserted when an error is returned |
| IngestPipeline.BuildUnits | internal/modules/ai/infrastructure/pipeline/ingest_pipeline.go:168-229 | the units are Units of the request: documents, then chat messages, then merged segments |
| IngestPipeline.IngestNode | internal/modules/ai/infrastructure/pipeline/ingest_pipeline.go:134-349 | (ingestNode, not reached from Ingest) a blank tenant, source type or source key is refused with no writes; a result carries the trimmed tenant and the source, counts every chunk once as ok, skipped or failed, and counts none ok when an error is returned |
| IngestPipeline.EnsureSource | internal/modules/ai/infrastructure/pipeline/ingest_pipeline.go:139-157 | a blank tenant, then a blank source type or key, is refused; success carries the trimmed tenant |
| IngestPipeline.IngestChunks | internal/modules/ai/infrastructure/pipeline/ingest_pipeline.go:159-348 | the result carries the tenant, ids, source and counts; the chunks are counted once each as ok, skipped or failed, and none ok on an error |
| IngestGraph.MetaInt | internal/modules/ai/infrastructure/pipeline/ingest_graph.go:501-521 | a value that is not read gives 0 |
| IngestGraph.MetaIntAgainstMetaInt64 | internal/modules/ai/infrastructure/pipeline/ingest_graph.go:501-521 | a nil map, a missing key or nil value, and the int32, string and json.Number values read as (0, false); whatever metaInt reads, metaInt64 reads as the same number |
| IngestGraph.MetaIntReadsInt | internal/modules/ai/infrastructure/pipeline/ingest_graph.go:510-511 | an index stored as a Go int reads back as itself |
| IngestGraph.TrimRequest | internal/modules/ai/infrastructure/pipeline/ingest_graph.go:80-83 | the tenant, source type and source key are trimmed and the rest of the request is kept |
| IngestGraph.PrepareOutcome | internal/modules/ai/infrastructure/pipeline/ingest_graph.go:69-140 | a blank tenant, then a blank source type or key, is an error before any repository call; success carries the knowledge base and source ensured for the trimmed tenant and source |
| IngestGraph.NonBlankSegments | internal/modules/ai/infrastructure/pipeline/ingest_graph.go:158-162 | the trimmed non-blank segments, no more than were given |
| IngestGraph.NonBlankSegmentsTrimmed | internal/modules/ai/infrastructure/pipeline/ingest_graph.go:158-162 | every kept segment is trimmed and not empty |
| IngestGraph.NonBlankSegmentsAll | internal/modules/ai/infrastructure/pipeline/ingest_graph.go:158-162 | when no segment is blank every segment is kept, trimmed, in its place |
| IngestGraph.SegmentDocs | internal/modules/ai/infrastructure/pipeline/ingest_graph.go:156-176 | one document per kept segment |
| IngestGraph.SegmentIndexNumbered | internal/modules/ai/infrastructure/pipeline/ingest_graph.go:157-174 | segment_index runs 0 to n-1 over the documents, and each document carries its trimmed non-empty segment |
| IngestGraph.MergeSegments | internal/modules/ai/infrastructure/pipeline/ingest_graph.go:155-177 | the loop computes the documents of the non-blank segments |
| IngestGraph.MetadataJson | internal/modules/ai/infrastructure/pipeline/ingest_graph.go:483-499 | the chunk metadata text is never empty ("{}" when marshalling fails) |
| IngestGraph.KnownVectorId | internal/modules/ai/infrastructure/pipeline/ingest_graph.go:244-247 | a known chunk keeps its record's trimmed vector id unless that is blank, and otherwise gets the default id |
| IngestGraph.RecordChunk | internal/modules/ai/infrastructure/pipeline/ingest_graph.go:227-325 | recording a non-blank chunk never drops it |
| IngestGraph.VectorIdNotBlank | internal/modules/ai/infrastructure/pipeline/ingest_graph.go:224 | a default vector id is never blank |
| IngestGraph.RecordChunkCases | internal/modules/ai/infrastructure/pipeline/ingest_graph.go:227-325 | skipped exactly when the chunk is known and its vector record says the embedding succeeded; a chunk passed on is keyed by its non-blank vector id and its content is cut to 4096 runes |
| IngestGraph.StepOfCases | internal/modules/ai/infrastructure/pipeline/ingest_graph.go:209-325 | chunkNode drops exactly the nil and blank documents and records the others by their trimmed content |
| IngestGraph.CountOf | internal/modules/ai/infrastructure/pipeline/ingest_graph.go:209-326 | a count of steps is no more than the steps |
| IngestGraph.RunCounts | internal/modules/ai/infrastructure/pipeline/ingest_graph.go:209-326 | every counted chunk is skipped, passed on, or the one whose failure stopped the loop |
| IngestGraph.RunIds | internal/modules/ai/infrastructure/pipeline/ingest_graph.go:279-280 | each document passed on is keyed by its attempted vector id, and no such id is blank (also ingest_graph.go:324-325) |
| IngestGraph.RunHalts | internal/modules/ai/infrastructure/pipeline/ingest_graph.go:209-330 | the loop ends with an error exactly when a step failed, and otherwise counts every chunk not dropped and skips every chunk already embedded |
| IngestGraph.RunAfterError | internal/modules/ai/infrastructure/pipeline/ingest_graph.go:228-231 | once a step has failed, the remaining chunks change nothing (also ingest_graph.go:307-310) |
| IngestGraph.Steps | internal/modules/ai/infrastructure/pipeline/ingest_graph.go:209 | one verdict per chunker document |
| IngestGraph.StepsWellFormed | internal/modules/ai/infrastructure/pipeline/ingest_graph.go:209-326 | every verdict chunkNode gives is well formed |
| IngestGraph.AdvanceRun | internal/modules/ai/infrastructure/pipeline/ingest_graph.go:217-325 | the loop body computes Advance |
| IngestGraph.RunChunks | internal/modules/ai/infrastructure/pipeline/ingest_graph.go:209-330 | the loop computes RunSteps of the verdicts |
| IngestGraph.EmbedDocsErrors | internal/modules/ai/infrastructure/pipeline/ingest_graph.go:357-372 | every document without a vector of the right size has its id among the errors, and no other id is added |
| IngestGraph.EmbedDocsSized | internal/modules/ai/infrastructure/pipeline/ingest_graph.go:357-372 | every document kept has a vector of the right size, and no more documents come out than went in |
| IngestGraph.EmbedDocsAllFit | internal/modules/ai/infrastructure/pipeline/ingest_graph.go:357-372 | with a right-sized vector for every document, all are kept with their vectors and no error is added |
| IngestGraph.EmbedLoop | internal/modules/ai/infrastructure/pipeline/ingest_graph.go:357-373 | the loop computes EmbedDocs |
| IngestGraph.Texts | internal/modules/ai/infrastructure/pipeline/ingest_graph.go:344-349 | the texts sent to the embedder are the documents' contents, in order |
| IngestGraph.NonEmptyIds | internal/modules/ai/infrastructure/pipeline/ingest_graph.go:388-393 | the non-empty ids, no more than the documents |
| IngestGraph.CollectIds | internal/modules/ai/infrastructure/pipeline/ingest_graph.go:388-394 | the loop computes NonEmptyIds |
| IngestGraph.NonEmptyIdsAll | internal/modules/ai/infrastructure/pipeline/ingest_graph.go:388-393 | when every id is non-empty, the ids are all of them, in order |
| IngestGraph.AsBatch | internal/modules/ai/infrastructure/pipeline/ingest_graph.go:396 | the batch given to the indexer has one non-nil entry per document |
| IngestGraph.ContentsOf | internal/modules/ai/infrastructure/pipeline/ingest_graph.go:344-349 | one content per document |
| IngestGraph.AttemptedIdsIff | internal/modules/ai/infrastructure/pipeline/ingest_graph.go:436-447 | an id is among the attempted ones exactly when some attempted id is non-blank and trims to it |
| IngestGraph.NonBlankCount | internal/modules/ai/infrastructure/pipeline/ingest_graph.go:449-456 | the number of non-blank ids is at most the number of ids |
| IngestGraph.MarkErrors | internal/modules/ai/infrastructure/pipeline/ingest_graph.go:424-432 | in any map order, each non-blank id of the embedding errors is marked failed with its own message, exactly once |
| IngestGraph.MarkAttempted | internal/modules/ai/infrastructure/pipeline/ingest_graph.go:434-447 | each attempted id, trimmed, that is non-blank and not yet failed is marked failed with the run's error, exactly once |
| IngestGraph.SucceedWrite | internal/modules/ai/infrastructure/pipeline/ingest_graph.go:449-455 | the write marks the trimmed id succeeded |
| IngestGraph.MarkUpserted | internal/modules/ai/infrastructure/pipeline/ingest_graph.go:449-456 | every non-blank upserted id is marked succeeded, and the count is their number |
| IngestGraph.DistinctAppend | internal/modules/ai/infrastructure/pipeline/ingest_graph.go:424-447 | the writes of the two loops, over disjoint ids, have no repeated id together |
| IngestGraph.ErrorIdsBound | internal/modules/ai/infrastructure/pipeline/ingest_graph.go:424-432 | the failed ids taken from the embedding errors are no more than the documents |
| IngestGraph.FailedThenSucceeded | internal/modules/ai/infrastructure/pipeline/ingest_graph.go:424-457 | the failed writes come first, without repeats, then the succeeded ones |
| IngestGraph.AllFailed | internal/modules/ai/infrastructure/pipeline/ingest_graph.go:424-447 | on a failed run every write is a failure, without repeats |
| IngestGraph.IngestState.Prepare | internal/modules/ai/infrastructure/pipeline/ingest_graph.go:69-140 | prepareNode: the request is trimmed in place; a refused or failed request sets the state's error, otherwise the knowledge base and source ids are set; everything else starts empty |
| IngestGraph.IngestState.MergeTurns | internal/modules/ai/infrastructure/pipeline/ingest_graph.go:142-179 | mergeTurnsNode: after an error nothing changes; otherwise the documents are those of the non-blank segments, numbered, and the segment count is their number |
| IngestGraph.IngestState.Chunk | internal/modules/ai/infrastructure/pipeline/ingest_graph.go:181-331 | chunkNode: after an error or with no documents nothing changes; a chunker error is the state's error; otherwise the counts grow by the run's, and the documents and attempted ids are replaced only when no repository call failed |
| IngestGraph.IngestState.Embed | internal/modules/ai/infrastructure/pipeline/ingest_graph.go:333-375 | embedNode: after an error or with no documents nothing changes; an embedder error is the state's error; otherwise the documents are the right-sized ones and the errors record the others |
| IngestGraph.IngestState.Upsert | internal/modules/ai/infrastructure/pipeline/ingest_graph.go:377-403 | upsertNode: after an error or with no documents nothing changes; otherwise the non-empty ids are the attempted upserts, and the store's answer is the upserted ids or the state's error |
| IngestGraph.IngestState.StatusUpdate | internal/modules/ai/infrastructure/pipeline/ingest_graph.go:405-474 | statusUpdateNode: the result copies the state; the failed count is the distinct non-blank error ids plus, on a failed run, the attempted ids; the ok count is the non-blank upserted ids on success and 0 on failure; failed writes come first |
| IngestGraph.Ingest | internal/modules/ai/infrastructure/pipeline/ingest_pipeline.go:84-86 | the graph run: the result carries the trimmed tenant and source; a request refused by prepareNode ends with its error, zero counts and no writes; a failed run reports nothing ok; a successful one never reports more failed and skipped vectors than chunks; one status write per failed or ok vector, failures first (also ingest_graph.go:39-67) |
| JobService.Placeholder | internal/modules/ai/application/service/job_service.go:57 | a key's placeholder is the key wrapped in double braces |
| JobService.FillPrompt | internal/modules/ai/application/service/job_service.go:55-58 | the loop over the variables, in the map's order, computes Fill |
| JobService.Subst | internal/modules/ai/application/service/job_service.go:57 | substituting a key replaces exactly that key's slots by its value |
| JobService.ReplaceSkipsUnmatched | internal/modules/ai/application/service/job_service.go:57 | ReplaceAll copies a prefix in which the pattern cannot start |
| JobService.ReplaceSkipsOtherSlot | internal/modules/ai/application/service/job_service.go:57 | one key's placeholder is never matched by another key's |
| JobService.RenderReplace | internal/modules/ai/application/service/job_service.go:57 | replacing a key's placeholder in a rendered template renders the template with that key substituted |
| JobService.ExpandSubst | internal/modules/ai/application/service/job_service.go:55-58 | substituting one more variable extends the set of keys expanded |
| JobService.ExpandNone | internal/modules/ai/application/service/job_service.go:55-58 | expanding no keys is rendering the template as it is |
| JobService.FillRendersExpansion | internal/modules/ai/application/service/job_service.go:55-58 | filling a rendered template with the listed variables expands exactly those keys |
| JobService.PromptTemplating | internal/modules/ai/application/service/job_service.go:55-58 | with well-formed keys and values free of braces, the final prompt replaces every placeholder of a known variable by its value and leaves the others, whatever order the map is ranged in |
| JobService.ValidateSessionIff | internal/modules/ai/application/service/job_service.go:178-202 | a session passes iff the trimmed ids are present, a session repository exists, and the session found for the user has the agent and is system_global; missing ids are refused first |
| JobService.ValidateSession | internal/modules/ai/application/service/job_service.go:178-202 | without a session repository no session passes (the full rule is ValidateSessionIff) |
| JobService.ValidateSessionTrims | internal/modules/ai/application/service/job_service.go:179-181 | validation trims the ids, so trimming them first changes nothing |
| JobService.UserEventDefs | internal/modules/ai/infrastructure/persistence/job_repository_impl.go:40-47 | the active event definitions of the event for exactly that user |
| JobService.EventDefs | internal/modules/ai/infrastructure/persistence/job_repository_impl.go:32-38 | the active event definitions of the event for any user |
| JobService.GlobalEventDefs | internal/modules/ai/application/service/job_service.go:47-50 | (corrected) the global definitions, those with no tenant, of the event |
| JobService.DefOutcomeIff | internal/modules/ai/application/service/job_service.go:54-78 | a definition fires iff its session id is non-blank and the session validates for its target user; a blank session id is refused; the instance carries the definition's id, the target user (its own tenant or else the triggering one), its agent, session and filled prompt, pending at the trigger time |
| JobService.Outcomes | internal/modules/ai/application/service/job_service.go:54-79 | one outcome per definition |
| JobService.OutcomeAt | internal/modules/ai/application/service/job_service.go:54-79 | each outcome is its definition's outcome |
| JobService.UntilErrorPrefix | internal/modules/ai/application/service/job_service.go:54-79 | the loop creates the instances of the definitions before the first refusal, in order, and stops there with its error |
| JobService.FireDef | internal/modules/ai/application/service/job_service.go:55-78 | one iteration computes DefOutcome |
| JobService.TriggerByEvent | internal/modules/ai/application/service/job_service.go:42-81 | the method's answer and instances are TriggerSpec |
| JobService.FireAll | internal/modules/ai/application/service/job_service.go:54-79 | the loop stops at the first error, and its instances are UntilError of the outcomes |
| JobService.TriggerStaysWithTenant | internal/modules/ai/application/service/job_service.go:42-81 | (corrected) a user's definitions and the global ones never overlap, and every instance created for a tenant belongs to that tenant |
| JobService.CreatedFrom | internal/modules/ai/application/service/job_service.go:54-79 | on success the k-th instance comes from the k-th definition and its target user |
| JobService.CreatedTwice | internal/modules/ai/application/service/job_service.go:54-79 | a definition listed twice fires twice |
| JobService.CreatedOnce | internal/modules/ai/application/service/job_service.go:54-79 | a listed definition fires for its owner |
| JobService.BothListsRunTwice | internal/modules/ai/application/service/job_service.go:43-50 | a definition in both the user's list and the full list fires twice |
| JobService.GlobalListRuns | internal/modules/ai/application/service/job_service.go:47-50 | a definition in the full list fires for its own owner |
| JobService.TriggerAsWrittenRepeatsAndLeaks | internal/modules/ai/application/service/job_service.go:43-50 | as written, each of the tenant's own definitions fires twice, and another user's definition fires for that other user (also job_repository_impl.go:32-38) |
| JobService.TriggerAsWrittenPair | internal/modules/ai/application/service/job_service.go:43-79 | with one own and one foreign definition, the code as written creates the own instance twice and the foreign one once |
| JobService.TriggerAsWrittenSample | internal/modules/ai/application/service/job_service.go:43-79 | a concrete table of two definitions: the trigger as written creates three instances, one of them for another user |
| JobService.Deactivated | internal/modules/ai/application/service/job_service.go:159-165 | the user's definition with that id is marked inactive and every other definition is kept |
| JobService.DeactivateNoOp | internal/modules/ai/application/service/job_service.go:160-162 | an empty user or a non-positive id is a no-op without error |
| JobService.DeactivatedStopsFiring | internal/modules/ai/application/service/job_service.go:159-165 | a deactivated definition is in neither event query any more, and every other definition's membership is unchanged (also job_repository_impl.go:32-47) |
| JobService.DeactivateJobDef | internal/modules/ai/application/service/job_service.go:159-165 | the method's answer and table are DeactivateSpec |
| SelfProfile.IsAllDigits | internal/modules/ai/infrastructure/reader/self_profile_reader.go:99-109 | true iff the text is non-empty and every character is an ASCII digit |
| SelfProfile.FormatBirthday | internal/modules/ai/infrastructure/reader/self_profile_reader.go:77-97 | empty exactly for a blank input, and otherwise a trimmed text |
| SelfProfile.DateDigitsIff | internal/modules/ai/infrastructure/reader/self_profile_reader.go:85-91 | for eight characters, the year, month and day all being digits is the whole text being digits |
| SelfProfile.DigitsHaveNoDash | internal/modules/ai/infrastructure/reader/self_profile_reader.go:82-91 | an all-digit text has no dash, so the two date cases never overlap |
| SelfProfile.BirthdayDashedKept | internal/modules/ai/infrastructure/reader/self_profile_reader.go:82-84 | a trimmed text with a dash and at least 8 bytes is kept as it is |
| SelfProfile.BirthdayEightDigits | internal/modules/ai/infrastructure/reader/self_profile_reader.go:85-91 | eight digits become yyyy-mm-dd with the same digits |
| SelfProfile.BirthdayOtherwiseTrimmed | internal/modules/ai/infrastructure/reader/self_profile_reader.go:93-96 | any other non-blank text comes back trimmed |
| SelfProfile.BirthdayIdempotent | internal/modules/ai/infrastructure/reader/self_profile_reader.go:77-97 | formatting a formatted birthday changes nothing |
| SelfProfile.WriteCNField | internal/modules/ai/infrastructure/reader/self_profile_reader.go:60-75 | a blank key or value writes nothing; otherwise the text grows, keeps what was there and ends in a non-space |
| SelfProfile.AppendFieldSeparator | internal/modules/ai/infrastructure/reader/self_profile_reader.go:69-74 | a comma separates a field from what is written before it, except at the start or after the header's colon |
| SelfProfile.WriteCNFieldSeparator | internal/modules/ai/infrastructure/reader/self_profile_reader.go:64-74 | the written field is the trimmed key, a space and the trimmed value, after a comma unless at the start or after the colon |
| SelfProfile.ReadProfile | internal/modules/ai/infrastructure/reader/self_profile_reader.go:20-58 | no repository and a blank tenant are errors; a lookup error is returned; no user is an empty profile; a user gives their profile text |
| SelfProfile.WriteStep | internal/modules/ai/infrastructure/reader/self_profile_reader.go:60-75 | writing a field keeps the text free of surrounding space, only extends it, and leaves it unchanged iff the value is blank |
| SelfProfile.TrimmedBlankIff | internal/modules/ai/infrastructure/reader/self_profile_reader.go:42-48 | a trimmed value is blank iff the value is |
| SelfProfile.BirthdayBlankIff | internal/modules/ai/infrastructure/reader/self_profile_reader.go:45-46 | the formatted birthday is blank iff the stored one is |
| SelfProfile.FieldsTextShape | internal/modules/ai/infrastructure/reader/self_profile_reader.go:39-53 | the text starts with the header and is only the header iff every field is blank and no registration date is given |
| SelfProfile.ProfileTextShape | internal/modules/ai/infrastructure/reader/self_profile_reader.go:39-53 | the profile text starts with the header and is only the header iff every field of the user is blank |
| SelfProfile.ProfileEmptyIff | internal/modules/ai/infrastructure/reader/self_profile_reader.go:53-57 | the profile is empty iff every field is blank; otherwise it is the header followed by at least one field |

## Left out

- MilvusEino.DocToItem: keeps the vector as given; Go narrows each element to float32, and floating point is not modelled.
- MilvusEino.TruncateReal: unbounded; Go's conversion of a float outside the int64 range to int64 gives an implementation-defined value, which the model does not reproduce.
- Strings are sequences of Unicode code points. Go's byte-level `len` is modelled only where a byte bound is the point (`GoStrings.Utf8Len`, `GoStrings.CutBytes`). Everywhere else a string length counts code points.
- IngestWorker.StoredError: the 255-byte cut of a failure message (ingest_consumer_worker.go:391-394) is modelled at the last whole rune that fits. The stored text is at most 255 UTF-8 bytes, as in Go, but Go's `msg[:255]` can cut inside a multi-byte rune and store an invalid tail. The model never does.
- IngestWorker.ScrubErrMsg: the same rune-boundary cut applies. It also lowers the message with ASCII-only `GoStrings.ToLowerAscii` before looking for the sensitive words, so a message that spells one of them with a non-ASCII letter that Go lowers to ASCII (KELVIN SIGN followed by "ey") is scrubbed in Go but not in the model.
- GoStrings.ToLowerAscii: lowers A-Z only. Go's `strings.ToLower` lowers every Unicode upper-case letter, and some non-ASCII letters lower to ASCII ones: U+212A KELVIN SIGN lowers to `k`.
- AsyncIngest.IsDuplicateKeyErr: the same ASCII-only lowering applies to the duplicate-key test on the database error text.
- ChatTurn.SortByTime: modelled as a stable insertion sort by time. Go's `sort.Slice` is not stable, so messages with equal timestamps may come out in another order in Go. The model's merged turns follow the stable order. In Go, messages with equal timestamps may appear in a turn in another order.
- IngestPipeline.SortChat: Go's less function breaks ties of time on the uuid (ingest_pipeline.go:195-200), and so does the model's `Before`. Only messages with both the same time and the same uuid are left in an unspecified order by Go's unstable `sort.Slice`; the model keeps their input order.
- Retrieve.SortByScoreDesc: the same; hits with equal scores keep their input order in the model. Its stated properties are sortedness and permutation, which hold for any order of equals. The dedup map is read back in first-seen key order, where Go's map order is random; together with the sort this only decides the order of hits of equal score.
- Go map iteration order is unspecified. The model fixes one order wherever a map is walked: first-seen order for the retrieve dedup, and a given key order (the parameter `order`) for prompt templating. The stated properties do not depend on that order, except where a template value itself contains another key's placeholder.
- Nil and empty slices are the same value (`[]`) throughout, in particular in the chat-turn merger and the retrieve results. The JSON form of the two (`null` and `[]`) is not modelled.
- Hub: locking, the goroutines and the write pump are not modelled. Each operation is one atomic step on the hub's table. Go panics when Send writes to the channel of a client that Close has closed but that is still registered. The model's Send instead puts the payload on that client's queue like any other.
- MessageService: the `CreatedAt` of a message in a response is the timestamp as an integer. The RFC 3339 formatting is not modelled.
- Retrieve.Retrieve: the pipeline dedups on the (source_type, source_key) pair, the corrected key of the "## Findings" row. The source dedups on the joined string "type|key" (retrieve_graph.go:216), which merges two sources whose parts contain '|'. `Retrieve.PostProcess` with `joined` set models the source's key.
- Outbox.KeyFor: the event id is rendered with the corrected `FormatInt` (the "## Findings" row on strconvInt64). For the event id MinInt64 the source's key is "-".
- Outbox.MessageFor: the same; the message value and the id header use the corrected rendering, where the source writes "-" for MinInt64.
- Outbox.PublishEvent: the same; it renders the id with the corrected `StrconvInt64`, so for the event id MinInt64 the message it publishes differs from the source's in the key, the value and the id header.
- GroupService.GroupServiceImpl.DismissGroup: the move of the group's contact rows to status 8 runs in a goroutine after the transaction in the source (group_service.go:507-517). The model applies it in the same step, so no state is observable between the two; a failure of that update (`statusErr`) only leaves the rows as they were, as in the source.
- Clocks, random ids, sha256 and hex, JSON marshalling and unmarshalling, and time formatting and parsing are function parameters or data carried as given.
- The chunker's `ChunkDocuments` and the merger's `Merge` as called from the ingest graph are parameters of `IngestGraph`. Both are in files that are not part of this model. `Chunking` models the chunker's `Chunk` on its own.
- The chunker rewrites each document in place with its chunk metadata. The model builds new documents instead.
- Most checks for nil requests, states, indexers and embedders are left out, because the model's operations receive values. The nil session repository of the job service is kept, as the flag `hasRepo`.
- Errors returned by `UpdateVectorStatus` in the ingest graph are ignored by the source. The model records the calls as writes and does not model them failing.
- Repository reads that fail with an error other than not-found are modelled for GetUserList, GetNewContactList, ApplyContact, CreateGroup, the session lists and the message lists. They are also modelled for the read of the application in PassContactApply and RefuseContactApply. They are not modelled in the session service's checks, in InviteGroupMembers, LeaveGroup and DismissGroup (the group read), or in the group read of PassContactApply and RefuseContactApply. In each of these the source returns the error from inside a transaction, so nothing changes; the model has no input that makes that read fail.
- `MarkPublishFailed` of the ingest-event repository trims the reason and cuts it to 255 bytes (ingest_event_repository_impl.go:128-131), as does event_repository_impl.go:80-85. The outbox model records the call with the untrimmed reason; the repository's storage is not part of this model.
- GroupService: the member list that `GetGroupMembers` returns after an invite or a leave is a parameter, because that repository query is not part of this model.
- McpDispatcher: `ListAvailableTools` and `GetToolByName` are not modelled. They only list and search the server registry, which is not part of this model.
- JobService: `CreateInstanceFromDef`, `CreateOneTimeJob`, `CreateCronJob`, `CreateEventJob` and `ExecuteInstance` are not modelled. They only forward to the repository and the assistant service. TriggerByEvent builds its instances itself and is modelled.
- JobService.TriggerByEvent: the source ignores the error of `CreateInst`. The model records every instance it builds, as if each insert succeeded.
- SelfProfile: the `time.Parse` fallback of `formatBirthday` is not modelled separately. Only eight-digit strings parse with the layout "20060102", and those are already handled by the branch before it, so the fallback never changes the result.
- Timing, logging and the `DurationMs` fields are left out.

## Findings

| source | as written | input that shows it | evidently intended | confidence | as-written member | corrected member |
|---|---|---|---|---|---|---|
| internal/modules/ai/infrastructure/queue/outbox_relay.go:160-174 | strconvInt64 negates a negative number and then prints its digits; for the smallest int64 the negation wraps to itself, the digit loop never runs and the result is "-" | n = -9223372036854775808 | the decimal text of n, which parses back to n | not executed | Outbox.StrconvInt64AsWritten, Outbox.MinInt64RenderingLost | Outbox.StrconvInt64 |
| internal/modules/ai/infrastructure/pipeline/retrieve_graph.go:216 | the dedup key is source_type and source_key joined by a vertical bar, so two different sources whose parts contain that bar get the same key and only one hit survives | source ("a" + bar + "b", "c") and source ("a", "b" + bar + "c") | one surviving hit per distinct (source_type, source_key) pair | not executed | Retrieve.JoinedKeyCollision, Retrieve.JoinedSourceKeyNotInjective | Retrieve.PairKeyKeepsSources |
| internal/modules/ai/infrastructure/persistence/job_repository_impl.go:32-38 | GetDefsByEvent has no tenant filter, and TriggerByEvent appends its result to the tenant's own definitions (job_service.go:43-50), so the tenant's own definitions fire twice and other tenants' definitions fire too | tenant "u" owning definition 1 and tenant "w" owning definition 2, both listening to event "e", fired for "u": three instances, two of definition 1 and one of definition 2 for "w" | each definition of the tenant fires once, plus the definitions that belong to no tenant | not executed | JobService.TriggerAsWrittenRepeatsAndLeaks, JobService.TriggerAsWrittenSample | JobService.TriggerStaysWithTenant |
| internal/modules/ai/infrastructure/pipeline/ingest_pipeline.go:316-317 | ingestNode, which Ingest no longer calls, indexes the embedder's vectors by item position without checking their count, so fewer vectors than items read past the end and panic | one item and no returned vector | an item without a vector is marked failed, as embedNode of the ingest graph does | not executed | IngestPipeline.ShortEmbeddingPanics | IngestPipeline.CheckAll |
