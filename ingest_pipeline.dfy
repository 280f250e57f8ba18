/**
 * The RAG ingest pipeline (IngestPipeline): purging a knowledge source, and
 * the single-pass ingest that turns a request's documents, chat messages or
 * merged chat segments into chunks, records them in the RAG repository,
 * embeds them and upserts the vectors, counting each chunk as upserted,
 * skipped or failed.
 *
 * The RAG repository, the vector store, the embedder, SHA-256 and
 * json.Marshal are parameters: each is the function from a call's
 * arguments to its answer. The clock and the log are left out.
 */
module IngestPipeline {
  import opened Common
  import opened Seqs
  import opened GoStrings
  import Chunking
  import MilvusEino

  /** A chat message as the ingest reads it (chatEntity.Message); times are nanoseconds. */
  datatype Message = Message(uuid: string, msgType: int, content: string, createdAt: int,
                             sendId: string, sendName: string, receiveId: string)

  datatype IngestRequest = IngestRequest(tenantUserId: string, sessionUuid: string, sessionType: int,
                                         sessionName: string, sourceType: string, sourceKey: string,
                                         messages: seq<Message>, documents: seq<string>)

  datatype IngestResult = IngestResult(tenantUserId: string, sourceType: string, sourceKey: string,
                                       kbId: int, sourceId: int, messages: int, segments: int, chunks: int,
                                       vectorsOk: int, vectorsSkip: int, vectorsFail: int)

  // Embedding states of a vector record (rag.VectorEmbedStatus*)
  const EmbedPending := 0
  const EmbedSucceeded := 1
  const EmbedFailed := -1

  // Knowledge source states (rag.CommonStatus*)
  const StatusDisabled := 0
  const StatusEnabled := 1

  /** A vector record: the id of its vector in the store and its embedding state. */
  datatype VectorRecord = VectorRecord(vectorId: string, embedStatus: int)

  /**
   * The RAG repository, as the answers it gives: the knowledge base and
   * source of a tenant, chunks by key, the vector record of a chunk, and
   * the writes that can fail.
   */
  datatype RagRepo = RagRepo(
    ensureKnowledgeBase: string -> Result<int>,
    ensureKnowledgeSource: (int, string, string, string) -> Result<int>,
    getKnowledgeSource: (int, string, string, string) -> Result<Option<int>>,
    listVectorIds: int -> Result<seq<string>>,
    deleteChunksAndVectorRecords: int -> Option<Error>,
    updateKnowledgeSourceStatus: (int, int) -> Option<Error>,
    chunkByKey: string -> Result<Option<int>>,
    vectorRecordOfChunk: int -> Result<Option<VectorRecord>>,
    createVectorRecord: (int, string) -> Option<Error>,
    createChunkAndVectorRecord: (string, string) -> Result<int>)

  /** One UpdateVectorStatus call: the vector id, the new state and the message stored with it. */
  datatype StatusWrite = StatusWrite(vectorId: string, status: int, msg: string)

  // ---------------------------------------------------------------------
  // truncate4096
  // ---------------------------------------------------------------------

  const MaxStoredRunes := 4096

  /** truncate4096: the first 4096 runes. */
  function Truncate4096(s: string): (r: string)
    ensures |r| <= MaxStoredRunes && |r| <= |s| && r == s[..|r|]
    ensures |s| <= MaxStoredRunes ==> r == s
    ensures |s| > MaxStoredRunes ==> |r| == MaxStoredRunes
  {
    if |s| <= MaxStoredRunes then
      assert s[..|s|] == s;
      s
    else s[..MaxStoredRunes]
  }

  /** Truncating twice is truncating once. */
  lemma Truncate4096Idempotent(s: string)
    ensures Truncate4096(Truncate4096(s)) == Truncate4096(s)
  {
  }

  // ---------------------------------------------------------------------
  // PurgeSource
  // ---------------------------------------------------------------------

  /** The writes PurgeSource issues, in order. */
  datatype PurgeOp =
    | EnsureKnowledgeBase(tenant: string)
    | DeleteVectors(ids: seq<string>)
    | DeleteChunks(sourceId: int)
    | DisableSource(sourceId: int)

  const MissingTenantOrSource := "missing tenant/source"

  /**
   * PurgeSource: after the trimmed tenant, source type and source key are
   * checked, the source's vectors are deleted from the store, then its
   * chunks and vector records, then, when asked, the source is disabled.
   * The answer is the error that stopped it, if any, and the writes issued.
   */
  function PurgeSource(tenantUserId: string, sourceType: string, sourceKey: string, disableSource: bool,
                       repo: RagRepo, deleteByIds: seq<string> -> Option<Error>): (r: (Option<Error>, seq<PurgeOp>))
    ensures r.1 != [] ==> r.1[0] == EnsureKnowledgeBase(TrimSpace(tenantUserId))
  {
    var tenant := TrimSpace(tenantUserId);
    var st := TrimSpace(sourceType);
    var sk := TrimSpace(sourceKey);
    if tenant == [] || st == [] || sk == [] then (Some(PlainErr(MissingTenantOrSource)), [])
    else
      var ensured := [EnsureKnowledgeBase(tenant)];
      match repo.ensureKnowledgeBase(tenant)
      case Err(e) => (Some(e), ensured)
      case Ok(kbId) =>
        match repo.getKnowledgeSource(kbId, tenant, st, sk)
        case Err(e) => (Some(e), ensured)
        case Ok(src) =>
          if src.None? || src.value <= 0 then (None, ensured)
          else
            var found := PurgeFound(src.value, disableSource, repo, deleteByIds);
            (found.0, ensured + found.1)
  }

  /** PurgeSource once the source `id` is found: the writes after EnsureKnowledgeBase. */
  function PurgeFound(id: int, disableSource: bool, repo: RagRepo,
                      deleteByIds: seq<string> -> Option<Error>): (Option<Error>, seq<PurgeOp>)
  {
    match repo.listVectorIds(id)
    case Err(e) => (Some(e), [])
    case Ok(ids) =>
      if |ids| > 0 && deleteByIds(ids).Some? then (deleteByIds(ids), [DeleteVectors(ids)])
      else
        var deleted := (if |ids| > 0 then [DeleteVectors(ids)] else []) + [DeleteChunks(id)];
        if repo.deleteChunksAndVectorRecords(id).Some? then (repo.deleteChunksAndVectorRecords(id), deleted)
        else if disableSource then (repo.updateKnowledgeSourceStatus(id, StatusDisabled), deleted + [DisableSource(id)])
        else (None, deleted)
  }

  /**
   * A blank tenant, source type or source key is refused before any write;
   * a source that does not exist (or has no positive id) is a no-op that
   * answers no error and deletes nothing.
   */
  lemma PurgeGuards(tenantUserId: string, sourceType: string, sourceKey: string, disableSource: bool,
                    repo: RagRepo, deleteByIds: seq<string> -> Option<Error>)
    ensures var r := PurgeSource(tenantUserId, sourceType, sourceKey, disableSource, repo, deleteByIds);
      IsBlank(tenantUserId) || IsBlank(sourceType) || IsBlank(sourceKey) ==>
        r == (Some(PlainErr(MissingTenantOrSource)), [])
    ensures var r := PurgeSource(tenantUserId, sourceType, sourceKey, disableSource, repo, deleteByIds);
      var tenant := TrimSpace(tenantUserId);
      !IsBlank(tenantUserId) && !IsBlank(sourceType) && !IsBlank(sourceKey) && repo.ensureKnowledgeBase(tenant).Ok? ==>
        var src := repo.getKnowledgeSource(repo.ensureKnowledgeBase(tenant).value, tenant, TrimSpace(sourceType), TrimSpace(sourceKey));
        (src == Ok(None) || (src.Ok? && src.value.Some? && src.value.value <= 0)) ==>
          r == (None, [EnsureKnowledgeBase(tenant)])
  {
  }

  /**
   * When every call succeeds, the store's vectors go first (only when the
   * source has some), then the chunks and vector records, then, when asked,
   * the source is disabled.
   */
  lemma PurgeOrder(id: int, disableSource: bool, repo: RagRepo, deleteByIds: seq<string> -> Option<Error>)
    requires repo.listVectorIds(id).Ok?
    ensures var ids := repo.listVectorIds(id).value;
      (|ids| == 0 || deleteByIds(ids).None?) && repo.deleteChunksAndVectorRecords(id).None?
      && (disableSource ==> repo.updateKnowledgeSourceStatus(id, StatusDisabled).None?) ==>
        PurgeFound(id, disableSource, repo, deleteByIds)
          == (None, (if |ids| > 0 then [DeleteVectors(ids)] else []) + [DeleteChunks(id)]
                    + (if disableSource then [DisableSource(id)] else []))
  {
    var ids := repo.listVectorIds(id).value;
    var deleted := (if |ids| > 0 then [DeleteVectors(ids)] else []) + [DeleteChunks(id)];
    assert deleted + [] == deleted;
  }

  /** A failed step ends the purge with its error: nothing after it is issued. */
  lemma PurgeStopsAtFailure(id: int, disableSource: bool, repo: RagRepo, deleteByIds: seq<string> -> Option<Error>)
    ensures repo.listVectorIds(id).Err? ==> PurgeFound(id, disableSource, repo, deleteByIds) == (Some(repo.listVectorIds(id).error), [])
    ensures repo.listVectorIds(id).Ok? && |repo.listVectorIds(id).value| > 0 && deleteByIds(repo.listVectorIds(id).value).Some? ==>
      PurgeFound(id, disableSource, repo, deleteByIds) == (deleteByIds(repo.listVectorIds(id).value), [DeleteVectors(repo.listVectorIds(id).value)])
    ensures var r := PurgeFound(id, disableSource, repo, deleteByIds);
      repo.deleteChunksAndVectorRecords(id).Some? ==> r.0.Some? && DisableSource(id) !in r.1
  {
  }

  // ---------------------------------------------------------------------
  // Chat ingest: the messages kept, and their order
  // ---------------------------------------------------------------------

  /** A message the chat ingest keeps: a text message (type 0) whose content is not blank. */
  predicate KeptChat(m: Message)
  {
    m.msgType == 0 && !IsBlank(m.content)
  }

  /** A kept message as the ingest carries it on: its content trimmed. */
  function Trimmed(m: Message): Message
  {
    m.(content := TrimSpace(m.content))
  }

  /** The kept messages, in input order. */
  function ChatKept(ms: seq<Message>): (r: seq<Message>)
    ensures |r| <= |ms|
  {
    if ms == [] then []
    else
      var front := ChatKept(ms[..|ms| - 1]);
      if KeptChat(Last(ms)) then front + [Trimmed(Last(ms))] else front
  }

  /** `x` is a kept message of `ms`, trimmed. */
  ghost predicate KeptFrom(ms: seq<Message>, x: Message)
  {
    exists i :: KeptAt(ms, i, x)
  }

  predicate KeptAt(ms: seq<Message>, i: int, x: Message)
  {
    0 <= i < |ms| && KeptChat(ms[i]) && x == Trimmed(ms[i])
  }

  lemma KeptFromFront(ms: seq<Message>, x: Message)
    requires ms != [] && KeptFrom(ms[..|ms| - 1], x)
    ensures KeptFrom(ms, x)
  {
    var i :| KeptAt(ms[..|ms| - 1], i, x);
    assert ms[i] == ms[..|ms| - 1][i];
    assert KeptAt(ms, i, x);
  }

  lemma KeptFromSplit(ms: seq<Message>, x: Message, i: int)
    requires KeptAt(ms, i, x) && i < |ms| - 1
    ensures KeptAt(ms[..|ms| - 1], i, x)
  {
    assert ms[..|ms| - 1][i] == ms[i];
  }

  /** A message comes out of the filter iff it is a kept message of the input, trimmed. */
  lemma {:induction false} ChatKeptIff(ms: seq<Message>, x: Message)
    ensures x in ChatKept(ms) <==> KeptFrom(ms, x)
  {
    if ms != [] {
      var front := ms[..|ms| - 1];
      ChatKeptIff(front, x);
      if x in ChatKept(front) {
        KeptFromFront(ms, x);
      }
      if KeptFrom(ms, x) {
        var i :| KeptAt(ms, i, x);
        if i < |ms| - 1 {
          KeptFromSplit(ms, x, i);
        }
      }
      if KeptChat(Last(ms)) && x == Trimmed(Last(ms)) {
        assert KeptAt(ms, |ms| - 1, x);
      }
    }
  }

  /** Every message kept is a text message with trimmed, non-empty content. */
  lemma ChatKeptShape(ms: seq<Message>)
    ensures forall x :: x in ChatKept(ms) ==> x.msgType == 0 && x.content != [] && TrimSpace(x.content) == x.content
  {
    forall x | x in ChatKept(ms)
      ensures x.msgType == 0 && x.content != [] && TrimSpace(x.content) == x.content
    {
      ChatKeptIff(ms, x);
      var i :| KeptAt(ms, i, x);
      assert TrimSpace(ms[i].content) != [];
      TrimSpaceIdempotent(ms[i].content);
    }
  }

  lemma ChatKeptStep(ms: seq<Message>, i: int)
    requires 0 <= i < |ms|
    ensures ChatKept(ms[..i + 1]) == ChatKept(ms[..i]) + (if KeptChat(ms[i]) then [Trimmed(ms[i])] else [])
  {
    assert ms[..i + 1][..i] == ms[..i];
  }

  /** The loop that keeps the chat messages. */
  method FilterChat(ms: seq<Message>) returns (out: seq<Message>)
    ensures out == ChatKept(ms)
  {
    out := [];
    for i := 0 to |ms|
      invariant out == ChatKept(ms[..i])
    {
      ChatKeptStep(ms, i);
      var m := ms[i];
      if m.msgType != 0 {
        assert out + [] == out;
        continue;
      }
      var content := TrimSpace(m.content);
      if content == [] {
        assert out + [] == out;
        continue;
      }
      out := out + [m.(content := content)];
    }
    assert ms[..|ms|] == ms;
  }

  /** sort.Slice's less for the chat messages: the earlier time, then the smaller uuid. */
  predicate Before(a: Message, b: Message)
  {
    a.createdAt < b.createdAt || (a.createdAt == b.createdAt && StrLess(a.uuid, b.uuid))
  }

  predicate SortedChat(ms: seq<Message>)
  {
    forall i, j :: 0 <= i < j < |ms| ==> !Before(ms[j], ms[i])
  }

  lemma BeforeAsymmetric(a: Message, b: Message)
    requires Before(a, b)
    ensures !Before(b, a)
  {
    StrLessAsymmetric();
  }

  /** "Not before" is transitive: the order is total on (time, uuid). */
  lemma NotBeforeTransitive(a: Message, b: Message, c: Message)
    requires !Before(a, b) && !Before(b, c)
    ensures !Before(a, c)
  {
    if a.createdAt == c.createdAt && StrLess(a.uuid, c.uuid) {
      assert a.createdAt == b.createdAt == c.createdAt;
      if b.uuid == a.uuid {
      } else {
        StrLessTotal(a.uuid, b.uuid);
        StrLessTransitive(b.uuid, a.uuid, c.uuid);
      }
    }
  }

  /** Inserts m after every message that m does not come before. */
  function InsertChat(sorted: seq<Message>, m: Message): (r: seq<Message>)
    ensures |r| == |sorted| + 1
    ensures multiset(r) == multiset(sorted) + multiset{m}
  {
    if sorted == [] then [m]
    else if !Before(m, Last(sorted)) then sorted + [m]
    else
      SplitLast(sorted);
      InsertChat(sorted[..|sorted| - 1], m) + [Last(sorted)]
  }

  lemma SortedChatSnoc(front: seq<Message>, top: Message)
    requires SortedChat(front)
    requires forall j :: 0 <= j < |front| ==> !Before(top, front[j])
    ensures SortedChat(front + [top])
  {
  }

  lemma {:induction false} InsertChatSorted(sorted: seq<Message>, m: Message)
    requires SortedChat(sorted)
    ensures SortedChat(InsertChat(sorted, m))
  {
    if sorted != [] {
      var front := sorted[..|sorted| - 1];
      var top := Last(sorted);
      SplitLast(sorted);
      if !Before(m, top) {
        forall j | 0 <= j < |sorted|
          ensures !Before(m, sorted[j])
        {
          if j < |sorted| - 1 {
            NotBeforeTransitive(m, top, sorted[j]);
          }
        }
        SortedChatSnoc(sorted, m);
      } else {
        var r0 := InsertChat(front, m);
        InsertChatSorted(front, m);
        forall j | 0 <= j < |r0|
          ensures !Before(top, r0[j])
        {
          var x := r0[j];
          assert x in multiset(r0);
          if x == m {
            BeforeAsymmetric(m, top);
          } else {
            assert x in front;
          }
        }
        SortedChatSnoc(r0, top);
      }
    }
  }

  /** The chat messages in the order sort.Slice leaves them: by time, then by uuid. */
  function SortChat(ms: seq<Message>): (r: seq<Message>)
    ensures SortedChat(r) && multiset(r) == multiset(ms)
  {
    if ms == [] then []
    else
      assert ms == ms[..|ms| - 1] + [Last(ms)];
      var sorted := SortChat(ms[..|ms| - 1]);
      InsertChatSorted(sorted, Last(ms));
      InsertChat(sorted, Last(ms))
  }

  // ---------------------------------------------------------------------
  // Chunk collection
  // ---------------------------------------------------------------------

  /** A text the ingest chunks: its unit key, the text, and the chat message it renders, if any. */
  datatype Unit = Unit(key: string, text: string, msg: Option<Message>)

  /**
   * Documents and merged segments: the non-blank ones, trimmed, each keyed
   * by `prefix` and its position among all of them (blank ones included).
   */
  function NumberedUnits(prefix: string, texts: seq<string>): (r: seq<Unit>)
    ensures |r| <= |texts|
  {
    if texts == [] then []
    else
      var front := NumberedUnits(prefix, texts[..|texts| - 1]);
      var t := TrimSpace(Last(texts));
      if t == [] then front else front + [Unit(prefix + FormatInt(|texts| - 1), t, None)]
  }

  /** The `i`-th text, non-blank, made into unit `u`. */
  predicate NumberedAt(prefix: string, texts: seq<string>, i: int, u: Unit)
  {
    0 <= i < |texts| && TrimSpace(texts[i]) != [] && u == Unit(prefix + FormatInt(i), TrimSpace(texts[i]), None)
  }

  lemma NumberedAtFront(prefix: string, texts: seq<string>, i: int, u: Unit)
    requires texts != [] && NumberedAt(prefix, texts[..|texts| - 1], i, u)
    ensures NumberedAt(prefix, texts, i, u)
  {
    assert texts[i] == texts[..|texts| - 1][i];
  }

  /** Each unit is a non-blank text, trimmed, keyed by its own position. */
  lemma {:induction false} NumberedUnitsFrom(prefix: string, texts: seq<string>, k: int)
    requires 0 <= k < |NumberedUnits(prefix, texts)|
    ensures exists i :: NumberedAt(prefix, texts, i, NumberedUnits(prefix, texts)[k])
  {
    var front := texts[..|texts| - 1];
    var u := NumberedUnits(prefix, texts)[k];
    if k < |NumberedUnits(prefix, front)| {
      NumberedUnitsFrom(prefix, front, k);
      var i :| NumberedAt(prefix, front, i, NumberedUnits(prefix, front)[k]);
      NumberedAtFront(prefix, texts, i, u);
    } else {
      assert NumberedAt(prefix, texts, |texts| - 1, u);
    }
  }

  /** A chat message rendered for chunking: "name(15:04:05): content"; `clock` formats the time. */
  function ChatText(m: Message, clock: int -> string): (r: string)
    ensures !IsBlank(r)
  {
    var r := TrimSpace(m.sendName) + "(" + clock(m.createdAt) + "): " + m.content;
    assert r[|TrimSpace(m.sendName)|] == '(';
    TrimSpaceEmpty(r);
    r
  }

  function ChatUnits(ms: seq<Message>, clock: int -> string): (r: seq<Unit>)
    ensures |r| == |ms|
    ensures forall i :: 0 <= i < |ms| ==> r[i] == Unit(TrimSpace(ms[i].uuid), ChatText(ms[i], clock), Some(ms[i]))
  {
    seq(|ms|, i requires 0 <= i < |ms| => Unit(TrimSpace(ms[i].uuid), ChatText(ms[i], clock), Some(ms[i])))
  }

  const ChatPrivate := "chat_private"
  const ChatGroup := "chat_group"

  /**
   * What the ingest chunks: the request's documents when it has any; else,
   * for a chat source, its kept messages in (time, uuid) order; else the
   * segments the chat-turn merger cut from its messages.
   */
  function Units(req: IngestRequest, segments: seq<string>, clock: int -> string): seq<Unit>
  {
    if |req.documents| > 0 then NumberedUnits("doc_", req.documents)
    else if req.sourceType == ChatPrivate || req.sourceType == ChatGroup then
      ChatUnits(SortChat(ChatKept(req.messages)), clock)
    else NumberedUnits("seg_", segments)
  }

  datatype ChunkItem = ChunkItem(unitKey: string, subIdx: int, msg: Option<Message>, content: string)

  /** The chunk items of one unit: its non-blank parts, trimmed, each with its index among all parts. */
  function PartItems(u: Unit, parts: seq<string>): seq<ChunkItem>
  {
    if parts == [] then []
    else
      var front := PartItems(u, parts[..|parts| - 1]);
      var t := TrimSpace(Last(parts));
      if t == [] then front else front + [ChunkItem(u.key, |parts| - 1, u.msg, t)]
  }

  /** The chunk items of the units, one unit after another. */
  function ChunkItems(c: Chunking.SimpleChunker, units: seq<Unit>): seq<ChunkItem>
    requires c.Valid()
  {
    if units == [] then []
    else ChunkItems(c, units[..|units| - 1]) + PartItems(Last(units), Chunking.ChunkSpec(c, Last(units).text))
  }

  /** Every chunk item has trimmed, non-empty content and comes from its unit with the unit's key. */
  lemma {:induction false} PartItemsShape(u: Unit, parts: seq<string>)
    ensures forall x :: x in PartItems(u, parts) ==>
      x.content != [] && TrimSpace(x.content) == x.content && x.unitKey == u.key && x.msg == u.msg && 0 <= x.subIdx < |parts|
  {
    if parts != [] {
      PartItemsShape(u, parts[..|parts| - 1]);
      TrimSpaceIdempotent(Last(parts));
    }
  }

  lemma {:induction false} ChunkItemsShape(c: Chunking.SimpleChunker, units: seq<Unit>)
    requires c.Valid()
    ensures forall x :: x in ChunkItems(c, units) ==> x.content != [] && TrimSpace(x.content) == x.content
  {
    if units != [] {
      ChunkItemsShape(c, units[..|units| - 1]);
      PartItemsShape(Last(units), Chunking.ChunkSpec(c, Last(units).text));
    }
  }

  lemma ChunkItemsStep(c: Chunking.SimpleChunker, units: seq<Unit>, i: int)
    requires c.Valid() && 0 <= i < |units|
    ensures ChunkItems(c, units[..i + 1]) == ChunkItems(c, units[..i]) + PartItems(units[i], Chunking.ChunkSpec(c, units[i].text))
  {
    assert units[..i + 1][..i] == units[..i];
  }

  lemma PartItemsStep(u: Unit, parts: seq<string>, si: int)
    requires 0 <= si < |parts|
    ensures PartItems(u, parts[..si + 1]) ==
      PartItems(u, parts[..si]) + (if TrimSpace(parts[si]) == [] then [] else [ChunkItem(u.key, si, u.msg, TrimSpace(parts[si]))])
  {
    assert parts[..si + 1][..si] == parts[..si];
  }

  /** The loop over the units, chunking each. */
  method CollectChunks(c: Chunking.SimpleChunker, units: seq<Unit>) returns (chunks: seq<ChunkItem>)
    requires c.Valid()
    ensures chunks == ChunkItems(c, units)
  {
    chunks := [];
    for i := 0 to |units|
      invariant chunks == ChunkItems(c, units[..i])
    {
      var parts := Chunking.Chunk(c, units[i].text);
      var items := UnitItems(units[i], parts);
      ChunkItemsStep(c, units, i);
      chunks := chunks + items;
    }
    assert units[..|units|] == units;
  }

  /** The loop over one unit's parts: the blank ones are skipped, the others trimmed. */
  method UnitItems(u: Unit, parts: seq<string>) returns (items: seq<ChunkItem>)
    ensures items == PartItems(u, parts)
  {
    items := [];
    for si := 0 to |parts|
      invariant items == PartItems(u, parts[..si])
    {
      PartItemsStep(u, parts, si);
      var part := TrimSpace(parts[si]);
      if part == [] {
        assert items + [] == items;
        continue;
      }
      items := items + [ChunkItem(u.key, si, u.msg, part)];
    }
    assert parts[..|parts|] == parts;
  }

  /** A blank unit key becomes "idx_<i>", i the chunk's position; otherwise it is trimmed. */
  function UnitKey(i: int, key: string): (r: string)
    ensures !IsBlank(r)
    ensures IsBlank(key) ==> r == "idx_" + FormatInt(i)
    ensures !IsBlank(key) ==> r == TrimSpace(key)
  {
    var k := TrimSpace(key);
    if k == [] then
      var r := "idx_" + FormatInt(i);
      TrimSpaceEmpty(r);
      assert !IsSpace(r[0]);
      r
    else
      TrimSpaceIdempotent(key);
      k
  }

  // ---------------------------------------------------------------------
  // Recording the chunks: each one is failed, skipped, or to be embedded
  // ---------------------------------------------------------------------

  /**
   * The collaborators of the ingest: the RAG repository, sha256Hex,
   * json.Marshal, the RFC 3339 rendering of a time, and the vector dimension.
   */
  datatype Env = Env(repo: RagRepo, hash: string -> string, marshal: map<string, MilvusEino.Any> -> Option<string>,
                     rfc3339: int -> string, vectorDim: int)

  /** The first 48 characters of a digest (sha256Hex has 64). */
  function First48(h: string): (r: string)
    ensures |r| <= 48 && |r| <= |h| && r == h[..|r|]
  {
    if |h| <= 48 then
      assert h[..|h|] == h;
      h
    else h[..48]
  }

  /** "ck_" + sha256Hex("tenant|type|key|unit|sub|sha256Hex(content)") */
  function ChunkKey(hash: string -> string, tenant: string, sourceType: string, sourceKey: string,
                    unitKey: string, subIdx: int, content: string): string
  {
    "ck_" + hash(tenant + "|" + sourceType + "|" + sourceKey + "|" + unitKey + "|" + FormatInt(subIdx) + "|" + hash(content))
  }

  /** "v_" + the first 48 characters of sha256Hex("tenant|type|key|ckey|dim") */
  function VectorId(hash: string -> string, tenant: string, sourceType: string, sourceKey: string,
                    ckey: string, dim: int): string
  {
    "v_" + First48(hash(tenant + "|" + sourceType + "|" + sourceKey + "|" + ckey + "|" + FormatInt(dim)))
  }

  /** json.Marshal's answer, or "{}" when it fails or is empty. */
  function JsonOr(o: Option<string>): (r: string)
    ensures r != []
    ensures o.Some? && o.value != [] ==> r == o.value
  {
    if o.None? || o.value == [] then "{}" else o.value
  }

  /** safeMeta: the session fields and the chunk's position, as JSON. */
  function SafeMeta(env: Env, req: IngestRequest, chunkIndex: int): string
  {
    JsonOr(env.marshal(map["session_uuid" := MilvusEino.Str(req.sessionUuid),
                           "session_type" := MilvusEino.Int(req.sessionType),
                           "session_name" := MilvusEino.Str(req.sessionName),
                           "chunk_index" := MilvusEino.Int(chunkIndex)]))
  }

  /** safeChatMsgMeta: safeMeta's fields plus the message's uuid, time, sender and receiver. */
  function SafeChatMsgMeta(env: Env, req: IngestRequest, chunkIndex: int, m: Message): string
  {
    JsonOr(env.marshal(map["session_uuid" := MilvusEino.Str(req.sessionUuid),
                           "session_type" := MilvusEino.Int(req.sessionType),
                           "session_name" := MilvusEino.Str(req.sessionName),
                           "chunk_index" := MilvusEino.Int(chunkIndex),
                           "message_uuid" := MilvusEino.Str(TrimSpace(m.uuid)),
                           "message_time" := MilvusEino.Str(env.rfc3339(m.createdAt)),
                           "send_id" := MilvusEino.Str(TrimSpace(m.sendId)),
                           "send_name" := MilvusEino.Str(TrimSpace(m.sendName)),
                           "receive_id" := MilvusEino.Str(TrimSpace(m.receiveId))]))
  }

  /** An item to embed (upsertItem): its vector id, chunk id, stored content, metadata and text to embed. */
  datatype Ready = Ready(vectorId: string, chunkId: int, content: string, metaJson: string, text: string)

  datatype Prepared = Failed | Skipped | ToEmbed(item: Ready)

  /**
   * The repository's verdict on one chunk: a chunk already known whose
   * vector has succeeded is skipped; a known chunk gets a pending vector
   * record if it has none, a new chunk is created with one; any failing
   * call fails the chunk.
   */
  function PrepareChunk(repo: RagRepo, ckey: string, vid: string, content: string, metaJson: string): (r: Prepared)
    ensures r.ToEmbed? ==> r.item.vectorId == vid && r.item.text == content && r.item.content == Truncate4096(content)
    ensures r == Skipped <==>
      repo.chunkByKey(ckey).Ok? && repo.chunkByKey(ckey).value.Some? &&
      var vr := repo.vectorRecordOfChunk(repo.chunkByKey(ckey).value.value);
      vr.Ok? && vr.value.Some? && vr.value.value.embedStatus == EmbedSucceeded
  {
    var ready := (cid: int) => ToEmbed(Ready(vid, cid, Truncate4096(content), metaJson, content));
    match repo.chunkByKey(ckey)
    case Err(_) => Failed
    case Ok(None) =>
      (match repo.createChunkAndVectorRecord(ckey, vid)
       case Err(_) => Failed
       case Ok(cid) => ready(cid))
    case Ok(Some(cid)) =>
      match repo.vectorRecordOfChunk(cid)
      case Err(_) => Failed
      case Ok(Some(vr)) => if vr.embedStatus == EmbedSucceeded then Skipped else ready(cid)
      case Ok(None) => if repo.createVectorRecord(cid, vid).Some? then Failed else ready(cid)
  }

  /** The verdict on chunk `i`, its keys derived from the tenant, the source and its unit key. */
  function PrepareAt(env: Env, req: IngestRequest, tenant: string, chunks: seq<ChunkItem>, i: int): Prepared
    requires 0 <= i < |chunks|
  {
    var ch := chunks[i];
    var ckey := ChunkKey(env.hash, tenant, req.sourceType, req.sourceKey, UnitKey(i, ch.unitKey), ch.subIdx, ch.content);
    var vid := VectorId(env.hash, tenant, req.sourceType, req.sourceKey, ckey, env.vectorDim);
    var meta := if ch.msg.Some? then SafeChatMsgMeta(env, req, i, ch.msg.value) else SafeMeta(env, req, i);
    PrepareChunk(env.repo, ckey, vid, ch.content, meta)
  }

  /** The counts after one more verdict: its item added, or the failed or skipped count raised. */
  function Count(t: (seq<Ready>, nat, nat), p: Prepared): (seq<Ready>, nat, nat)
  {
    match p
    case Failed => (t.0, t.1 + 1, t.2)
    case Skipped => (t.0, t.1, t.2 + 1)
    case ToEmbed(item) => (t.0 + [item], t.1, t.2)
  }

  /** The items to embed, the failed count and the skipped count of a run of verdicts. */
  function Tally(ps: seq<Prepared>): (r: (seq<Ready>, nat, nat))
  {
    if ps == [] then ([], 0, 0) else Count(Tally(ps[..|ps| - 1]), Last(ps))
  }

  /** Every chunk is counted once: embedded, failed or skipped. */
  lemma {:induction false} TallyTotal(ps: seq<Prepared>)
    ensures |Tally(ps).0| + Tally(ps).1 + Tally(ps).2 == |ps|
  {
    if ps != [] {
      TallyTotal(ps[..|ps| - 1]);
    }
  }

  lemma TallyStep(ps: seq<Prepared>, i: int)
    requires 0 <= i < |ps|
    ensures Tally(ps[..i + 1]) == Count(Tally(ps[..i]), ps[i])
  {
    assert ps[..i + 1][..i] == ps[..i];
  }

  function Verdicts(env: Env, req: IngestRequest, tenant: string, chunks: seq<ChunkItem>): (r: seq<Prepared>)
    ensures |r| == |chunks|
  {
    seq(|chunks|, i requires 0 <= i < |chunks| => PrepareAt(env, req, tenant, chunks, i))
  }

  /** The body of the loop: a failed or skipped chunk is counted, any other is kept to embed. */
  method CountVerdict(items0: seq<Ready>, fail0: nat, skip0: nat, p: Prepared)
    returns (items: seq<Ready>, fail: nat, skip: nat)
    ensures (items, fail, skip) == Count((items0, fail0, skip0), p)
  {
    items, fail, skip := items0, fail0, skip0;
    match p {
      case Failed => fail := fail + 1;
      case Skipped => skip := skip + 1;
      case ToEmbed(item) => items := items + [item];
    }
  }

  /** The loop over the chunks that records them and counts the failed and skipped ones. */
  method PrepareAll(env: Env, req: IngestRequest, tenant: string, chunks: seq<ChunkItem>)
    returns (items: seq<Ready>, fail: nat, skip: nat)
    ensures (items, fail, skip) == Tally(Verdicts(env, req, tenant, chunks))
    ensures |items| + fail + skip == |chunks|
  {
    ghost var ps := Verdicts(env, req, tenant, chunks);
    items, fail, skip := [], 0, 0;
    for i := 0 to |chunks|
      invariant (items, fail, skip) == Tally(ps[..i])
    {
      TallyStep(ps, i);
      var p := PrepareAt(env, req, tenant, chunks, i);
      assert p == ps[i];
      items, fail, skip := CountVerdict(items, fail, skip, p);
    }
    assert ps[..|chunks|] == ps;
    TallyTotal(ps);
  }

  // ---------------------------------------------------------------------
  // Embedding and upserting the items
  // ---------------------------------------------------------------------

  const EmbeddingMissing := "embedding result missing"

  /** fmt.Sprintf("vector dim mismatch got=%d want=%d", got, want) */
  function DimMismatch(got: int, want: int): string
  {
    "vector dim mismatch got=" + FormatInt(got) + " want=" + FormatInt(want)
  }

  /** The vector upsert item of an item with its vector. */
  function UpsertItem(req: IngestRequest, tenant: string, kbId: int, it: Ready, vec: seq<real>): MilvusEino.Item
  {
    MilvusEino.Item(it.vectorId, vec, tenant, kbId, req.sourceType, req.sourceKey, it.chunkId, it.content, it.metaJson)
  }

  /**
   * The items' vectors checked against the dimension: an item whose vector
   * has the wrong length, or has no vector at all, is marked failed; the
   * others become upsert items. (Reading a missing vector is a finding: see
   * CheckVectorsAsWritten.)
   */
  function CheckVectors(req: IngestRequest, tenant: string, kbId: int, dim: int, items: seq<Ready>, vecs: seq<seq<real>>)
    : (r: (seq<MilvusEino.Item>, seq<StatusWrite>))
    ensures |r.0| + |r.1| == |items|
    ensures forall k :: 0 <= k < |r.0| ==> |r.0[k].vector| == dim
    ensures forall k :: 0 <= k < |r.1| ==> r.1[k].status == EmbedFailed
  {
    if items == [] then ([], [])
    else
      var n := |items| - 1;
      var t := CheckVectors(req, tenant, kbId, dim, items[..n], vecs);
      var it := items[n];
      if n >= |vecs| then (t.0, t.1 + [StatusWrite(it.vectorId, EmbedFailed, EmbeddingMissing)])
      else if |vecs[n]| != dim then (t.0, t.1 + [StatusWrite(it.vectorId, EmbedFailed, DimMismatch(|vecs[n]|, dim))])
      else (t.0 + [UpsertItem(req, tenant, kbId, it, vecs[n])], t.1)
  }

  /**
   * The dimension check as ingestNode writes it: it reads vecs[i] for every
   * item without comparing i with len(vecs), so an embedder that answers
   * fewer vectors than texts makes it panic (None).
   */
  function CheckVectorsAsWritten(req: IngestRequest, tenant: string, kbId: int, dim: int, items: seq<Ready>, vecs: seq<seq<real>>)
    : (r: Option<(seq<MilvusEino.Item>, seq<StatusWrite>)>)
  {
    if |vecs| < |items| then None else Some(CheckVectors(req, tenant, kbId, dim, items, vecs))
  }

  /**
   * One item and no vector: the code as written panics, while the
   * corrected check marks the item failed, as embedNode of the ingest graph
   * does, and every item is still accounted for.
   */
  lemma ShortEmbeddingPanics(req: IngestRequest, tenant: string, kbId: int, dim: int, it: Ready)
    ensures CheckVectorsAsWritten(req, tenant, kbId, dim, [it], []) == None
    ensures CheckVectors(req, tenant, kbId, dim, [it], []) == ([], [StatusWrite(it.vectorId, EmbedFailed, EmbeddingMissing)])
  {
    assert [it][..0] == [];
    assert CheckVectors(req, tenant, kbId, dim, [], []) == ([], []);
    assert [] + [StatusWrite(it.vectorId, EmbedFailed, EmbeddingMissing)] == [StatusWrite(it.vectorId, EmbedFailed, EmbeddingMissing)];
  }

  /** With a vector for every item, the code as written and the corrected check agree. */
  lemma CheckVectorsAgree(req: IngestRequest, tenant: string, kbId: int, dim: int, items: seq<Ready>, vecs: seq<seq<real>>)
    requires |vecs| >= |items|
    ensures CheckVectorsAsWritten(req, tenant, kbId, dim, items, vecs) == Some(CheckVectors(req, tenant, kbId, dim, items, vecs))
  {
  }

  lemma CheckVectorsStep(req: IngestRequest, tenant: string, kbId: int, dim: int, items: seq<Ready>, vecs: seq<seq<real>>, i: int)
    requires 0 <= i < |items|
    ensures var t := CheckVectors(req, tenant, kbId, dim, items[..i], vecs);
      CheckVectors(req, tenant, kbId, dim, items[..i + 1], vecs) ==
        if i >= |vecs| then (t.0, t.1 + [StatusWrite(items[i].vectorId, EmbedFailed, EmbeddingMissing)])
        else if |vecs[i]| != dim then (t.0, t.1 + [StatusWrite(items[i].vectorId, EmbedFailed, DimMismatch(|vecs[i]|, dim))])
        else (t.0 + [UpsertItem(req, tenant, kbId, items[i], vecs[i])], t.1)
  {
    assert items[..i + 1][..i] == items[..i];
  }

  /** The dimension-check loop, with a missing vector counted as a failure. */
  method CheckAll(req: IngestRequest, tenant: string, kbId: int, dim: int, items: seq<Ready>, vecs: seq<seq<real>>)
    returns (upserts: seq<MilvusEino.Item>, writes: seq<StatusWrite>)
    ensures (upserts, writes) == CheckVectors(req, tenant, kbId, dim, items, vecs)
  {
    upserts, writes := [], [];
    for i := 0 to |items|
      invariant (upserts, writes) == CheckVectors(req, tenant, kbId, dim, items[..i], vecs)
    {
      CheckVectorsStep(req, tenant, kbId, dim, items, vecs, i);
      if i >= |vecs| {
        writes := writes + [StatusWrite(items[i].vectorId, EmbedFailed, EmbeddingMissing)];
        continue;
      }
      var vec := vecs[i];
      if |vec| != dim {
        writes := writes + [StatusWrite(items[i].vectorId, EmbedFailed, DimMismatch(|vec|, dim))];
        continue;
      }
      upserts := upserts + [UpsertItem(req, tenant, kbId, items[i], vec)];
    }
    assert items[..|items|] == items;
  }

  /** Every id of `ids` marked with `status` and `msg`, in order. */
  function MarkAll(ids: seq<string>, status: int, msg: string): (r: seq<StatusWrite>)
    ensures |r| == |ids|
    ensures forall k :: 0 <= k < |ids| ==> r[k] == StatusWrite(ids[k], status, msg)
  {
    seq(|ids|, k requires 0 <= k < |ids| => StatusWrite(ids[k], status, msg))
  }

  function ItemIds(items: seq<Ready>): (r: seq<string>)
    ensures |r| == |items| && forall k :: 0 <= k < |items| ==> r[k] == items[k].vectorId
  {
    seq(|items|, k requires 0 <= k < |items| => items[k].vectorId)
  }

  function UpsertIds(ups: seq<MilvusEino.Item>): (r: seq<string>)
    ensures |r| == |ups| && forall k :: 0 <= k < |ups| ==> r[k] == ups[k].id
  {
    seq(|ups|, k requires 0 <= k < |ups| => ups[k].id)
  }

  /**
   * The tail of ingestNode, from the items to embed: the embedder's failure
   * fails every item; otherwise the items of the right dimension are
   * upserted together, and the store's failure fails all of them, its
   * success marks all of them succeeded. Every item is counted once, as
   * upserted or failed; nothing is counted upserted when an error is
   * returned.
   */
  method EmbedAndUpsert(req: IngestRequest, tenant: string, kbId: int, dim: int, items: seq<Ready>,
                        embed: seq<string> -> Result<seq<seq<real>>>, upsert: seq<MilvusEino.Item> -> Option<Error>)
    returns (ok: nat, fail: nat, err: Option<Error>, writes: seq<StatusWrite>)
    requires |items| > 0
    ensures ok + fail == |items|
    ensures err.Some? ==> ok == 0
    ensures var texts := seq(|items|, k requires 0 <= k < |items| => items[k].text);
      embed(texts).Err? ==> err == Some(embed(texts).error) && writes == MarkAll(ItemIds(items), EmbedFailed, embed(texts).error.msg)
    ensures var texts := seq(|items|, k requires 0 <= k < |items| => items[k].text);
      embed(texts).Ok? ==>
        var (ups, bad) := CheckVectors(req, tenant, kbId, dim, items, embed(texts).value);
        && (ups == [] ==> err == None && ok == 0 && writes == bad)
        && (ups != [] && upsert(ups).Some? ==>
              err == upsert(ups) && writes == bad + MarkAll(UpsertIds(ups), EmbedFailed, upsert(ups).value.msg))
        && (ups != [] && upsert(ups).None? ==>
              err == None && ok == |ups| && writes == bad + MarkAll(UpsertIds(ups), EmbedSucceeded, ""))
  {
    var texts := [];
    for i := 0 to |items|
      invariant texts == seq(i, k requires 0 <= k < i => items[k].text)
    {
      texts := texts + [items[i].text];
    }
    match embed(texts) {
      case Err(e) =>
        return 0, |items|, Some(e), MarkAll(ItemIds(items), EmbedFailed, e.msg);
      case Ok(vecs) =>
        var ups, bad := CheckAll(req, tenant, kbId, dim, items, vecs);
        if |ups| == 0 {
          return 0, |bad|, None, bad;
        }
        match upsert(ups) {
          case Some(e) =>
            return 0, |bad| + |ups|, Some(e), bad + MarkAll(UpsertIds(ups), EmbedFailed, e.msg);
          case None =>
            return |ups|, |bad|, None, bad + MarkAll(UpsertIds(ups), EmbedSucceeded, "");
        }
    }
  }

  // ---------------------------------------------------------------------
  // ingestNode
  // ---------------------------------------------------------------------

  const MissingTenant := "missing tenant_user_id"
  const MissingSource := "missing source_type/source_key"

  /** The units of a request, built the way ingestNode builds them (the chat filter is its loop). */
  method BuildUnits(req: IngestRequest, segments: seq<string>, clock: int -> string) returns (units: seq<Unit>)
    ensures units == Units(req, segments, clock)
  {
    if |req.documents| > 0 {
      units := NumberedUnits("doc_", req.documents);
    } else if req.sourceType == ChatPrivate || req.sourceType == ChatGroup {
      var kept := FilterChat(req.messages);
      units := ChatUnits(SortChat(kept), clock);
    } else {
      units := NumberedUnits("seg_", segments);
    }
  }

  /**
   * ingestNode, the single-node ingest. It is not reached from Ingest, which
   * runs the graph of the ingest graph module; it is kept as the reference
   * for chunk counting. `segments` is what the chat-turn merger cuts from
   * the request's messages, `clock` formats a time as "15:04:05".
   *
   * A blank tenant, source type or source key, and a failure to ensure the
   * knowledge base or source, give no result and the error. Otherwise the
   * result counts every collected chunk exactly once, as upserted, skipped
   * or failed, and nothing as upserted when an error comes back with it.
   */
  method IngestNode(env: Env, req: IngestRequest, segments: seq<string>, chunker: Chunking.SimpleChunker,
                    clock: int -> string, embed: seq<string> -> Result<seq<seq<real>>>,
                    upsert: seq<MilvusEino.Item> -> Option<Error>)
    returns (res: Option<IngestResult>, err: Option<Error>, writes: seq<StatusWrite>)
    requires chunker.Valid()
    ensures IsBlank(req.tenantUserId) ==> res == None && err == Some(PlainErr(MissingTenant)) && writes == []
    ensures !IsBlank(req.tenantUserId) && (IsBlank(req.sourceType) || IsBlank(req.sourceKey)) ==>
      res == None && err == Some(PlainErr(MissingSource)) && writes == []
    ensures res.None? ==> err.Some? && writes == []
    ensures res.Some? ==>
      && res.value.tenantUserId == TrimSpace(req.tenantUserId)
      && res.value.sourceType == req.sourceType && res.value.sourceKey == req.sourceKey
      && res.value.messages == |req.messages| && res.value.segments == 0
      && res.value.chunks == |ChunkItems(chunker, Units(req, segments, clock))|
      && res.value.vectorsOk + res.value.vectorsSkip + res.value.vectorsFail == res.value.chunks
      && (err.Some? ==> res.value.vectorsOk == 0)
  {
    var src := EnsureSource(env.repo, req);
    if src.Err? {
      return None, Some(src.error), [];
    }
    var (tenant, kbId, sourceId) := src.value;
    var r;
    r, err, writes := IngestChunks(env, req, tenant, kbId, sourceId, segments, chunker, clock, embed, upsert);
    res := Some(r);
  }

  /**
   * ingestNode's guards and the knowledge base and source it ensures: the
   * trimmed tenant, the knowledge base id and the source id, or the error.
   */
  method EnsureSource(repo: RagRepo, req: IngestRequest) returns (r: Result<(string, int, int)>)
    ensures IsBlank(req.tenantUserId) ==> r == Err(PlainErr(MissingTenant))
    ensures !IsBlank(req.tenantUserId) && (IsBlank(req.sourceType) || IsBlank(req.sourceKey)) ==>
      r == Err(PlainErr(MissingSource))
    ensures r.Ok? ==> r.value.0 == TrimSpace(req.tenantUserId) && !IsBlank(req.sourceType) && !IsBlank(req.sourceKey)
  {
    var tenant := TrimSpace(req.tenantUserId);
    if tenant == [] {
      return Err(PlainErr(MissingTenant));
    }
    if TrimSpace(req.sourceType) == [] || TrimSpace(req.sourceKey) == [] {
      return Err(PlainErr(MissingSource));
    }
    var kb := repo.ensureKnowledgeBase(tenant);
    if kb.Err? {
      return Err(kb.error);
    }
    var src := repo.ensureKnowledgeSource(kb.value, req.sourceType, req.sourceKey, tenant);
    if src.Err? {
      return Err(src.error);
    }
    return Ok((tenant, kb.value, src.value));
  }

  /** The part of ingestNode after the knowledge base and source exist: chunk, prepare, embed, upsert. */
  method IngestChunks(env: Env, req: IngestRequest, tenant: string, kbId: int, sourceId: int,
                      segments: seq<string>, chunker: Chunking.SimpleChunker, clock: int -> string,
                      embed: seq<string> -> Result<seq<seq<real>>>, upsert: seq<MilvusEino.Item> -> Option<Error>)
    returns (res: IngestResult, err: Option<Error>, writes: seq<StatusWrite>)
    requires chunker.Valid()
    ensures res.tenantUserId == tenant && res.kbId == kbId && res.sourceId == sourceId
    ensures res.sourceType == req.sourceType && res.sourceKey == req.sourceKey
    ensures res.messages == |req.messages| && res.segments == 0
    ensures res.chunks == |ChunkItems(chunker, Units(req, segments, clock))|
    ensures res.vectorsOk + res.vectorsSkip + res.vectorsFail == res.chunks
    ensures err.Some? ==> res.vectorsOk == 0
  {
    var units := BuildUnits(req, segments, clock);
    var chunks := CollectChunks(chunker, units);
    res := IngestResult(tenant, req.sourceType, req.sourceKey, kbId, sourceId, |req.messages|, 0, |chunks|, 0, 0, 0);
    err, writes := None, [];
    if |chunks| == 0 {
      return;
    }
    var items, fail, skip := PrepareAll(env, req, tenant, chunks);
    if |items| == 0 {
      res := res.(vectorsSkip := skip, vectorsFail := fail);
      return;
    }
    var ok, failed;
    ok, failed, err, writes := EmbedAndUpsert(req, tenant, kbId, env.vectorDim, items, embed, upsert);
    res := res.(vectorsOk := ok, vectorsSkip := skip, vectorsFail := fail + failed);
  }
}
