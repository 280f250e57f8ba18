/**
 * The ingest graph (RAGIngestPipeline), which is what Ingest runs: the
 * nodes Prepare, MergeTurns, Chunk, Embed, Upsert and StatusUpdate, in that
 * order, each updating one shared ingest state. Once a node has recorded an
 * error, the nodes after it pass the state on untouched, and StatusUpdate
 * turns the state into the result, marking the vector records failed or
 * succeeded.
 *
 * The chat-turn merger's segments, the chunker's documents, the embedder's
 * vectors and the vector store's upsert are parameters; the indexer's Store
 * is the one of MilvusEino. UpdateVectorStatus calls, whose errors the graph
 * ignores, are returned as the sequence of writes they make.
 */
module IngestGraph {
  import opened Common
  import opened Seqs
  import opened GoStrings
  import MilvusEino
  import IngestPipeline

  type Doc = MilvusEino.Doc
  type Meta = MilvusEino.Meta
  type IngestRequest = IngestPipeline.IngestRequest
  type IngestResult = IngestPipeline.IngestResult
  type RagRepo = IngestPipeline.RagRepo
  type Env = IngestPipeline.Env
  type StatusWrite = IngestPipeline.StatusWrite

  // ---------------------------------------------------------------------
  // metaInt
  // ---------------------------------------------------------------------

  /** metaInt: a Go int, int64, float64 or float32 value, the floats truncated; anything else is (0, false). */
  function MetaInt(m: Meta, key: string): (r: (int, bool))
    ensures !r.1 ==> r.0 == 0
  {
    match MilvusEino.Lookup(m, key)
    case Int(i) => (i, true)
    case I64(i) => (i, true)
    case F64(x) => (MilvusEino.TruncateReal(x), true)
    case F32(x) => (MilvusEino.TruncateReal(x), true)
    case _ => (0, false)
  }

  /**
   * A nil map, a missing key and a nil value read as (0, false), and so do
   * the int32, string and json.Number values metaInt64 would still read;
   * whatever metaInt reads, metaInt64 reads as the same number.
   */
  lemma MetaIntAgainstMetaInt64(m: Meta, key: string)
    ensures m.None? || key !in m.value ==> MetaInt(m, key) == (0, false)
    ensures var v := MilvusEino.Lookup(m, key);
      v.Nil? || v.I32? || v.Str? || v.JsonNumber? || v.Other? ==> MetaInt(m, key) == (0, false)
    ensures MetaInt(m, key).1 ==> MilvusEino.MetaInt64(m, key) == Some(MetaInt(m, key).0)
    ensures var v := MilvusEino.Lookup(m, key); v.I32? ==> MilvusEino.MetaInt64(m, key) == Some(v.i)
  {
  }

  /** An index stored as a Go int reads back as itself. */
  lemma MetaIntReadsInt(m: map<string, MilvusEino.Any>, key: string, v: int)
    ensures MetaInt(Some(m[key := MilvusEino.Int(v)]), key) == (v, true)
  {
  }

  // ---------------------------------------------------------------------
  // prepareNode
  // ---------------------------------------------------------------------

  /** The request with its tenant, source type and source key trimmed, as prepareNode stores it back. */
  function TrimRequest(req: IngestRequest): (r: IngestRequest)
    ensures r.tenantUserId == TrimSpace(req.tenantUserId)
    ensures r.sourceType == TrimSpace(req.sourceType) && r.sourceKey == TrimSpace(req.sourceKey)
    ensures r.messages == req.messages && r.documents == req.documents
  {
    req.(tenantUserId := TrimSpace(req.tenantUserId), sourceType := TrimSpace(req.sourceType),
         sourceKey := TrimSpace(req.sourceKey))
  }

  /**
   * What prepareNode settles: a blank tenant, then a blank source type or
   * key, is an error before any repository call; otherwise the knowledge
   * base and then the source are ensured, for the trimmed tenant and source.
   */
  function PrepareOutcome(req: IngestRequest, repo: RagRepo): (r: Result<(int, int)>)
    ensures IsBlank(req.tenantUserId) ==> r == Err(PlainErr(IngestPipeline.MissingTenant))
    ensures !IsBlank(req.tenantUserId) && (IsBlank(req.sourceType) || IsBlank(req.sourceKey)) ==>
      r == Err(PlainErr(IngestPipeline.MissingSource))
    ensures r.Ok? ==> !IsBlank(req.tenantUserId) && !IsBlank(req.sourceType) && !IsBlank(req.sourceKey)
    ensures r.Ok? ==>
      && repo.ensureKnowledgeBase(TrimSpace(req.tenantUserId)) == Ok(r.value.0)
      && repo.ensureKnowledgeSource(r.value.0, TrimSpace(req.sourceType), TrimSpace(req.sourceKey),
                                    TrimSpace(req.tenantUserId)) == Ok(r.value.1)
  {
    var t := TrimRequest(req);
    if t.tenantUserId == [] then Err(PlainErr(IngestPipeline.MissingTenant))
    else if t.sourceType == [] || t.sourceKey == [] then Err(PlainErr(IngestPipeline.MissingSource))
    else
      match repo.ensureKnowledgeBase(t.tenantUserId)
      case Err(e) => Err(e)
      case Ok(kb) =>
        match repo.ensureKnowledgeSource(kb, t.sourceType, t.sourceKey, t.tenantUserId)
        case Err(e) => Err(e)
        case Ok(src) => Ok((kb, src))
  }

  // ---------------------------------------------------------------------
  // mergeTurnsNode
  // ---------------------------------------------------------------------

  /** The trimmed non-blank segments, in order. */
  function NonBlankSegments(segs: seq<string>): (r: seq<string>)
    ensures |r| <= |segs|
  {
    if segs == [] then []
    else
      var t := TrimSpace(Last(segs));
      NonBlankSegments(segs[..|segs| - 1]) + (if t == [] then [] else [t])
  }

  lemma NonBlankSegmentsStep(segs: seq<string>, i: int)
    requires 0 <= i < |segs|
    ensures var t := TrimSpace(segs[i]);
      NonBlankSegments(segs[..i + 1]) == NonBlankSegments(segs[..i]) + (if t == [] then [] else [t])
  {
    assert segs[..i + 1][..i] == segs[..i];
  }

  /** A segment as mergeTurnsNode keeps it: not empty, and already trimmed. */
  predicate TrimmedSegment(x: string)
  {
    x != [] && TrimSpace(x) == x
  }

  /** Every kept segment is trimmed and not empty. */
  lemma {:induction false} NonBlankSegmentsTrimmed(segs: seq<string>)
    ensures forall k :: 0 <= k < |NonBlankSegments(segs)| ==> TrimmedSegment(NonBlankSegments(segs)[k])
  {
    if segs != [] {
      var init := segs[..|segs| - 1];
      NonBlankSegmentsTrimmed(init);
      var t := TrimSpace(Last(segs));
      TrimSpaceIdempotent(Last(segs));
      var r0 := NonBlankSegments(init);
      if t != [] {
        assert TrimmedSegment(t);
        assert NonBlankSegments(segs) == r0 + [t];
      } else {
        assert NonBlankSegments(segs) == r0 + [];
      }
    }
  }

  /** When no segment is blank, every one of them is kept, trimmed, in its place. */
  lemma {:induction false} NonBlankSegmentsAll(segs: seq<string>)
    requires forall j :: 0 <= j < |segs| ==> !IsBlank(segs[j])
    ensures |NonBlankSegments(segs)| == |segs|
    ensures forall j :: 0 <= j < |segs| ==> NonBlankSegments(segs)[j] == TrimSpace(segs[j])
  {
    if segs != [] {
      var init := segs[..|segs| - 1];
      assert forall j :: 0 <= j < |init| ==> init[j] == segs[j];
      NonBlankSegmentsAll(init);
      var t := TrimSpace(Last(segs));
      assert !IsBlank(Last(segs));
      var r0 := NonBlankSegments(init);
      assert NonBlankSegments(segs) == r0 + [t];
      forall j | 0 <= j < |segs|
        ensures NonBlankSegments(segs)[j] == TrimSpace(segs[j])
      {
        if j < |init| {
          assert NonBlankSegments(segs)[j] == r0[j];
        }
      }
    }
  }

  /** The metadata mergeTurnsNode gives the segment numbered `k`. */
  function SegmentMeta(req: IngestRequest, kbId: int, k: int): map<string, MilvusEino.Any>
  {
    map["tenant_user_id" := MilvusEino.Str(req.tenantUserId),
        "kb_id" := MilvusEino.I64(kbId),
        "source_type" := MilvusEino.Str(req.sourceType),
        "source_key" := MilvusEino.Str(req.sourceKey),
        "session_uuid" := MilvusEino.Str(req.sessionUuid),
        "session_type" := MilvusEino.Int(req.sessionType),
        "session_name" := MilvusEino.Str(req.sessionName),
        "segment_index" := MilvusEino.Int(k)]
  }

  function SegmentDoc(req: IngestRequest, kbId: int, seg: string, k: int): Doc
  {
    MilvusEino.Doc("", seg, [], Some(SegmentMeta(req, kbId, k)))
  }

  /** The documents of the kept segments, numbered from 0 in order. */
  function SegmentDocs(req: IngestRequest, kbId: int, kept: seq<string>): (r: seq<Doc>)
    ensures |r| == |kept|
  {
    seq(|kept|, k requires 0 <= k < |kept| => SegmentDoc(req, kbId, kept[k], k))
  }

  lemma SegmentDocsSnoc(req: IngestRequest, kbId: int, kept: seq<string>, seg: string)
    ensures SegmentDocs(req, kbId, kept + [seg]) == SegmentDocs(req, kbId, kept) + [SegmentDoc(req, kbId, seg, |kept|)]
  {
  }

  lemma SegmentMetaIndex(req: IngestRequest, kbId: int, k: int)
    ensures MetaInt(Some(SegmentMeta(req, kbId, k)), "segment_index") == (k, true)
  {
    var m := SegmentMeta(req, kbId, k);
    assert "segment_index" in m && m["segment_index"] == MilvusEino.Int(k);
  }

  /**
   * segment_index runs 0 .. n-1 over the documents of the non-blank
   * segments, and each document carries its trimmed, non-empty segment.
   */
  lemma SegmentIndexNumbered(req: IngestRequest, kbId: int, segs: seq<string>)
    ensures var kept := NonBlankSegments(segs); var docs := SegmentDocs(req, kbId, kept);
      forall k :: 0 <= k < |docs| ==>
        && MetaInt(docs[k].metaData, "segment_index") == (k, true)
        && docs[k].content == kept[k] && TrimmedSegment(docs[k].content)
  {
    NonBlankSegmentsTrimmed(segs);
    var kept := NonBlankSegments(segs);
    var docs := SegmentDocs(req, kbId, kept);
    forall k | 0 <= k < |docs|
      ensures MetaInt(docs[k].metaData, "segment_index") == (k, true)
    {
      SegmentMetaIndex(req, kbId, k);
    }
  }

  /** mergeTurnsNode's loop: the documents of the non-blank segments. */
  method MergeSegments(req: IngestRequest, kbId: int, segs: seq<string>) returns (docs: seq<Doc>)
    ensures docs == SegmentDocs(req, kbId, NonBlankSegments(segs))
  {
    docs := [];
    for i := 0 to |segs|
      invariant docs == SegmentDocs(req, kbId, NonBlankSegments(segs[..i]))
    {
      NonBlankSegmentsStep(segs, i);
      var seg := TrimSpace(segs[i]);
      if seg == [] {
        assert NonBlankSegments(segs[..i]) + [] == NonBlankSegments(segs[..i]);
        continue;
      }
      SegmentDocsSnoc(req, kbId, NonBlankSegments(segs[..i]), seg);
      docs := docs + [SegmentDoc(req, kbId, seg, |docs|)];
    }
    assert segs[..|segs|] == segs;
  }

  // ---------------------------------------------------------------------
  // chunkNode
  // ---------------------------------------------------------------------

  /** buildMetadataJSON: the session fields and the chunk's position, as JSON, or "{}" when marshalling fails. */
  function MetadataJson(env: Env, req: IngestRequest, segIndex: int, chunkIndex: int): (r: string)
    ensures r != []
  {
    IngestPipeline.JsonOr(env.marshal(map["session_uuid" := MilvusEino.Str(req.sessionUuid),
                                          "session_type" := MilvusEino.Int(req.sessionType),
                                          "session_name" := MilvusEino.Str(req.sessionName),
                                          "segment_index" := MilvusEino.Int(segIndex),
                                          "chunk_index" := MilvusEino.Int(chunkIndex)]))
  }

  /** A chunk document as chunkNode passes it on: its vector id, its stored content and the fields of its record. */
  function ChunkDoc(d: Doc, vectorId: string, content: string, req: IngestRequest, kbId: int,
                    chunkId: int, metaJson: string): Doc
  {
    var base := if d.metaData.None? then map[] else d.metaData.value;
    d.(id := vectorId, content := IngestPipeline.Truncate4096(content),
       metaData := Some(base["tenant_user_id" := MilvusEino.Str(req.tenantUserId)]
                            ["kb_id" := MilvusEino.I64(kbId)]
                            ["source_type" := MilvusEino.Str(req.sourceType)]
                            ["source_key" := MilvusEino.Str(req.sourceKey)]
                            ["chunk_id" := MilvusEino.I64(chunkId)]
                            ["metadata" := MilvusEino.Str(metaJson)]))
  }

  /** What chunkNode does with one document of the chunker. */
  datatype ChunkStep =
    | Dropped                                 // nil, or blank content: not counted
    | Halted(error: Error)                    // a repository call failed: counted, and the node stops
    | AlreadyEmbedded                         // the chunk's vector has succeeded: counted as skipped
    | Attempted(doc: Doc, vectorId: string)   // recorded, and passed on to be embedded

  /** The vector id of a known chunk: its record's id, trimmed, unless that is blank. */
  function KnownVectorId(defaultId: string, vr: Option<IngestPipeline.VectorRecord>): (r: string)
    ensures vr.Some? && !IsBlank(vr.value.vectorId) ==> r == TrimSpace(vr.value.vectorId)
    ensures vr.None? || IsBlank(vr.value.vectorId) ==> r == defaultId
  {
    if vr.Some? && TrimSpace(vr.value.vectorId) != [] then TrimSpace(vr.value.vectorId) else defaultId
  }

  /**
   * The repository's part of chunkNode for one non-blank chunk: a known
   * chunk whose vector has succeeded is skipped; a known chunk keeps its
   * record's vector id and gets a pending record if it has none; a new
   * chunk is created with a pending record under the default id.
   */
  function RecordChunk(repo: RagRepo, ckey: string, defaultId: string, d: Doc, content: string,
                       req: IngestRequest, kbId: int, metaJson: string): (r: ChunkStep)
    ensures !r.Dropped?
  {
    match repo.chunkByKey(ckey)
    case Err(e) => Halted(e)
    case Ok(None) =>
      (match repo.createChunkAndVectorRecord(ckey, defaultId)
       case Err(e) => Halted(e)
       case Ok(cid) => Attempted(ChunkDoc(d, defaultId, content, req, kbId, cid, metaJson), defaultId))
    case Ok(Some(cid)) =>
      match repo.vectorRecordOfChunk(cid)
      case Err(e) => Halted(e)
      case Ok(vr) =>
        if vr.Some? && vr.value.embedStatus == IngestPipeline.EmbedSucceeded then AlreadyEmbedded
        else
          var vid := KnownVectorId(defaultId, vr);
          if vr.None? && repo.createVectorRecord(cid, vid).Some? then Halted(repo.createVectorRecord(cid, vid).value)
          else Attempted(ChunkDoc(d, vid, content, req, kbId, cid, metaJson), vid)
  }

  /** The chunk key of a chunk: its source, its segment and chunk index, and its content's digest. */
  function GraphChunkKey(env: Env, req: IngestRequest, d: Doc, content: string): string
  {
    IngestPipeline.ChunkKey(env.hash, req.tenantUserId, req.sourceType, req.sourceKey,
                            FormatInt(MetaInt(d.metaData, "segment_index").0),
                            MetaInt(d.metaData, "chunk_index").0, content)
  }

  /** The default vector id of a chunk, from its chunk key and the vector dimension. */
  function DefaultVectorId(env: Env, req: IngestRequest, d: Doc, content: string): string
  {
    IngestPipeline.VectorId(env.hash, req.tenantUserId, req.sourceType, req.sourceKey,
                            GraphChunkKey(env, req, d, content), env.vectorDim)
  }

  /** The metadata JSON of a chunk, from the indexes its document carries. */
  function ChunkMetaJson(env: Env, req: IngestRequest, d: Doc): string
  {
    MetadataJson(env, req, MetaInt(d.metaData, "segment_index").0, MetaInt(d.metaData, "chunk_index").0)
  }

  /** chunkNode's treatment of one document of the chunker. */
  function StepOf(env: Env, req: IngestRequest, kbId: int, d: Option<Doc>): ChunkStep
  {
    if d.None? || IsBlank(d.value.content) then Dropped
    else
      var content := TrimSpace(d.value.content);
      RecordChunk(env.repo, GraphChunkKey(env, req, d.value, content), DefaultVectorId(env, req, d.value, content),
                  d.value, content, req, kbId, ChunkMetaJson(env, req, d.value))
  }

  /** A default vector id is never blank: it starts with "v_". */
  lemma VectorIdNotBlank(env: Env, req: IngestRequest, ckey: string)
    ensures !IsBlank(IngestPipeline.VectorId(env.hash, req.tenantUserId, req.sourceType, req.sourceKey, ckey, env.vectorDim))
  {
    var v := IngestPipeline.VectorId(env.hash, req.tenantUserId, req.sourceType, req.sourceKey, ckey, env.vectorDim);
    assert v[0] == 'v' && !IsSpace(v[0]);
    TrimSpaceEmpty(v);
  }

  /**
   * The repository's verdict: skipped exactly when the chunk is known and
   * its vector record says the embedding succeeded; a chunk passed on
   * carries its vector id as its document id, the record's trimmed id or
   * the default one, and its content cut to 4096 characters.
   */
  lemma RecordChunkCases(repo: RagRepo, ckey: string, defaultId: string, d: Doc, content: string,
                         req: IngestRequest, kbId: int, metaJson: string)
    requires !IsBlank(defaultId)
    ensures var s := RecordChunk(repo, ckey, defaultId, d, content, req, kbId, metaJson);
      (s == AlreadyEmbedded <==>
         && repo.chunkByKey(ckey).Ok? && repo.chunkByKey(ckey).value.Some?
         && var vr := repo.vectorRecordOfChunk(repo.chunkByKey(ckey).value.value);
            vr.Ok? && vr.value.Some? && vr.value.value.embedStatus == IngestPipeline.EmbedSucceeded)
    ensures var s := RecordChunk(repo, ckey, defaultId, d, content, req, kbId, metaJson);
      s.Attempted? ==>
        && s.doc.id == s.vectorId && !IsBlank(s.vectorId)
        && s.doc.content == IngestPipeline.Truncate4096(content)
  {
    var s := RecordChunk(repo, ckey, defaultId, d, content, req, kbId, metaJson);
    if s.Attempted? && s.vectorId != defaultId {
      var vr := repo.vectorRecordOfChunk(repo.chunkByKey(ckey).value.value).value;
      TrimSpaceIdempotent(vr.value.vectorId);
    }
  }

  /**
   * chunkNode drops exactly the nil and blank documents, and records the
   * others by their trimmed content, so that the verdicts of
   * RecordChunkCases apply to them; a document it passes on carries a
   * non-blank vector id as its id.
   */
  lemma StepOfCases(env: Env, req: IngestRequest, kbId: int, d: Option<Doc>)
    ensures var s := StepOf(env, req, kbId, d);
      (s == Dropped <==> d.None? || IsBlank(d.value.content))
    ensures d.Some? && !IsBlank(d.value.content) ==>
      var content := TrimSpace(d.value.content);
      StepOf(env, req, kbId, d)
      == RecordChunk(env.repo, GraphChunkKey(env, req, d.value, content), DefaultVectorId(env, req, d.value, content),
                     d.value, content, req, kbId, ChunkMetaJson(env, req, d.value))
    ensures var s := StepOf(env, req, kbId, d);
      s.Attempted? ==>
        && s.doc.id == s.vectorId && !IsBlank(s.vectorId)
        && s.doc.content == IngestPipeline.Truncate4096(TrimSpace(d.value.content))
  {
    if d.Some? && !IsBlank(d.value.content) {
      var content := TrimSpace(d.value.content);
      VectorIdNotBlank(env, req, GraphChunkKey(env, req, d.value, content));
      RecordChunkCases(env.repo, GraphChunkKey(env, req, d.value, content), DefaultVectorId(env, req, d.value, content),
                       d.value, content, req, kbId, ChunkMetaJson(env, req, d.value));
    }
  }

  /** A step as chunkNode makes it: a document passed on is keyed by its vector id, which is not blank. */
  predicate WellFormedStep(s: ChunkStep)
  {
    s.Attempted? ==> s.doc.id == s.vectorId && !IsBlank(s.vectorId)
  }

  /** The state of chunkNode's loop: the documents passed on, their vector ids, the counts, and the error that stopped it. */
  datatype ChunkRun = ChunkRun(out: seq<Doc>, attempted: seq<string>, counted: nat, skipped: nat, error: Option<Error>)

  /** One more step of the loop; nothing moves once an error has stopped it. */
  function Advance(run: ChunkRun, s: ChunkStep): ChunkRun
  {
    if run.error.Some? then run
    else
      match s
      case Dropped => run
      case Halted(e) => run.(counted := run.counted + 1, error := Some(e))
      case AlreadyEmbedded => run.(counted := run.counted + 1, skipped := run.skipped + 1)
      case Attempted(d, v) => run.(out := run.out + [d], attempted := run.attempted + [v], counted := run.counted + 1)
  }

  function RunSteps(steps: seq<ChunkStep>): ChunkRun
  {
    if steps == [] then ChunkRun([], [], 0, 0, None) else Advance(RunSteps(steps[..|steps| - 1]), Last(steps))
  }

  lemma RunStepsStep(steps: seq<ChunkStep>, i: int)
    requires 0 <= i < |steps|
    ensures RunSteps(steps[..i + 1]) == Advance(RunSteps(steps[..i]), steps[i])
  {
    assert steps[..i + 1][..i] == steps[..i];
  }

  /** The number of steps of each kind. */
  function CountOf(steps: seq<ChunkStep>, dropped: bool): (n: nat)
    ensures n <= |steps|
  {
    if steps == [] then 0
    else
      var s := Last(steps);
      CountOf(steps[..|steps| - 1], dropped) + (if (dropped && s.Dropped?) || (!dropped && s.AlreadyEmbedded?) then 1 else 0)
  }

  /** No step failed. */
  predicate NoHalt(steps: seq<ChunkStep>)
  {
    forall k :: 0 <= k < |steps| ==> !steps[k].Halted?
  }

  /** Every counted chunk is skipped, passed on, or the one whose failure stopped the loop. */
  lemma {:induction false} RunCounts(steps: seq<ChunkStep>)
    ensures var r := RunSteps(steps);
      && r.counted == r.skipped + |r.attempted| + (if r.error.Some? then 1 else 0)
      && |r.out| == |r.attempted|
  {
    if steps != [] {
      RunCounts(steps[..|steps| - 1]);
    }
  }

  /** Each document passed on is keyed by its vector id, and no such id is blank. */
  lemma {:induction false} RunIds(steps: seq<ChunkStep>)
    requires forall k :: 0 <= k < |steps| ==> WellFormedStep(steps[k])
    ensures var r := RunSteps(steps);
      |r.out| == |r.attempted| &&
      forall k :: 0 <= k < |r.out| ==> r.out[k].id == r.attempted[k] && !IsBlank(r.attempted[k])
  {
    RunCounts(steps);
    if steps != [] {
      var init := steps[..|steps| - 1];
      assert forall k :: 0 <= k < |init| ==> init[k] == steps[k];
      RunIds(init);
      var r0 := RunSteps(init);
      var s := Last(steps);
      assert WellFormedStep(s);
      if r0.error.None? && s.Attempted? {
        var r := RunSteps(steps);
        assert r.out == r0.out + [s.doc] && r.attempted == r0.attempted + [s.vectorId];
      }
    }
  }

  /**
   * The loop ends with an error exactly when some step failed, and
   * without one it has counted every chunk it did not drop and skipped
   * every chunk whose vector had succeeded.
   */
  lemma {:induction false} RunHalts(steps: seq<ChunkStep>)
    ensures var r := RunSteps(steps);
      && (r.error.None? <==> NoHalt(steps))
      && (r.error.None? ==> r.counted == |steps| - CountOf(steps, true) && r.skipped == CountOf(steps, false))
  {
    if steps != [] {
      var init := steps[..|steps| - 1];
      assert forall k :: 0 <= k < |init| ==> init[k] == steps[k];
      RunHalts(init);
      assert NoHalt(steps) <==> NoHalt(init) && !Last(steps).Halted?;
    }
  }

  /** Once a step has failed, the rest of the chunks change nothing. */
  lemma {:induction false} RunAfterError(steps: seq<ChunkStep>, i: int)
    requires 0 <= i <= |steps|
    requires RunSteps(steps[..i]).error.Some?
    ensures RunSteps(steps) == RunSteps(steps[..i])
  {
    if i < |steps| {
      assert steps[..|steps| - 1][..i] == steps[..i];
      RunAfterError(steps[..|steps| - 1], i);
    } else {
      assert steps[..i] == steps;
    }
  }

  /** chunkNode's verdicts on the chunker's documents. */
  function Steps(env: Env, req: IngestRequest, kbId: int, ds: seq<Option<Doc>>): (r: seq<ChunkStep>)
    ensures |r| == |ds|
  {
    seq(|ds|, k requires 0 <= k < |ds| => StepOf(env, req, kbId, ds[k]))
  }

  /** Every verdict chunkNode gives is well formed. */
  lemma StepsWellFormed(env: Env, req: IngestRequest, kbId: int, ds: seq<Option<Doc>>)
    ensures forall k :: 0 <= k < |ds| ==> WellFormedStep(Steps(env, req, kbId, ds)[k])
  {
    forall k | 0 <= k < |ds|
      ensures WellFormedStep(Steps(env, req, kbId, ds)[k])
    {
      StepOfCases(env, req, kbId, ds[k]);
    }
  }

  /** The body of chunkNode's loop for a step that does not stop it. */
  method AdvanceRun(run0: ChunkRun, s: ChunkStep) returns (run: ChunkRun)
    requires run0.error.None? && !s.Halted?
    ensures run == Advance(run0, s)
  {
    run := run0;
    match s {
      case Dropped =>
      case AlreadyEmbedded => run := run.(counted := run.counted + 1, skipped := run.skipped + 1);
      case Attempted(d, v) => run := run.(out := run.out + [d], attempted := run.attempted + [v], counted := run.counted + 1);
    }
  }

  /** chunkNode's loop over the chunker's documents, which stops at the first failing repository call. */
  method RunChunks(env: Env, req: IngestRequest, kbId: int, ds: seq<Option<Doc>>) returns (run: ChunkRun)
    ensures run == RunSteps(Steps(env, req, kbId, ds))
  {
    ghost var steps := Steps(env, req, kbId, ds);
    run := ChunkRun([], [], 0, 0, None);
    for i := 0 to |ds|
      invariant run.error.None? && run == RunSteps(steps[..i])
    {
      RunStepsStep(steps, i);
      var s := StepOf(env, req, kbId, ds[i]);
      assert s == steps[i];
      if s.Halted? {
        run := run.(counted := run.counted + 1, error := Some(s.error));
        RunAfterError(steps, i + 1);
        return;
      }
      run := AdvanceRun(run, s);
    }
    assert steps[..|ds|] == steps;
  }

  // ---------------------------------------------------------------------
  // embedNode
  // ---------------------------------------------------------------------

  /** What embedNode keeps and records: the documents with their vectors, and the error of each one dropped by id. */
  datatype EmbedRun = EmbedRun(next: seq<Doc>, errors: map<string, string>)

  /** Document `i` with the embedder's vectors: dropped with an error when its vector is missing or of the wrong size. */
  function EmbedAt(run: EmbedRun, d: Doc, i: int, vecs: seq<seq<real>>, dim: int): EmbedRun
    requires 0 <= i
  {
    if i >= |vecs| then run.(errors := run.errors[d.id := IngestPipeline.EmbeddingMissing])
    else if |vecs[i]| != dim then run.(errors := run.errors[d.id := IngestPipeline.DimMismatch(|vecs[i]|, dim)])
    else run.(next := run.next + [d.(vector := vecs[i])])
  }

  function EmbedDocs(docs: seq<Doc>, vecs: seq<seq<real>>, dim: int, errors0: map<string, string>): EmbedRun
  {
    if docs == [] then EmbedRun([], errors0)
    else EmbedAt(EmbedDocs(docs[..|docs| - 1], vecs, dim, errors0), Last(docs), |docs| - 1, vecs, dim)
  }

  lemma EmbedDocsStep(docs: seq<Doc>, vecs: seq<seq<real>>, dim: int, errors0: map<string, string>, i: int)
    requires 0 <= i < |docs|
    ensures EmbedDocs(docs[..i + 1], vecs, dim, errors0) == EmbedAt(EmbedDocs(docs[..i], vecs, dim, errors0), docs[i], i, vecs, dim)
  {
    assert docs[..i + 1][..i] == docs[..i];
  }

  /** Document `k` has a vector of the right size. */
  predicate Fits(k: int, vecs: seq<seq<real>>, dim: int)
  {
    0 <= k < |vecs| && |vecs[k]| == dim
  }

  /** The ids of some documents. */
  function IdsOf(docs: seq<Doc>): set<string>
  {
    set k | 0 <= k < |docs| :: docs[k].id
  }

  /** Every document without a vector of the right size has its id among the errors, and no other id is added. */
  lemma {:induction false} EmbedDocsErrors(docs: seq<Doc>, vecs: seq<seq<real>>, dim: int, errors0: map<string, string>)
    ensures var r := EmbedDocs(docs, vecs, dim, errors0);
      && (forall k :: 0 <= k < |docs| && !Fits(k, vecs, dim) ==> docs[k].id in r.errors)
      && r.errors.Keys <= errors0.Keys + IdsOf(docs)
  {
    if docs != [] {
      var init := docs[..|docs| - 1];
      EmbedDocsErrors(init, vecs, dim, errors0);
      var r0 := EmbedDocs(init, vecs, dim, errors0);
      var r := EmbedDocs(docs, vecs, dim, errors0);
      assert r0.errors.Keys <= r.errors.Keys;
      forall k | 0 <= k < |docs| && !Fits(k, vecs, dim)
        ensures docs[k].id in r.errors
      {
        if k < |init| {
          assert init[k] == docs[k];
        }
      }
      assert IdsOf(init) <= IdsOf(docs) by {
        forall id | id in IdsOf(init) ensures id in IdsOf(docs) {
          var k :| 0 <= k < |init| && init[k].id == id;
          assert docs[k].id == id;
        }
      }
      assert Last(docs).id in IdsOf(docs);
    }
  }

  /** Every document kept has a vector of the right size, and no more documents come out than went in. */
  lemma {:induction false} EmbedDocsSized(docs: seq<Doc>, vecs: seq<seq<real>>, dim: int, errors0: map<string, string>)
    ensures var r := EmbedDocs(docs, vecs, dim, errors0);
      |r.next| <= |docs| && forall j :: 0 <= j < |r.next| ==> |r.next[j].vector| == dim
  {
    if docs != [] {
      EmbedDocsSized(docs[..|docs| - 1], vecs, dim, errors0);
    }
  }

  /** With a vector of the right size for every document, all are kept, with their vectors, and no error is added. */
  lemma {:induction false} EmbedDocsAllFit(docs: seq<Doc>, vecs: seq<seq<real>>, dim: int, errors0: map<string, string>)
    requires |docs| <= |vecs| && forall k :: 0 <= k < |docs| ==> |vecs[k]| == dim
    ensures var r := EmbedDocs(docs, vecs, dim, errors0);
      && r.errors == errors0
      && |r.next| == |docs|
      && forall k :: 0 <= k < |docs| ==> r.next[k] == docs[k].(vector := vecs[k])
  {
    if docs != [] {
      var init := docs[..|docs| - 1];
      var n := |docs| - 1;
      assert forall k :: 0 <= k < |init| ==> init[k] == docs[k];
      EmbedDocsAllFit(init, vecs, dim, errors0);
      var r0 := EmbedDocs(init, vecs, dim, errors0);
      assert |vecs[n]| == dim;
      assert EmbedDocs(docs, vecs, dim, errors0).next == r0.next + [docs[n].(vector := vecs[n])];
    }
  }

  /** embedNode's loop. */
  method EmbedLoop(docs: seq<Doc>, vecs: seq<seq<real>>, dim: int, errors0: map<string, string>) returns (run: EmbedRun)
    ensures run == EmbedDocs(docs, vecs, dim, errors0)
  {
    run := EmbedRun([], errors0);
    for i := 0 to |docs|
      invariant run == EmbedDocs(docs[..i], vecs, dim, errors0)
    {
      EmbedDocsStep(docs, vecs, dim, errors0, i);
      var d := docs[i];
      if i >= |vecs| {
        run := run.(errors := run.errors[d.id := IngestPipeline.EmbeddingMissing]);
        continue;
      }
      if |vecs[i]| != dim {
        run := run.(errors := run.errors[d.id := IngestPipeline.DimMismatch(|vecs[i]|, dim)]);
        continue;
      }
      run := run.(next := run.next + [d.(vector := vecs[i])]);
    }
    assert docs[..|docs|] == docs;
  }

  /** The texts embedNode sends to the embedder: the content of every document, in order. */
  method Texts(docs: seq<Doc>) returns (texts: seq<string>)
    ensures |texts| == |docs| && forall k :: 0 <= k < |docs| ==> texts[k] == docs[k].content
  {
    texts := [];
    for i := 0 to |docs|
      invariant |texts| == i && forall k :: 0 <= k < i ==> texts[k] == docs[k].content
    {
      texts := texts + [docs[i].content];
    }
  }

  // ---------------------------------------------------------------------
  // upsertNode
  // ---------------------------------------------------------------------

  /** The ids of the documents, in order, without the empty ones. */
  function NonEmptyIds(docs: seq<Doc>): (r: seq<string>)
    ensures |r| <= |docs|
  {
    if docs == [] then []
    else NonEmptyIds(docs[..|docs| - 1]) + (if Last(docs).id == [] then [] else [Last(docs).id])
  }

  /** upsertNode's loop over the ids. */
  method CollectIds(docs: seq<Doc>) returns (ids: seq<string>)
    ensures ids == NonEmptyIds(docs)
  {
    ids := [];
    for i := 0 to |docs|
      invariant ids == NonEmptyIds(docs[..i])
    {
      assert docs[..i + 1][..i] == docs[..i];
      if docs[i].id != [] {
        ids := ids + [docs[i].id];
      } else {
        assert ids + [] == ids;
      }
    }
    assert docs[..|docs|] == docs;
  }

  /** When every document has a non-empty id, the ids are all of them, in order. */
  lemma {:induction false} NonEmptyIdsAll(docs: seq<Doc>)
    requires forall k :: 0 <= k < |docs| ==> docs[k].id != []
    ensures NonEmptyIds(docs) == seq(|docs|, k requires 0 <= k < |docs| => docs[k].id)
  {
    if docs != [] {
      var init := docs[..|docs| - 1];
      assert forall k :: 0 <= k < |init| ==> init[k] == docs[k];
      NonEmptyIdsAll(init);
    }
  }

  /** The documents as the indexer receives them: none of them nil. */
  function AsBatch(docs: seq<Doc>): (r: seq<Option<Doc>>)
    ensures |r| == |docs| && MilvusEino.NonNil(r) == docs
  {
    if docs == [] then []
    else
      var r := [Some(docs[0])] + AsBatch(docs[1..]);
      assert r[1..] == AsBatch(docs[1..]) && r[0] == Some(docs[0]);
      r
  }

  /** The contents of the documents, in order: the texts embedNode embeds. */
  function ContentsOf(docs: seq<Doc>): (r: seq<string>)
    ensures |r| == |docs|
  {
    seq(|docs|, k requires 0 <= k < |docs| => docs[k].content)
  }

  // ---------------------------------------------------------------------
  // statusUpdateNode
  // ---------------------------------------------------------------------

  /** The non-blank ids among the keys of the embedding errors. */
  function ErrorIds(errors: map<string, string>): set<string>
  {
    set id | id in errors && !IsBlank(id)
  }

  /** The non-blank error ids that are not still left to visit. */
  function ErrorIdsVisited(errors: map<string, string>, left: set<string>): set<string>
  {
    set id | id in errors && id !in left && !IsBlank(id)
  }

  /** The attempted vector ids, trimmed, without the blank ones. */
  function AttemptedIds(attempted: seq<string>): set<string>
  {
    if attempted == [] then {}
    else AttemptedIds(attempted[..|attempted| - 1]) + (if IsBlank(Last(attempted)) then {} else {TrimSpace(Last(attempted))})
  }

  lemma AttemptedIdsStep(attempted: seq<string>, i: int)
    requires 0 <= i < |attempted|
    ensures AttemptedIds(attempted[..i + 1])
            == AttemptedIds(attempted[..i]) + (if IsBlank(attempted[i]) then {} else {TrimSpace(attempted[i])})
  {
    assert attempted[..i + 1][..i] == attempted[..i];
  }

  /** Attempted id `k` is not blank and trims to `id`. */
  predicate AttemptedAt(attempted: seq<string>, k: int, id: string)
  {
    0 <= k < |attempted| && !IsBlank(attempted[k]) && TrimSpace(attempted[k]) == id
  }

  /** An id is among the attempted ones exactly when some attempted id is not blank and trims to it. */
  lemma {:induction false} AttemptedIdsIff(attempted: seq<string>, id: string)
    ensures id in AttemptedIds(attempted) <==> exists k :: AttemptedAt(attempted, k, id)
  {
    if attempted != [] {
      var init := attempted[..|attempted| - 1];
      var n := |init|;
      AttemptedIdsIff(init, id);
      if exists k :: AttemptedAt(init, k, id) {
        var k :| AttemptedAt(init, k, id);
        assert attempted[k] == init[k];
        assert AttemptedAt(attempted, k, id);
      }
      if exists k :: AttemptedAt(attempted, k, id) {
        var k :| AttemptedAt(attempted, k, id);
        if k < n {
          assert init[k] == attempted[k];
          assert AttemptedAt(init, k, id);
        } else {
          assert k == n;
        }
      }
      if id in AttemptedIds(attempted) && id !in AttemptedIds(init) {
        assert AttemptedAt(attempted, n, id);
      }
    }
  }

  /** No vector id is written twice. */
  predicate DistinctIds(ws: seq<StatusWrite>)
  {
    forall i, j :: 0 <= i < j < |ws| ==> ws[i].vectorId != ws[j].vectorId
  }

  /** The number of non-blank ids, repeats included. */
  function NonBlankCount(ids: seq<string>): (n: nat)
    ensures n <= |ids|
  {
    if ids == [] then 0 else NonBlankCount(ids[..|ids| - 1]) + (if IsBlank(Last(ids)) then 0 else 1)
  }

  lemma NonBlankCountStep(ids: seq<string>, i: int)
    requires 0 <= i < |ids|
    ensures NonBlankCount(ids[..i + 1]) == NonBlankCount(ids[..i]) + (if IsBlank(ids[i]) then 0 else 1)
  {
    assert ids[..i + 1][..i] == ids[..i];
  }

  /** Every write is to an id of `ids`. */
  predicate AllIn(ws: seq<StatusWrite>, ids: set<string>)
  {
    forall k :: 0 <= k < |ws| ==> ws[k].vectorId in ids
  }

  /** No write is to an id of `ids`. */
  predicate NoneIn(ws: seq<StatusWrite>, ids: set<string>)
  {
    forall k :: 0 <= k < |ws| ==> ws[k].vectorId !in ids
  }

  /** Every write marks an id of the embedding errors failed, with that id's message. */
  predicate ErrorWrites(ws: seq<StatusWrite>, errors: map<string, string>)
  {
    forall k :: 0 <= k < |ws| ==>
      ws[k].status == IngestPipeline.EmbedFailed && ws[k].vectorId in errors && ws[k].msg == errors[ws[k].vectorId]
  }

  /** Every write marks its id failed with the message `msg`. */
  predicate FailWrites(ws: seq<StatusWrite>, msg: string)
  {
    forall k :: 0 <= k < |ws| ==> ws[k].status == IngestPipeline.EmbedFailed && ws[k].msg == msg
  }

  /** A write to an id not yet written keeps the writes free of repeats. */
  lemma FreshWrite(ws: seq<StatusWrite>, w: StatusWrite, failed: set<string>)
    requires DistinctIds(ws) && AllIn(ws, failed) && w.vectorId !in failed
    ensures DistinctIds(ws + [w]) && AllIn(ws + [w], failed + {w.vectorId})
  {
  }

  /** One more write of an error's own message keeps the writes error writes. */
  lemma ErrorWrite(ws: seq<StatusWrite>, errors: map<string, string>, id: string)
    requires ErrorWrites(ws, errors) && id in errors
    ensures ErrorWrites(ws + [IngestPipeline.StatusWrite(id, IngestPipeline.EmbedFailed, errors[id])], errors)
  {
  }

  /** One more failed write with the message `msg` keeps the writes fail writes. */
  lemma FailWrite(ws: seq<StatusWrite>, msg: string, id: string)
    requires FailWrites(ws, msg)
    ensures FailWrites(ws + [IngestPipeline.StatusWrite(id, IngestPipeline.EmbedFailed, msg)], msg)
  {
  }

  /** What the first loop of statusUpdateNode has done once the ids in `left` are still to visit. */
  predicate ErrorsMarked(errors: map<string, string>, left: set<string>, failed: set<string>, writes: seq<StatusWrite>)
  {
    left <= errors.Keys && failed == ErrorIdsVisited(errors, left)
    && |writes| == |failed| && DistinctIds(writes) && AllIn(writes, failed) && ErrorWrites(writes, errors)
  }

  /** Visiting a blank error id changes nothing. */
  lemma ErrorsMarkedBlank(errors: map<string, string>, left: set<string>, failed: set<string>, writes: seq<StatusWrite>, id: string)
    requires ErrorsMarked(errors, left, failed, writes) && id in left && IsBlank(id)
    ensures ErrorsMarked(errors, left - {id}, failed, writes)
  {
    assert ErrorIdsVisited(errors, left - {id}) == failed;
  }

  /** Visiting a non-blank error id writes it failed with its own message. */
  lemma ErrorsMarkedFresh(errors: map<string, string>, left: set<string>, failed: set<string>, writes: seq<StatusWrite>, id: string)
    requires ErrorsMarked(errors, left, failed, writes) && id in left && !IsBlank(id)
    ensures id !in failed
    ensures ErrorsMarked(errors, left - {id}, failed + {id},
                         writes + [IngestPipeline.StatusWrite(id, IngestPipeline.EmbedFailed, errors[id])])
  {
    var w := IngestPipeline.StatusWrite(id, IngestPipeline.EmbedFailed, errors[id]);
    FreshWrite(writes, w, failed);
    ErrorWrite(writes, errors, id);
    assert ErrorIdsVisited(errors, left - {id}) == failed + {id};
  }

  /**
   * The first loop of statusUpdateNode, over the embedding errors in the
   * map's order, which Go leaves unspecified: each non-blank id is marked
   * failed with its own message, once.
   */
  method MarkErrors(errors: map<string, string>) returns (failed: set<string>, writes: seq<StatusWrite>)
    ensures failed == ErrorIds(errors)
    ensures |writes| == |failed| && DistinctIds(writes) && AllIn(writes, failed) && ErrorWrites(writes, errors)
  {
    failed, writes := {}, [];
    var left := errors.Keys;
    assert ErrorIdsVisited(errors, left) == {};
    while left != {}
      invariant ErrorsMarked(errors, left, failed, writes)
      decreases |left|
    {
      var id :| id in left;
      if IsBlank(id) {
        ErrorsMarkedBlank(errors, left, failed, writes, id);
      } else {
        ErrorsMarkedFresh(errors, left, failed, writes, id);
        writes := writes + [IngestPipeline.StatusWrite(id, IngestPipeline.EmbedFailed, errors[id])];
        failed := failed + {id};
      }
      left := left - {id};
    }
    assert ErrorIdsVisited(errors, {}) == ErrorIds(errors);
  }

  /** What the second loop of statusUpdateNode has done after the first `i` attempted ids. */
  predicate AttemptedMarked(attempted: seq<string>, i: int, failed0: set<string>, msg: string,
                            failed: set<string>, writes: seq<StatusWrite>)
    requires 0 <= i <= |attempted|
  {
    failed == failed0 + AttemptedIds(attempted[..i]) && |writes| + |failed0| == |failed|
    && DistinctIds(writes) && AllIn(writes, failed) && NoneIn(writes, failed0) && FailWrites(writes, msg)
  }

  /** An attempted id that is blank, or trims to an id already failed, changes nothing. */
  lemma AttemptedMarkedSkip(attempted: seq<string>, i: int, failed0: set<string>, msg: string,
                            failed: set<string>, writes: seq<StatusWrite>)
    requires 0 <= i < |attempted| && AttemptedMarked(attempted, i, failed0, msg, failed, writes)
    requires IsBlank(attempted[i]) || TrimSpace(attempted[i]) in failed
    ensures AttemptedMarked(attempted, i + 1, failed0, msg, failed, writes)
  {
    AttemptedIdsStep(attempted, i);
  }

  /** An attempted id that trims to a new non-blank id writes it failed with the run's error. */
  lemma AttemptedMarkedFresh(attempted: seq<string>, i: int, failed0: set<string>, msg: string,
                             failed: set<string>, writes: seq<StatusWrite>)
    requires 0 <= i < |attempted| && AttemptedMarked(attempted, i, failed0, msg, failed, writes)
    requires !IsBlank(attempted[i]) && TrimSpace(attempted[i]) !in failed
    ensures AttemptedMarked(attempted, i + 1, failed0, msg, failed + {TrimSpace(attempted[i])},
                            writes + [IngestPipeline.StatusWrite(TrimSpace(attempted[i]), IngestPipeline.EmbedFailed, msg)])
  {
    var id := TrimSpace(attempted[i]);
    var w := IngestPipeline.StatusWrite(id, IngestPipeline.EmbedFailed, msg);
    AttemptedIdsStep(attempted, i);
    FreshWrite(writes, w, failed);
    FailWrite(writes, msg, id);
  }

  /**
   * The second loop of statusUpdateNode, when the run failed: each
   * attempted id, trimmed, that is not blank and not yet failed is marked
   * failed with the run's error, once.
   */
  method MarkAttempted(attempted: seq<string>, failed0: set<string>, msg: string)
    returns (failed: set<string>, writes: seq<StatusWrite>)
    ensures failed == failed0 + AttemptedIds(attempted)
    ensures |writes| + |failed0| == |failed|
    ensures DistinctIds(writes) && AllIn(writes, failed) && NoneIn(writes, failed0) && FailWrites(writes, msg)
  {
    failed, writes := failed0, [];
    for i := 0 to |attempted|
      invariant AttemptedMarked(attempted, i, failed0, msg, failed, writes)
    {
      if IsBlank(attempted[i]) || TrimSpace(attempted[i]) in failed {
        AttemptedMarkedSkip(attempted, i, failed0, msg, failed, writes);
        continue;
      }
      var id := TrimSpace(attempted[i]);
      AttemptedMarkedFresh(attempted, i, failed0, msg, failed, writes);
      writes := writes + [IngestPipeline.StatusWrite(id, IngestPipeline.EmbedFailed, msg)];
      failed := failed + {id};
    }
    assert attempted[..|attempted|] == attempted;
  }

  /** A write that marks a non-blank vector id succeeded. */
  predicate SucceededWrite(w: StatusWrite)
  {
    w.status == IngestPipeline.EmbedSucceeded && w.msg == [] && !IsBlank(w.vectorId)
  }

  /** The write marking an upserted id succeeded, under its trimmed id. */
  function SucceedWrite(id: string): (w: StatusWrite)
    requires !IsBlank(id)
    ensures SucceededWrite(w) && w.vectorId == TrimSpace(id)
  {
    TrimSpaceIdempotent(id);
    IngestPipeline.StatusWrite(TrimSpace(id), IngestPipeline.EmbedSucceeded, "")
  }

  /** The loop of statusUpdateNode when the run succeeded: every non-blank upserted id, trimmed, is marked succeeded. */
  method MarkUpserted(upserted: seq<string>) returns (writes: seq<StatusWrite>, ok: nat)
    ensures ok == NonBlankCount(upserted) && |writes| == ok
    ensures forall k :: 0 <= k < |writes| ==> SucceededWrite(writes[k])
  {
    writes, ok := [], 0;
    for i := 0 to |upserted|
      invariant ok == NonBlankCount(upserted[..i]) && |writes| == ok
      invariant forall k :: 0 <= k < |writes| ==> SucceededWrite(writes[k])
    {
      NonBlankCountStep(upserted, i);
      if IsBlank(upserted[i]) {
        continue;
      }
      writes := writes + [SucceedWrite(upserted[i])];
      ok := ok + 1;
    }
    assert upserted[..|upserted|] == upserted;
  }

  /** The writes of two loops marking disjoint ids, each without repeats, have no repeats together. */
  lemma DistinctAppend(a: seq<StatusWrite>, b: seq<StatusWrite>, sa: set<string>)
    requires DistinctIds(a) && DistinctIds(b)
    requires forall k :: 0 <= k < |a| ==> a[k].vectorId in sa
    requires forall k :: 0 <= k < |b| ==> b[k].vectorId !in sa
    ensures DistinctIds(a + b)
  {
    forall i, j | 0 <= i < j < |a + b|
      ensures (a + b)[i].vectorId != (a + b)[j].vectorId
    {
      if j >= |a| && i < |a| {
        assert (a + b)[i] == a[i] && (a + b)[j] == b[j - |a|];
      }
    }
  }

  /** A subset is no larger than the set it is taken from. */
  lemma {:induction false} SubsetSize<T>(a: set<T>, b: set<T>)
    requires a <= b
    ensures |a| <= |b|
    decreases a
  {
    if a != {} {
      var x :| x in a;
      SubsetSize(a - {x}, b - {x});
    }
  }

  /** Distinct document ids are no more than the documents. */
  lemma {:induction false} IdsOfSize(docs: seq<Doc>)
    ensures |IdsOf(docs)| <= |docs|
  {
    if docs != [] {
      var init := docs[..|docs| - 1];
      IdsOfSize(init);
      assert IdsOf(docs) <= IdsOf(init) + {Last(docs).id} by {
        forall id | id in IdsOf(docs) ensures id in IdsOf(init) + {Last(docs).id} {
          var k :| 0 <= k < |docs| && docs[k].id == id;
          if k < |init| {
            assert init[k] == docs[k];
          }
        }
      }
      SubsetSize(IdsOf(docs), IdsOf(init) + {Last(docs).id});
    }
  }

  /** Failed ids taken from the embedding errors of some documents are no more than those documents. */
  lemma ErrorIdsBound(errors: map<string, string>, docs: seq<Doc>)
    requires errors.Keys <= IdsOf(docs)
    ensures |ErrorIds(errors)| <= |docs|
  {
    IdsOfSize(docs);
    SubsetSize(ErrorIds(errors), IdsOf(docs));
  }

  /** The writes of statusUpdateNode: `fail` distinct failed ones first, then only succeeded ones. */
  predicate FailedFirst(writes: seq<StatusWrite>, fail: int)
  {
    && 0 <= fail <= |writes|
    && DistinctIds(writes[..fail])
    && (forall k :: 0 <= k < |writes| ==> (writes[k].status == IngestPipeline.EmbedFailed <==> k < fail))
    && (forall k :: fail <= k < |writes| ==> SucceededWrite(writes[k]))
  }

  /** Failed writes without repeats, then succeeded writes, are laid out as statusUpdateNode makes them. */
  lemma FailedThenSucceeded(w1: seq<StatusWrite>, w2: seq<StatusWrite>, errors: map<string, string>)
    requires DistinctIds(w1) && ErrorWrites(w1, errors)
    requires forall k :: 0 <= k < |w2| ==> SucceededWrite(w2[k])
    ensures FailedFirst(w1 + w2, |w1|)
  {
    assert (w1 + w2)[..|w1|] == w1;
  }

  /** Failed writes without repeats, all of them, are laid out as statusUpdateNode makes them. */
  lemma AllFailed(w1: seq<StatusWrite>, w2: seq<StatusWrite>, errors: map<string, string>, msg: string)
    requires DistinctIds(w1 + w2) && ErrorWrites(w1, errors) && FailWrites(w2, msg)
    ensures FailedFirst(w1 + w2, |w1 + w2|)
  {
    assert (w1 + w2)[..|w1 + w2|] == w1 + w2;
  }

  // ---------------------------------------------------------------------
  // The graph
  // ---------------------------------------------------------------------

  /**
   * ingestState: the request as prepareNode trimmed it, the knowledge base
   * and source, the documents passed from node to node, the vector ids of
   * each stage, the embedding errors by vector id, the counts, and the
   * first error, after which every node passes the state on untouched.
   */
  class IngestState {
    var req: IngestRequest
    var kbId: int
    var sourceId: int
    var docs: seq<Doc>
    var attempted: seq<string>
    var upsertAttempted: seq<string>
    var upserted: seq<string>
    var vectorIdErrors: map<string, string>
    var segments: nat
    var chunks: nat
    var vectorsSkip: nat
    var err: Option<Error>

    /**
     * prepareNode: the tenant, source type and source key are trimmed into
     * the request; a blank one is an error; otherwise the knowledge base and
     * the source are ensured, and a failure of either is the state's error.
     */
    constructor Prepare(req0: IngestRequest, repo: RagRepo)
      ensures req == TrimRequest(req0)
      ensures var o := PrepareOutcome(req0, repo);
        && (o.Err? ==> err == Some(o.error) && kbId == 0 && sourceId == 0)
        && (o.Ok? ==> err == None && kbId == o.value.0 && sourceId == o.value.1)
      ensures docs == [] && attempted == [] && upsertAttempted == [] && upserted == []
      ensures vectorIdErrors == map[] && segments == 0 && chunks == 0 && vectorsSkip == 0
    {
      var r := TrimRequest(req0);
      req := r;
      kbId, sourceId := 0, 0;
      docs, attempted, upsertAttempted, upserted := [], [], [], [];
      vectorIdErrors := map[];
      segments, chunks, vectorsSkip := 0, 0, 0;
      err := None;
      if r.tenantUserId == [] {
        err := Some(PlainErr(IngestPipeline.MissingTenant));
      } else if r.sourceType == [] || r.sourceKey == [] {
        err := Some(PlainErr(IngestPipeline.MissingSource));
      } else {
        var kb := repo.ensureKnowledgeBase(r.tenantUserId);
        if kb.Err? {
          err := Some(kb.error);
        } else {
          var src := repo.ensureKnowledgeSource(kb.value, r.sourceType, r.sourceKey, r.tenantUserId);
          if src.Err? {
            err := Some(src.error);
          } else {
            kbId, sourceId := kb.value, src.value;
          }
        }
      }
    }

    /** mergeTurnsNode: the documents of the merger's non-blank segments, numbered by segment_index, and their count. */
    method MergeTurns(merge: seq<IngestPipeline.Message> -> seq<string>)
      modifies this
      ensures old(err).Some? ==> unchanged(this)
      ensures old(err).None? ==>
        && docs == SegmentDocs(req, kbId, NonBlankSegments(merge(req.messages))) && segments == |docs|
        && unchanged(this`req, this`kbId, this`sourceId, this`attempted, this`upsertAttempted, this`upserted,
                     this`vectorIdErrors, this`chunks, this`vectorsSkip, this`err)
    {
      if err.Some? {
        return;
      }
      docs := MergeSegments(req, kbId, merge(req.messages));
      segments := |docs|;
    }

    /**
     * chunkNode: the chunker's documents, each recorded in the repository,
     * the chunks counted and the already embedded ones skipped as they go;
     * the documents passed on and their vector ids replace the state's only
     * when no repository call failed.
     */
    method Chunk(env: Env, chunkDocuments: seq<Doc> -> Result<seq<Option<Doc>>>)
      modifies this
      ensures old(err).Some? || old(docs) == [] ==> unchanged(this)
      ensures old(err).None? && old(docs) != [] ==>
        && unchanged(this`req, this`kbId, this`sourceId, this`segments, this`upsertAttempted, this`upserted,
                     this`vectorIdErrors)
        && match chunkDocuments(old(docs))
           case Err(e) => err == Some(e) && unchanged(this`docs, this`attempted, this`chunks, this`vectorsSkip)
           case Ok(ds) =>
             var run := RunSteps(Steps(env, req, kbId, ds));
             && chunks == old(chunks) + run.counted && vectorsSkip == old(vectorsSkip) + run.skipped
             && err == run.error
             && (run.error.None? ==> docs == run.out && attempted == run.attempted)
             && (run.error.Some? ==> unchanged(this`docs, this`attempted))
      ensures old(err).None? && err.None? ==> chunks + old(vectorsSkip) == old(chunks) + vectorsSkip + |docs|
    {
      if err.Some? || docs == [] {
        return;
      }
      var cs := chunkDocuments(docs);
      if cs.Err? {
        err := Some(cs.error);
        return;
      }
      var run := RunChunks(env, req, kbId, cs.value);
      RunCounts(Steps(env, req, kbId, cs.value));
      chunks, vectorsSkip := chunks + run.counted, vectorsSkip + run.skipped;
      if run.error.Some? {
        err := run.error;
        return;
      }
      docs, attempted := run.out, run.attempted;
    }

    /**
     * embedNode: the contents are embedded in one call; a document whose
     * vector is missing or of the wrong size is dropped, with its error
     * recorded under its id.
     */
    method Embed(embed: seq<string> -> Result<seq<seq<real>>>, dim: int)
      modifies this
      ensures old(err).Some? || old(docs) == [] ==> unchanged(this)
      ensures old(err).None? && old(docs) != [] ==>
        && unchanged(this`req, this`kbId, this`sourceId, this`attempted, this`upsertAttempted, this`upserted,
                     this`segments, this`chunks, this`vectorsSkip)
        && match embed(ContentsOf(old(docs)))
           case Err(e) => err == Some(e) && unchanged(this`docs, this`vectorIdErrors)
           case Ok(vecs) =>
             var run := EmbedDocs(old(docs), vecs, dim, old(vectorIdErrors));
             err == None && docs == run.next && vectorIdErrors == run.errors
      ensures old(err).None? && err.None? ==>
        |docs| <= |old(docs)| && vectorIdErrors.Keys <= old(vectorIdErrors).Keys + IdsOf(old(docs))
    {
      if err.Some? || docs == [] {
        return;
      }
      var texts := Texts(docs);
      assert texts == ContentsOf(docs);
      var vecs := embed(texts);
      if vecs.Err? {
        err := Some(vecs.error);
        return;
      }
      var run := EmbedLoop(docs, vecs.value, dim, vectorIdErrors);
      EmbedDocsErrors(docs, vecs.value, dim, vectorIdErrors);
      EmbedDocsSized(docs, vecs.value, dim, vectorIdErrors);
      docs, vectorIdErrors := run.next, run.errors;
    }

    /**
     * upsertNode: the non-empty ids are recorded as attempted, and the
     * documents are stored; the store's answer is the upserted ids, or the
     * state's error.
     */
    method Upsert(show: MilvusEino.Any -> string, marshal: MilvusEino.Any -> Option<string>,
                  upsert: seq<MilvusEino.Item> -> Result<seq<string>>)
      modifies this
      ensures old(err).Some? || old(docs) == [] ==> unchanged(this)
      ensures old(err).None? && old(docs) != [] ==>
        && unchanged(this`req, this`kbId, this`sourceId, this`docs, this`attempted, this`vectorIdErrors,
                     this`segments, this`chunks, this`vectorsSkip)
        && upsertAttempted == NonEmptyIds(docs)
        && match MilvusEino.StoreSpec(AsBatch(docs), show, marshal, upsert)
           case Err(e) => err == Some(e) && unchanged(this`upserted)
           case Ok(ids) => err == None && upserted == ids
    {
      if err.Some? || docs == [] {
        return;
      }
      upsertAttempted := CollectIds(docs);
      var r := MilvusEino.Store(AsBatch(docs), show, marshal, upsert);
      if r.Err? {
        err := Some(r.error);
        return;
      }
      upserted := r.value;
    }

    /**
     * statusUpdateNode: the result, with every non-blank id of the
     * embedding errors marked failed, then, when the run failed, every
     * attempted id not yet failed, each once; otherwise every non-blank
     * upserted id marked succeeded. It returns the state's error.
     */
    method StatusUpdate() returns (res: IngestResult, e: Option<Error>, writes: seq<StatusWrite>)
      ensures e == err
      ensures && res.tenantUserId == req.tenantUserId && res.sourceType == req.sourceType
              && res.sourceKey == req.sourceKey && res.messages == |req.messages|
              && res.kbId == kbId && res.sourceId == sourceId && res.segments == segments
              && res.chunks == chunks && res.vectorsSkip == vectorsSkip
      ensures var failed := ErrorIds(vectorIdErrors) + (if err.Some? then AttemptedIds(attempted) else {});
        res.vectorsFail == |failed|
      ensures res.vectorsOk == (if err.Some? then 0 else NonBlankCount(upserted))
      ensures |writes| == res.vectorsFail + res.vectorsOk
      ensures FailedFirst(writes, res.vectorsFail)
    {
      var failed, w1 := MarkErrors(vectorIdErrors);
      var w2: seq<StatusWrite> := [];
      var ok := 0;
      if err.Some? {
        var failed2;
        failed2, w2 := MarkAttempted(attempted, failed, err.value.msg);
        DistinctAppend(w1, w2, failed);
        AllFailed(w1, w2, vectorIdErrors, err.value.msg);
        failed := failed2;
      } else {
        w2, ok := MarkUpserted(upserted);
        FailedThenSucceeded(w1, w2, vectorIdErrors);
      }
      writes := w1 + w2;
      res := IngestPipeline.IngestResult(req.tenantUserId, req.sourceType, req.sourceKey, kbId, sourceId,
                                         |req.messages|, segments, chunks, ok, vectorsSkip, |failed|);
      e := err;
    }
  }

  /**
   * Ingest: the graph run on a request, the nodes in order on one state.
   * The result carries the trimmed tenant and source; a request refused
   * by prepareNode ends with its error, zero counts and no status writes;
   * a failed run reports no vector as succeeded; and a run without error
   * never reports more failed and skipped vectors than chunks counted.
   */
  method Ingest(env: Env, req: IngestRequest, merge: seq<IngestPipeline.Message> -> seq<string>,
                chunkDocuments: seq<Doc> -> Result<seq<Option<Doc>>>,
                embed: seq<string> -> Result<seq<seq<real>>>,
                show: MilvusEino.Any -> string, marshal: MilvusEino.Any -> Option<string>,
                upsert: seq<MilvusEino.Item> -> Result<seq<string>>)
    returns (res: IngestResult, err: Option<Error>, writes: seq<StatusWrite>)
    ensures && res.tenantUserId == TrimSpace(req.tenantUserId) && res.sourceType == TrimSpace(req.sourceType)
            && res.sourceKey == TrimSpace(req.sourceKey) && res.messages == |req.messages|
    ensures IsBlank(req.tenantUserId) ==> err == Some(PlainErr(IngestPipeline.MissingTenant))
    ensures PrepareOutcome(req, env.repo).Err? ==>
      && err == Some(PrepareOutcome(req, env.repo).error) && writes == []
      && res.kbId == 0 && res.sourceId == 0 && res.segments == 0 && res.chunks == 0
      && res.vectorsOk == 0 && res.vectorsSkip == 0 && res.vectorsFail == 0
    ensures PrepareOutcome(req, env.repo).Ok? ==>
      && (res.kbId, res.sourceId) == PrepareOutcome(req, env.repo).value
      && res.segments == |NonBlankSegments(merge(req.messages))|
    ensures err.Some? ==> res.vectorsOk == 0
    ensures err.None? ==> res.vectorsFail + res.vectorsSkip <= res.chunks
    ensures |writes| == res.vectorsFail + res.vectorsOk && FailedFirst(writes, res.vectorsFail)
  {
    var st := new IngestState.Prepare(req, env.repo);
    assert ErrorIds(map[]) == {} && AttemptedIds([]) == {};
    st.MergeTurns(merge);
    st.Chunk(env, chunkDocuments);
    ghost var chunked := st.docs;
    st.Embed(embed, env.vectorDim);
    st.Upsert(show, marshal, upsert);
    if st.err.None? {
      ErrorIdsBound(st.vectorIdErrors, chunked);
    }
    res, err, writes := st.StatusUpdate();
  }
}
