/**
 * The retrieval pipeline (internal/modules/ai/infrastructure/pipeline/retrieve_graph.go
 * and retrieve_pipeline.go): request validation and defaults, the vector-store
 * filter expression, post-processing of the hits (threshold, per-source dedup,
 * ordering, count and size caps) and the counts of the final result.
 */
module Retrieve {
  import opened Common
  import opened Seqs
  import opened GoStrings

  /** One hit returned by the vector store; the score is an opaque ordered value. */
  datatype Hit = Hit(chunkId: int, sourceType: string, sourceKey: string, score: real,
                     content: string, metadataJson: string)

  datatype RetrieveRequest = RetrieveRequest(
    tenantUserId: string, question: string, topK: int, kbType: string,
    sourceTypes: seq<string>, sourceKeys: seq<string>,
    scoreThreshold: real, maxChunks: int, maxContentChars: int, dedupBySameSource: bool)

  datatype RetrieveResult = RetrieveResult(
    question: string, chunks: seq<Hit>, totalHits: nat, returnedCount: nat, isEmpty: bool, message: string)

  const DefaultTopK: int := 5
  const MaxTopK: int := 50
  const DefaultKBType: string := "global"
  const EmptyResultHint: string := "未命中知识库，建议运行回填或检查时间范围"

  /** normalizeTopK: default 5, clamped to [1, 50]. */
  function NormalizeTopK(topK: int): (r: int)
    ensures 1 <= r <= MaxTopK
    ensures topK <= 0 ==> r == DefaultTopK
    ensures topK > MaxTopK ==> r == MaxTopK
    ensures 1 <= topK <= MaxTopK ==> r == topK
  {
    if topK <= 0 then DefaultTopK else if topK > MaxTopK then MaxTopK else topK
  }

  /** validateNode: required tenant and question (trimmed), then the defaults. */
  function Validate(req: Option<RetrieveRequest>): (r: Result<RetrieveRequest>)
    ensures req.None? ==> r == Err(PlainErr("retrieve request is nil"))
    ensures r.Ok? <==> req.Some? && !IsBlank(req.value.tenantUserId) && !IsBlank(req.value.question)
    ensures req.Some? && IsBlank(req.value.tenantUserId) ==> r == Err(PlainErr("missing tenant_user_id"))
    ensures req.Some? && !IsBlank(req.value.tenantUserId) && IsBlank(req.value.question) ==>
      r == Err(PlainErr("missing question"))
    ensures r.Ok? ==>
      var q, v := req.value, r.value;
      && v.tenantUserId == TrimSpace(q.tenantUserId) && v.tenantUserId != []
      && v.question == TrimSpace(q.question) && v.question != []
      && 1 <= v.topK <= MaxTopK
      && v.kbType == (if IsBlank(q.kbType) then DefaultKBType else TrimSpace(q.kbType))
      && v.sourceTypes == q.sourceTypes && v.sourceKeys == q.sourceKeys
      && v.scoreThreshold == q.scoreThreshold && v.maxChunks == q.maxChunks
      && v.maxContentChars == q.maxContentChars && v.dedupBySameSource == q.dedupBySameSource
  {
    if req.None? then Err(PlainErr("retrieve request is nil"))
    else
      var q := req.value;
      var tenant := TrimSpace(q.tenantUserId);
      if tenant == [] then Err(PlainErr("missing tenant_user_id"))
      else
        var question := TrimSpace(q.question);
        if question == [] then Err(PlainErr("missing question"))
        else
          var kbType := TrimSpace(q.kbType);
          Ok(q.(tenantUserId := tenant, question := question, topK := NormalizeTopK(q.topK),
                kbType := if kbType == [] then DefaultKBType else kbType))
  }

  // ------------------------------------------------------------ filter expression

  /** The trimmed, non-blank entries, in order. */
  function ValidEntries(xs: seq<string>): (r: seq<string>)
    ensures |r| <= |xs|
    ensures forall k :: 0 <= k < |r| ==> r[k] != []
  {
    if xs == [] then []
    else
      var t := TrimSpace(xs[|xs| - 1]);
      ValidEntries(xs[..|xs| - 1]) + (if t == [] then [] else [t])
  }

  lemma {:induction false} ValidEntriesEmptyIff(xs: seq<string>)
    ensures ValidEntries(xs) == [] <==> forall i :: 0 <= i < |xs| ==> IsBlank(xs[i])
  {
    if xs != [] {
      ValidEntriesEmptyIff(xs[..|xs| - 1]);
      assert forall i :: 0 <= i < |xs| - 1 ==> xs[..|xs| - 1][i] == xs[i];
    }
  }

  function Quote(s: string): string { "\"" + s + "\"" }

  function QuoteAll(xs: seq<string>): (r: seq<string>)
    ensures |r| == |xs| && forall k :: 0 <= k < |xs| ==> r[k] == Quote(xs[k])
  {
    if xs == [] then [] else QuoteAll(xs[..|xs| - 1]) + [Quote(xs[|xs| - 1])]
  }

  const SourceTypeClause: string := " && source_type in ["
  const SourceKeyClause: string := " && source_key in ["

  /** `<opener>"a","b"]`, or nothing when there are no values. */
  function InClause(opener: string, values: seq<string>): string
  {
    if values == [] then "" else opener + Join(QuoteAll(values), ",") + "]"
  }

  /** The clause every filter starts with: the tenant and the knowledge base. */
  function BaseFilter(tenant: string, kbId: int): string
  {
    "tenant_user_id == \"" + tenant + "\" && kb_id == " + FormatInt(kbId)
  }

  function FilterExpr(tenant: string, kbId: int, sourceTypes: seq<string>, sourceKeys: seq<string>): string
  {
    BaseFilter(tenant, kbId) + InClause(SourceTypeClause, ValidEntries(sourceTypes))
      + InClause(SourceKeyClause, ValidEntries(sourceKeys))
  }

  /** The loop buildFilterExpr runs over each list: trim, drop blanks, quote. */
  method QuoteValid(xs: seq<string>) returns (quoted: seq<string>)
    ensures quoted == QuoteAll(ValidEntries(xs))
  {
    quoted := [];
    var i := 0;
    while i < |xs|
      invariant 0 <= i <= |xs|
      invariant quoted == QuoteAll(ValidEntries(xs[..i]))
    {
      QuoteValidStep(xs, i);
      var t := TrimSpace(xs[i]);
      if t != [] {
        quoted := quoted + [Quote(t)];
      }
      i := i + 1;
    }
    assert xs[..i] == xs;
  }

  lemma QuoteValidStep(xs: seq<string>, i: int)
    requires 0 <= i < |xs|
    ensures var t := TrimSpace(xs[i]);
      QuoteAll(ValidEntries(xs[..i + 1])) == QuoteAll(ValidEntries(xs[..i])) + (if t == [] then [] else [Quote(t)])
  {
    var prefix := xs[..i + 1];
    assert prefix[..i] == xs[..i];
    var t := TrimSpace(xs[i]);
    var before := ValidEntries(xs[..i]);
    assert ValidEntries(prefix) == before + (if t == [] then [] else [t]);
    if t != [] {
      assert (before + [t])[..|before|] == before;
    } else {
      assert before + [] == before;
    }
  }

  /** buildFilterExpr */
  method BuildFilterExpr(tenant: string, kbId: int, sourceTypes: seq<string>, sourceKeys: seq<string>)
    returns (expr: string)
    ensures expr == FilterExpr(tenant, kbId, sourceTypes, sourceKeys)
  {
    expr := BaseFilter(tenant, kbId);
    var typeClause, keyClause := "", "";
    if |sourceTypes| > 0 {
      var validTypes := QuoteValid(sourceTypes);
      if |validTypes| > 0 {
        typeClause := SourceTypeClause + Join(validTypes, ",") + "]";
      }
    }
    if |sourceKeys| > 0 {
      var validKeys := QuoteValid(sourceKeys);
      if |validKeys| > 0 {
        keyClause := SourceKeyClause + Join(validKeys, ",") + "]";
      }
    }
    expr := expr + typeClause;
    expr := expr + keyClause;
  }

  /** Every filter starts with the tenant and knowledge-base clause. */
  lemma FilterStartsWithTenant(tenant: string, kbId: int, sourceTypes: seq<string>, sourceKeys: seq<string>)
    ensures HasPrefix(FilterExpr(tenant, kbId, sourceTypes, sourceKeys), BaseFilter(tenant, kbId))
  {
    var b := BaseFilter(tenant, kbId);
    var t := InClause(SourceTypeClause, ValidEntries(sourceTypes));
    var k := InClause(SourceKeyClause, ValidEntries(sourceKeys));
    PrefixOfAppend(b, t, k);
  }

  lemma PrefixOfAppend(b: string, t: string, k: string)
    ensures HasPrefix(b + t + k, b)
  {
    assert (b + t + k)[..|b|] == b;
  }

  /** A source clause is present exactly when some entry is non-blank after trimming. */
  lemma SourceClausePresence(opener: string, entries: seq<string>)
    ensures InClause(opener, ValidEntries(entries)) == "" <==> forall i :: 0 <= i < |entries| ==> IsBlank(entries[i])
  {
    ValidEntriesEmptyIff(entries);
  }

  // ------------------------------------------------------------ post-processing

  /** Total rune count of the hits' contents. */
  function SumRunes(hs: seq<Hit>): nat
  {
    if hs == [] then 0 else SumRunes(hs[..|hs| - 1]) + |hs[|hs| - 1].content|
  }

  predicate SortedByScoreDesc(hs: seq<Hit>)
  {
    forall i, j :: 0 <= i < j < |hs| ==> hs[i].score >= hs[j].score
  }

  /** The hits whose score reaches the threshold, in order. */
  function AboveThreshold(hs: seq<Hit>, threshold: real): (r: seq<Hit>)
    ensures |r| <= |hs|
    ensures forall h :: h in r <==> h in hs && h.score >= threshold
  {
    if hs == [] then []
    else AboveThreshold(hs[..|hs| - 1], threshold)
         + (if hs[|hs| - 1].score >= threshold then [hs[|hs| - 1]] else [])
  }

  /** Step 1: keep the hits whose score is at least the threshold. */
  method FilterByThreshold(hs: seq<Hit>, threshold: real) returns (out: seq<Hit>)
    ensures out == AboveThreshold(hs, threshold)
  {
    out := [];
    var i := 0;
    while i < |hs|
      invariant 0 <= i <= |hs|
      invariant out == AboveThreshold(hs[..i], threshold)
    {
      AboveThresholdStep(hs, i, threshold);
      if hs[i].score >= threshold {
        out := out + [hs[i]];
      }
      i := i + 1;
    }
    TakeAll(hs);
  }

  lemma AboveThresholdStep(hs: seq<Hit>, i: nat, threshold: real)
    requires i < |hs|
    ensures AboveThreshold(hs[..i + 1], threshold) ==
      AboveThreshold(hs[..i], threshold) + (if hs[i].score >= threshold then [hs[i]] else [])
  {
    assert hs[..i + 1][..i] == hs[..i];
  }

  /** The pair a hit is deduplicated on. */
  datatype SourceId = SourceId(sourceType: string, sourceKey: string)

  function SourceOf(h: Hit): SourceId { SourceId(h.sourceType, h.sourceKey) }

  /** The dedup key as the source writes it: the two fields joined by "|". */
  function JoinedSourceKey(h: Hit): string { h.sourceType + "|" + h.sourceKey }

  /** The dedup key: the source pair, or the two fields joined by "|" as the source builds it. */
  datatype DedupKey = Pair(id: SourceId) | Joined(s: string)

  function KeyOf(h: Hit, joined: bool): DedupKey
  {
    if joined then Joined(JoinedSourceKey(h)) else Pair(SourceOf(h))
  }

  predicate KeysDistinct(hs: seq<Hit>, joined: bool)
  {
    forall i, j :: 0 <= i < j < |hs| ==> KeyOf(hs[i], joined) != KeyOf(hs[j], joined)
  }

  /** Every key of `pool` is the key of some hit of `hs`. */
  predicate CoversKeys(hs: seq<Hit>, pool: seq<Hit>, joined: bool)
  {
    forall j :: 0 <= j < |pool| ==> HasKey(hs, KeyOf(pool[j], joined), joined)
  }

  predicate HasKey(hs: seq<Hit>, k: DedupKey, joined: bool)
  {
    exists s :: 0 <= s < |hs| && KeyOf(hs[s], joined) == k
  }

  /** Every hit of `hs` scores at least as high as any hit of `pool` with the same key. */
  predicate BestScoresByKey(hs: seq<Hit>, pool: seq<Hit>, joined: bool)
  {
    forall o, h :: o in hs && h in pool && KeyOf(o, joined) == KeyOf(h, joined) ==> o.score >= h.score
  }

  /**
   * The first loop of step 2: for each key the best hit so far (a later hit
   * replaces it only with a strictly higher score), and the keys in the order
   * they were first seen.
   */
  method BestByKey(hs: seq<Hit>, joined: bool) returns (best: map<DedupKey, Hit>, order: seq<DedupKey>)
    ensures forall k :: k in best <==> k in order
    ensures forall a, b :: 0 <= a < b < |order| ==> order[a] != order[b]
    ensures |order| <= |hs|
    ensures forall k :: k in best ==> best[k] in hs && KeyOf(best[k], joined) == k
    ensures forall j :: 0 <= j < |hs| ==> KeyOf(hs[j], joined) in best && best[KeyOf(hs[j], joined)].score >= hs[j].score
  {
    best, order := map[], [];
    var i := 0;
    while i < |hs|
      invariant 0 <= i <= |hs|
      invariant forall k :: k in best <==> k in order
      invariant forall a, b :: 0 <= a < b < |order| ==> order[a] != order[b]
      invariant |order| <= i
      invariant forall k :: k in best ==> best[k] in hs[..i] && KeyOf(best[k], joined) == k
      invariant forall j :: 0 <= j < i ==> KeyOf(hs[j], joined) in best && best[KeyOf(hs[j], joined)].score >= hs[j].score
    {
      var h := hs[i];
      var k := KeyOf(h, joined);
      if k !in best || h.score > best[k].score {
        if k !in best {
          order := order + [k];
        }
        best := best[k := h];
      }
      i := i + 1;
    }
    assert hs[..i] == hs;
  }

  /**
   * Step 2: one hit per key, with the highest score (the first seen among
   * equal scores). Keys are emitted in the order they were first seen.
   */
  method DedupBy(hs: seq<Hit>, joined: bool) returns (out: seq<Hit>)
    ensures KeysDistinct(out, joined)
    ensures forall o :: o in out ==> o in hs
    ensures CoversKeys(out, hs, joined)
    ensures BestScoresByKey(out, hs, joined)
    ensures |out| <= |hs|
  {
    var best, order := BestByKey(hs, joined);
    out := [];
    var t := 0;
    while t < |order|
      invariant 0 <= t <= |order|
      invariant |out| == t
      invariant forall s :: 0 <= s < t ==> out[s] == best[order[s]]
    {
      out := out + [best[order[t]]];
      t := t + 1;
    }
    assert forall s :: 0 <= s < |out| ==> KeyOf(out[s], joined) == order[s];
    forall j | 0 <= j < |hs| ensures HasKey(out, KeyOf(hs[j], joined), joined) {
      var s :| 0 <= s < |order| && order[s] == KeyOf(hs[j], joined);
      assert KeyOf(out[s], joined) == KeyOf(hs[j], joined);
    }
    forall o | o in out ensures o in hs && o == best[KeyOf(o, joined)] {
      var s :| 0 <= s < |out| && out[s] == o;
    }
  }

  /** Two hits from different sources whose joined dedup keys coincide. */
  const CollidingA: Hit := Hit(1, "a|b", "c", 0.9, "x", "{}")
  const CollidingB: Hit := Hit(2, "a", "b|c", 0.8, "y", "{}")

  /** Joining the two fields with "|" does not tell every pair of sources apart. */
  lemma JoinedSourceKeyNotInjective()
    ensures SourceOf(CollidingA) != SourceOf(CollidingB)
    ensures JoinedSourceKey(CollidingA) == JoinedSourceKey(CollidingB)
  {
    assert SourceOf(CollidingA).sourceType != SourceOf(CollidingB).sourceType;
  }

  /**
   * Dedup on the joined string key, as written: two hits from different
   * sources whose joined keys coincide (such as CollidingA and CollidingB)
   * collapse into one.
   */
  method JoinedKeyCollision(a: Hit, b: Hit) returns (out: seq<Hit>)
    requires SourceOf(a) != SourceOf(b) && JoinedSourceKey(a) == JoinedSourceKey(b)
    ensures |out| == 1
  {
    var hs := [a, b];
    out := DedupBy(hs, true);
    assert HasKey(out, KeyOf(hs[0], true), true);
    assert forall i :: 0 <= i < |out| ==> out[i] in hs;
    DistinctKeysBound(out, true, {KeyOf(a, true)});
  }

  /** A list with distinct keys drawn from a set of keys is no longer than the set. */
  lemma {:induction false} DistinctKeysBound(out: seq<Hit>, joined: bool, ks: set<DedupKey>)
    requires KeysDistinct(out, joined)
    requires forall i :: 0 <= i < |out| ==> KeyOf(out[i], joined) in ks
    ensures |out| <= |ks|
  {
    if out != [] {
      var init, k := out[..|out| - 1], KeyOf(out[|out| - 1], joined);
      assert forall i :: 0 <= i < |init| ==> init[i] == out[i];
      DistinctKeysBound(init, joined, ks - {k});
    }
  }

  /** Dedup on the (source_type, source_key) pair keeps one hit per source. */
  method PairKeyKeepsSources(a: Hit, b: Hit) returns (out: seq<Hit>)
    requires SourceOf(a) != SourceOf(b)
    ensures |out| == 2
  {
    var hs := [a, b];
    out := DedupBy(hs, false);
    var i :| 0 <= i < |out| && KeyOf(out[i], false) == KeyOf(hs[0], false);
    var j :| 0 <= j < |out| && KeyOf(out[j], false) == KeyOf(hs[1], false);
    assert i != j;
  }

  /** Inserts a hit before the first hit with a strictly lower score. */
  function InsertByScore(h: Hit, sorted: seq<Hit>): (r: seq<Hit>)
    ensures |r| == |sorted| + 1
    ensures multiset(r) == multiset(sorted) + multiset{h}
  {
    if sorted == [] then [h]
    else if h.score >= sorted[0].score then [h] + sorted
    else
      assert sorted == [sorted[0]] + sorted[1..];
      [sorted[0]] + InsertByScore(h, sorted[1..])
  }

  lemma SortedCons(top: Hit, rest: seq<Hit>)
    requires SortedByScoreDesc(rest)
    requires forall j :: 0 <= j < |rest| ==> rest[j].score <= top.score
    ensures SortedByScoreDesc([top] + rest)
  {
  }

  /** Inserting into a descending sequence keeps it descending. */
  lemma {:induction false} InsertByScoreSorted(h: Hit, sorted: seq<Hit>)
    requires SortedByScoreDesc(sorted)
    ensures SortedByScoreDesc(InsertByScore(h, sorted))
  {
    if sorted != [] && h.score < sorted[0].score {
      var top := sorted[0];
      var rest := InsertByScore(h, sorted[1..]);
      InsertByScoreSorted(h, sorted[1..]);
      forall j | 0 <= j < |rest|
        ensures rest[j].score <= top.score
      {
        var x := rest[j];
        assert x in multiset(rest);
        if x != h {
          assert x in sorted[1..];
        }
      }
      SortedCons(top, rest);
    }
  }

  function SortByScoreDesc(hs: seq<Hit>): (r: seq<Hit>)
    ensures SortedByScoreDesc(r)
    ensures multiset(r) == multiset(hs)
    ensures |r| == |hs|
  {
    if hs == [] then []
    else
      assert hs == hs[..|hs| - 1] + [hs[|hs| - 1]];
      var sorted := SortByScoreDesc(hs[..|hs| - 1]);
      InsertByScoreSorted(hs[|hs| - 1], sorted);
      InsertByScore(hs[|hs| - 1], sorted)
  }

  /**
   * Step 5: the longest prefix whose total rune count stays within the cap;
   * the loop stops at the first hit that would overflow it.
   */
  method CapContentChars(hs: seq<Hit>, maxChars: int) returns (out: seq<Hit>)
    ensures |out| <= |hs| && out == hs[..|out|]
    ensures SumRunes(out) <= maxChars || out == []
    ensures |out| < |hs| ==> SumRunes(out) + |hs[|out|].content| > maxChars
  {
    var total := 0;
    out := [];
    var i := 0;
    while i < |hs|
      invariant 0 <= i <= |hs|
      invariant out == hs[..i]
      invariant total == SumRunes(out)
      invariant total <= maxChars || out == []
    {
      var len := |hs[i].content|;
      if total + len > maxChars {
        break;
      }
      assert hs[..i + 1] == hs[..i] + [hs[i]];
      out := out + [hs[i]];
      total := total + len;
      i := i + 1;
    }
  }

  /**
   * Steps 4 and 5: at most maxChunks hits, then at most maxContentChars
   * runes, each cap applied only when positive. What is kept is a prefix,
   * and it stops short only where a cap forbids the next hit.
   */
  method Caps(hs: seq<Hit>, maxChunks: int, maxContentChars: int) returns (out: seq<Hit>)
    ensures |out| <= |hs| && out == hs[..|out|]
    ensures maxChunks > 0 ==> |out| <= maxChunks
    ensures maxContentChars > 0 ==> SumRunes(out) <= maxContentChars
    ensures maxChunks <= 0 && maxContentChars <= 0 ==> out == hs
    ensures |out| < |hs| ==>
      || (maxChunks > 0 && |out| == maxChunks)
      || (maxContentChars > 0 && SumRunes(out) + |hs[|out|].content| > maxContentChars)
  {
    out := hs;
    if maxChunks > 0 && |out| > maxChunks {
      out := out[..maxChunks];
    }
    if maxContentChars > 0 {
      var capped := CapContentChars(out, maxContentChars);
      assert capped == hs[..|capped|];
      out := capped;
    }
  }

  /** The hits that pass the threshold step (a threshold of zero or less keeps all). */
  function Kept(hits: seq<Hit>, threshold: real): seq<Hit>
  {
    if threshold > 0.0 then AboveThreshold(hits, threshold) else hits
  }

  /** The properties post-processing establishes, all of which survive taking a prefix. */
  predicate Processed(out: seq<Hit>, kept: seq<Hit>, dedup: bool, joined: bool)
  {
    && (forall h :: h in out ==> h in kept)
    && SortedByScoreDesc(out)
    && (dedup ==> KeysDistinct(out, joined) && BestScoresByKey(out, kept, joined))
  }

  lemma ProcessedPrefix(out: seq<Hit>, kept: seq<Hit>, dedup: bool, joined: bool, n: nat)
    requires Processed(out, kept, dedup, joined) && n <= |out|
    ensures Processed(out[..n], kept, dedup, joined)
  {
    assert forall h :: h in out[..n] ==> h in out;
  }

  /** Steps 2 and 3: the optional dedup, then the sort; with dedup every key of the kept hits is still there. */
  method DedupAndSort(kept: seq<Hit>, dedup: bool, joined: bool) returns (hs: seq<Hit>)
    ensures Processed(hs, kept, dedup, joined)
    ensures |hs| <= |kept|
    ensures kept == [] ==> hs == []
    ensures !dedup ==> multiset(hs) == multiset(kept)
    ensures dedup ==> CoversKeys(hs, kept, joined)
  {
    hs := kept;
    if dedup && |hs| > 0 {
      hs := DedupBy(hs, joined);
    }
    ghost var deduped := hs;
    hs := SortByScoreDesc(hs);
    assert forall h :: h in hs ==> h in deduped by {
      forall h | h in hs ensures h in deduped { assert h in multiset(hs); }
    }
    if dedup {
      DistinctAfterPermutation(deduped, hs, joined);
      CoversAfterPermutation(deduped, hs, kept, joined);
    }
  }

  /** Every hit of `out` scores at least as high as `h`. */
  predicate RanksAbove(out: seq<Hit>, h: Hit)
  {
    forall o :: o in out ==> o.score >= h.score
  }

  /** A prefix of a sorted reordering of the kept hits leaves out only hits that rank no higher than it. */
  lemma PrefixDropsLower(full: seq<Hit>, out: seq<Hit>, kept: seq<Hit>)
    requires SortedByScoreDesc(full) && |out| <= |full| && out == full[..|out|]
    requires multiset(full) == multiset(kept)
    ensures forall h :: h in kept && h !in out ==> RanksAbove(out, h)
  {
    forall h | h in kept && h !in out
      ensures RanksAbove(out, h)
    {
      assert h in multiset(full);
      var s :| 0 <= s < |full| && full[s] == h;
      forall i | 0 <= i < |out|
        ensures full[i] != h
      {
        assert out[i] == full[i];
      }
      forall o | o in out
        ensures o.score >= h.score
      {
        var t :| 0 <= t < |out| && out[t] == o;
        assert full[t] == o;
      }
    }
  }

  /** A key of the kept hits missing from a prefix of a sorted dedup covering them has only hits that rank no higher than it. */
  lemma DroppedKeyRanksLower(full: seq<Hit>, out: seq<Hit>, kept: seq<Hit>, joined: bool, h: Hit)
    requires SortedByScoreDesc(full) && |out| <= |full| && out == full[..|out|]
    requires CoversKeys(full, kept, joined) && BestScoresByKey(full, kept, joined)
    requires h in kept && !HasKey(out, KeyOf(h, joined), joined)
    ensures RanksAbove(out, h)
  {
    var j :| 0 <= j < |kept| && kept[j] == h;
    assert HasKey(full, KeyOf(kept[j], joined), joined);
    var s :| 0 <= s < |full| && KeyOf(full[s], joined) == KeyOf(h, joined);
    assert full[s].score >= h.score by {
      assert full[s] in full;
    }
    forall i | 0 <= i < |out|
      ensures KeyOf(full[i], joined) != KeyOf(h, joined)
    {
      assert out[i] == full[i];
    }
    assert s >= |out|;
    forall o | o in out
      ensures o.score >= h.score
    {
      var t :| 0 <= t < |out| && out[t] == o;
      assert full[t] == o;
    }
  }

  /** A prefix of a sorted dedup covering the kept hits leaves out only keys whose hits rank no higher than it. */
  lemma PrefixDropsLowerKeys(full: seq<Hit>, out: seq<Hit>, kept: seq<Hit>, joined: bool)
    requires SortedByScoreDesc(full) && |out| <= |full| && out == full[..|out|]
    requires CoversKeys(full, kept, joined) && BestScoresByKey(full, kept, joined)
    ensures forall h :: h in kept && !HasKey(out, KeyOf(h, joined), joined) ==> RanksAbove(out, h)
  {
    forall h | h in kept && !HasKey(out, KeyOf(h, joined), joined)
      ensures RanksAbove(out, h)
    {
      DroppedKeyRanksLower(full, out, kept, joined, h);
    }
  }

  /**
   * postProcessNode: threshold, optional dedup on the key `joined` selects,
   * sort, caps. What it returns is sorted, came from the kept hits, stays
   * within the caps, and, with dedup, has one best hit per key; every kept
   * hit (with dedup: every key) it leaves out ranks no higher than any hit
   * it returns, and without a cap nothing is left out. `ranked` is the
   * sorted list before the caps (a permutation of the kept hits, or with
   * dedup one hit for every key): the result is its longest prefix within
   * both caps, since it stops only at the chunk cap or at the first hit
   * that would pass the character cap.
   */
  method PostProcess(hits: seq<Hit>, req: RetrieveRequest, joined: bool) returns (out: seq<Hit>, ghost ranked: seq<Hit>)
    ensures hits == [] ==> out == []
    ensures Processed(ranked, Kept(hits, req.scoreThreshold), req.dedupBySameSource, joined)
    ensures !req.dedupBySameSource ==> multiset(ranked) == multiset(Kept(hits, req.scoreThreshold))
    ensures req.dedupBySameSource ==> CoversKeys(ranked, Kept(hits, req.scoreThreshold), joined)
    ensures |out| <= |ranked| && out == ranked[..|out|]
    ensures |out| < |ranked| ==>
      || (req.maxChunks > 0 && |out| == req.maxChunks)
      || (req.maxContentChars > 0 && SumRunes(out) + |ranked[|out|].content| > req.maxContentChars)
    ensures |out| <= |hits|
    ensures Processed(out, Kept(hits, req.scoreThreshold), req.dedupBySameSource, joined)
    ensures req.maxChunks > 0 ==> |out| <= req.maxChunks
    ensures req.maxContentChars > 0 ==> SumRunes(out) <= req.maxContentChars
    ensures !req.dedupBySameSource && req.maxChunks <= 0 && req.maxContentChars <= 0 ==>
      multiset(out) == multiset(Kept(hits, req.scoreThreshold))
    ensures req.dedupBySameSource && req.maxChunks <= 0 && req.maxContentChars <= 0 ==>
      CoversKeys(out, Kept(hits, req.scoreThreshold), joined)
    ensures !req.dedupBySameSource ==>
      forall h :: h in Kept(hits, req.scoreThreshold) && h !in out ==> RanksAbove(out, h)
    ensures req.dedupBySameSource ==>
      forall h :: h in Kept(hits, req.scoreThreshold) && !HasKey(out, KeyOf(h, joined), joined) ==> RanksAbove(out, h)
  {
    if |hits| == 0 {
      return [], [];
    }
    var kept := hits;
    if req.scoreThreshold > 0.0 {
      kept := FilterByThreshold(hits, req.scoreThreshold);
    }
    var full := DedupAndSort(kept, req.dedupBySameSource, joined);
    out := Caps(full, req.maxChunks, req.maxContentChars);
    ranked := full;
    ProcessedPrefix(full, kept, req.dedupBySameSource, joined, |out|);
    if req.dedupBySameSource {
      PrefixDropsLowerKeys(full, out, kept, joined);
    } else {
      PrefixDropsLower(full, out, kept);
    }
  }

  /** Every hit post-processing returns passed the threshold and came from the search. */
  lemma ProcessedHitsPassThreshold(hits: seq<Hit>, req: RetrieveRequest, joined: bool, out: seq<Hit>)
    requires Processed(out, Kept(hits, req.scoreThreshold), req.dedupBySameSource, joined)
    ensures forall h :: h in out ==> h in hits && (req.scoreThreshold > 0.0 ==> h.score >= req.scoreThreshold)
  {
  }

  /** Two hits of a list with distinct keys that share a key are the same hit. */
  lemma SameKeySame(hs: seq<Hit>, a: Hit, b: Hit, joined: bool)
    requires KeysDistinct(hs, joined)
    requires a in hs && b in hs && KeyOf(a, joined) == KeyOf(b, joined)
    ensures a == b
  {
    var i :| 0 <= i < |hs| && hs[i] == a;
    var j :| 0 <= j < |hs| && hs[j] == b;
    if i < j {
      assert false;
    } else if j < i {
      assert false;
    }
  }

  /** Reordering a list of hits with distinct keys keeps the keys distinct. */
  lemma DistinctAfterPermutation(a: seq<Hit>, b: seq<Hit>, joined: bool)
    requires KeysDistinct(a, joined)
    requires multiset(a) == multiset(b)
    ensures KeysDistinct(b, joined)
  {
    forall i, j | 0 <= i < j < |b| ensures KeyOf(b[i], joined) != KeyOf(b[j], joined) {
      if KeyOf(b[i], joined) == KeyOf(b[j], joined) {
        assert b[i] in multiset(a) && b[j] in multiset(a);
        SameKeySame(a, b[i], b[j], joined);
        assert multiset(b)[b[i]] >= 2 by {
          assert b == b[..i] + [b[i]] + b[i + 1..j] + [b[j]] + b[j + 1..];
        }
        CountAtMostOne(a, b[i], joined);
        assert false;
      }
    }
  }

  /** Reordering a list of hits keeps the keys it covers. */
  lemma CoversAfterPermutation(a: seq<Hit>, b: seq<Hit>, pool: seq<Hit>, joined: bool)
    requires CoversKeys(a, pool, joined)
    requires multiset(a) == multiset(b)
    ensures CoversKeys(b, pool, joined)
  {
    forall j | 0 <= j < |pool| ensures HasKey(b, KeyOf(pool[j], joined), joined) {
      var s :| 0 <= s < |a| && KeyOf(a[s], joined) == KeyOf(pool[j], joined);
      assert a[s] in multiset(a);
      assert a[s] in multiset(b);
      assert a[s] in b;
      var t :| 0 <= t < |b| && b[t] == a[s];
    }
  }

  /** A hit occurs at most once in a list whose keys are distinct. */
  lemma {:induction false} CountAtMostOne(a: seq<Hit>, h: Hit, joined: bool)
    requires KeysDistinct(a, joined)
    ensures multiset(a)[h] <= 1
  {
    if a != [] {
      var last := a[|a| - 1];
      var init := a[..|a| - 1];
      assert a == init + [last];
      CountAtMostOne(init, h, joined);
      if last == h && h in init {
        assert false;
      }
    }
  }

  /** buildResultNode: the counts, the empty flag and its hint. */
  function BuildResult(question: string, hits: seq<Hit>, filtered: seq<Hit>): (r: RetrieveResult)
    ensures r.totalHits == |hits| && r.returnedCount == |filtered| && r.chunks == filtered
    ensures r.isEmpty <==> r.returnedCount == 0
    ensures r.isEmpty ==> r.message == EmptyResultHint
    ensures !r.isEmpty ==> r.message == ""
  {
    RetrieveResult(question, filtered, |hits|, |filtered|, |filtered| == 0,
                   if |filtered| == 0 then EmptyResultHint else "")
  }

  /**
   * Retrieve: the whole pipeline. `ensureKnowledgeBase` stands for the
   * repository call (tenant, kb type) and `search` for the embedding plus
   * vector search (filter expression, top-k). The chunks returned are the
   * post-processed search hits (dedup on the (source_type, source_key)
   * pair); `ranked` is the sorted list before the caps, of which they are
   * the longest prefix within both caps.
   */
  method Retrieve(req: Option<RetrieveRequest>,
                  ensureKnowledgeBase: (string, string) -> Result<int>,
                  search: (string, int) -> Result<seq<Hit>>)
    returns (r: Result<RetrieveResult>, ghost ranked: seq<Hit>)
    ensures req.None? ==> r == Err(PlainErr("retrieve request is nil"))
    ensures req.Some? && Validate(req).Err? ==> r == Err(Validate(req).error)
    ensures r.Ok? ==> Validate(req).Ok?
    ensures r.Ok? ==>
      var v := Validate(req).value;
      var kb := ensureKnowledgeBase(v.tenantUserId, v.kbType);
      kb.Ok? &&
      var s := search(FilterExpr(v.tenantUserId, kb.value, v.sourceTypes, v.sourceKeys), v.topK);
      s.Ok? && r.value.totalHits == |s.value| && r.value.question == v.question
      && r.value.returnedCount == |r.value.chunks| <= r.value.totalHits
      && (r.value.isEmpty <==> r.value.returnedCount == 0)
      && var kept := Kept(s.value, v.scoreThreshold);
      Processed(r.value.chunks, kept, v.dedupBySameSource, false)
      && (!v.dedupBySameSource ==> multiset(ranked) == multiset(kept))
      && (v.dedupBySameSource ==> CoversKeys(ranked, kept, false) && KeysDistinct(ranked, false))
      && |r.value.chunks| <= |ranked| && r.value.chunks == ranked[..|r.value.chunks|]
      && (v.maxChunks > 0 ==> |r.value.chunks| <= v.maxChunks)
      && (v.maxContentChars > 0 ==> SumRunes(r.value.chunks) <= v.maxContentChars)
      && (|r.value.chunks| < |ranked| ==>
            || (v.maxChunks > 0 && |r.value.chunks| == v.maxChunks)
            || (v.maxContentChars > 0 && SumRunes(r.value.chunks) + |ranked[|r.value.chunks|].content| > v.maxContentChars))
  {
    ranked := [];
    if req.None? {
      return Err(PlainErr("retrieve request is nil")), ranked;
    }
    var validated := Validate(req);
    if validated.Err? {
      return Err(validated.error), ranked;
    }
    var v := validated.value;
    var kb := ensureKnowledgeBase(v.tenantUserId, v.kbType);
    if kb.Err? {
      return Err(kb.error), ranked;
    }
    var filter := BuildFilterExpr(v.tenantUserId, kb.value, v.sourceTypes, v.sourceKeys);
    var searched := search(filter, v.topK);
    if searched.Err? {
      return Err(searched.error), ranked;
    }
    var filtered;
    filtered, ranked := PostProcess(searched.value, v, false);
    r := Ok(BuildResult(v.question, searched.value, filtered));
  }
}
