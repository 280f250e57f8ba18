/**
 * The fixed-size, overlapping text chunker
 * (internal/modules/ai/infrastructure/chunking/simple_chunker.go).
 * Text is a sequence of runes; a chunk is a slice of it.
 */
module Chunking {
  import opened Common
  import opened Seqs

  const DefaultChunkSize: int := 500

  datatype SimpleChunker = SimpleChunker(chunkSize: int, chunkOverlap: int)
  {
    /** What the constructor guarantees: a positive size and an overlap strictly below it. */
    predicate Valid() { chunkSize > 0 && 0 <= chunkOverlap < chunkSize }

    /** The distance between the starts of consecutive chunks (at least 1). */
    function Step(): int { if chunkSize - chunkOverlap <= 0 then 1 else chunkSize - chunkOverlap }
  }

  /** NewSimpleChunker: clamps the size to a positive default and the overlap below the size. */
  function NewSimpleChunker(size: int, overlap: int): (c: SimpleChunker)
    ensures c.Valid()
    ensures c.chunkSize == if size > 0 then size else DefaultChunkSize
    ensures 0 <= overlap < c.chunkSize ==> c.chunkOverlap == overlap
    ensures overlap < 0 ==> c.chunkOverlap == 0
    ensures overlap >= c.chunkSize ==> c.chunkOverlap == c.chunkSize / 2
    ensures c.Step() == c.chunkSize - c.chunkOverlap
  {
    var size := if size <= 0 then DefaultChunkSize else size;
    var overlap := if overlap < 0 then 0 else overlap;
    var overlap := if overlap >= size then size / 2 else overlap;
    SimpleChunker(size, overlap)
  }

  /** The chunks the loop produces from rune index `i` on. */
  function ChunksFrom(text: string, size: nat, step: nat, i: nat): seq<string>
    requires step > 0 && i < |text|
    decreases |text| - i
  {
    var end := Min(i + size, |text|);
    [text[i..end]] + (if end == |text| || i + step >= |text| then [] else ChunksFrom(text, size, step, i + step))
  }

  /** What Chunk returns, case by case. */
  function ChunkSpec(c: SimpleChunker, text: string): seq<string>
    requires text == [] || c.chunkSize >= 0
  {
    if text == [] then []
    else if |text| <= c.chunkSize then [text]
    else ChunksFrom(text, c.chunkSize, c.Step(), 0)
  }

  /** Chunk: slices of at most ChunkSize runes, starting every Step() runes. */
  method Chunk(c: SimpleChunker, text: string) returns (chunks: seq<string>)
    requires text == [] || c.chunkSize >= 0
    ensures chunks == ChunkSpec(c, text)
  {
    if text == [] {
      return [];
    }
    var total := |text|;
    if total <= c.chunkSize {
      return [text];
    }
    var step := c.chunkSize - c.chunkOverlap;
    if step <= 0 {
      step := 1;
    }
    assert step == c.Step();
    chunks := ChunkLoop(text, c.chunkSize, step);
  }

  /** The loop of Chunk: a slice of up to `size` runes every `step` runes, until one reaches the end. */
  method ChunkLoop(text: string, size: nat, step: nat) returns (chunks: seq<string>)
    requires step > 0 && text != []
    ensures chunks == ChunksFrom(text, size, step, 0)
  {
    chunks := [];
    var total := |text|;
    var i := 0;
    while i < total
      invariant 0 <= i
      invariant i < total ==> chunks + ChunksFrom(text, size, step, i) == ChunksFrom(text, size, step, 0)
      invariant i >= total ==> chunks == ChunksFrom(text, size, step, 0)
      decreases total - i
    {
      var end := Min(i + size, total);
      var piece := text[i..end];
      ghost var rest := if end == total || i + step >= total then [] else ChunksFrom(text, size, step, i + step);
      assert ChunksFrom(text, size, step, i) == [piece] + rest;
      AppendAssoc(chunks, [piece], rest);
      chunks := chunks + [piece];
      if end == total {
        AppendEmpty(chunks);
        break;
      }
      i := i + step;
    }
  }

  /** No chunk is longer than ChunkSize; with a positive size none is empty. */
  lemma ChunkSizes(c: SimpleChunker, text: string)
    requires text == [] || c.chunkSize >= 0
    ensures var cs := ChunkSpec(c, text);
      (text == [] <==> cs == []) &&
      (0 < |text| <= c.chunkSize ==> cs == [text]) &&
      forall k :: 0 <= k < |cs| ==> |cs[k]| <= c.chunkSize && (c.chunkSize > 0 ==> cs[k] != [])
  {
    if text != [] && |text| > c.chunkSize {
      ChunksFromBounds(text, c.chunkSize, c.Step(), 0);
    }
  }

  lemma {:induction false} ChunksFromBounds(text: string, size: nat, step: nat, i: nat)
    requires step > 0 && i < |text|
    ensures var cs := ChunksFrom(text, size, step, i);
      |cs| > 0 && forall k :: 0 <= k < |cs| ==> |cs[k]| <= size && (size > 0 ==> cs[k] != [])
    decreases |text| - i
  {
    var end := Min(i + size, |text|);
    if !(end == |text| || i + step >= |text|) {
      ChunksFromBounds(text, size, step, i + step);
    }
  }

  /** Chunk k starts at rune i + k*step and holds up to `size` runes. */
  lemma {:induction false} ChunkAt(text: string, size: nat, step: nat, i: nat, k: nat)
    requires step > 0 && i < |text|
    requires k < |ChunksFrom(text, size, step, i)|
    ensures i + k * step < |text|
    ensures ChunksFrom(text, size, step, i)[k] == text[i + k * step..Min(i + k * step + size, |text|)]
    decreases |text| - i
  {
    if k == 0 {
      ChunkHead(text, size, step, i);
    } else {
      ChunkTail(text, size, step, i);
      ChunkAt(text, size, step, i + step, k - 1);
      MulStep(i, step, k);
    }
  }

  lemma MulStep(i: int, step: int, k: int)
    ensures (i + step) + (k - 1) * step == i + k * step
  {
  }

  /** Reassembles chunks by dropping the overlap from the end of each chunk but the last. */
  function Rejoin(cs: seq<string>, overlap: nat): string
  {
    if cs == [] then []
    else if |cs| == 1 then cs[0]
    else cs[0][..if |cs[0]| >= overlap then |cs[0]| - overlap else 0] + Rejoin(cs[1..], overlap)
  }

  lemma {:induction false} RejoinFrom(text: string, size: nat, step: nat, i: nat)
    requires 0 < step <= size && i < |text|
    ensures Rejoin(ChunksFrom(text, size, step, i), size - step) == text[i..]
    decreases |text| - i
  {
    var cs := ChunksFrom(text, size, step, i);
    if |cs| == 1 {
      ChunkSingle(text, size, step, i);
    } else {
      ChunkTail(text, size, step, i);
      ChunkRest(text, size, step, i);
      RejoinFrom(text, size, step, i + step);
      var first := cs[0];
      TakeOfSlice(text, i, i + size, step);
      assert first[..step] == text[i..i + step];
      assert size - (size - step) == step;
      assert Rejoin(cs, size - step) == first[..step] + Rejoin(cs[1..], size - step);
      SplitSuffix(text, i, i + step);
    }
  }

  /** When chunks overlap or touch, a lone chunk is the whole rest of the text. */
  lemma ChunkSingle(text: string, size: nat, step: nat, i: nat)
    requires 0 < step <= size && i < |text|
    requires |ChunksFrom(text, size, step, i)| == 1
    ensures ChunksFrom(text, size, step, i) == [text[i..]]
  {
    assert i + size >= |text|;
    assert text[i..|text|] == text[i..];
  }

  lemma ChunkRest(text: string, size: nat, step: nat, i: nat)
    requires step > 0 && i < |text|
    requires |ChunksFrom(text, size, step, i)| > 1
    ensures i + step < |text|
    ensures ChunksFrom(text, size, step, i)[1..] == ChunksFrom(text, size, step, i + step)
  {
  }

  /** Chunking loses nothing: removing each overlap and concatenating gives the text back. */
  lemma ChunkRejoin(c: SimpleChunker, text: string)
    requires c.Valid()
    ensures Rejoin(ChunkSpec(c, text), c.chunkOverlap) == text
  {
    if |text| > c.chunkSize {
      RejoinFrom(text, c.chunkSize, c.Step(), 0);
    }
  }

  /** Every chunk of a valid chunker starts at k*Step(), and the last one ends at the end of the text. */
  lemma ChunkLayout(c: SimpleChunker, text: string, k: nat)
    requires c.Valid() && |text| > c.chunkSize
    requires k < |ChunkSpec(c, text)|
    ensures k * c.Step() < |text|
    ensures ChunkSpec(c, text)[k] == text[k * c.Step()..Min(k * c.Step() + c.chunkSize, |text|)]
    ensures k == |ChunkSpec(c, text)| - 1 ==> k * c.Step() + |ChunkSpec(c, text)[k]| == |text|
  {
    ChunkAt(text, c.chunkSize, c.Step(), 0, k);
    if k == |ChunkSpec(c, text)| - 1 {
      LastChunkReachesEnd(text, c.chunkSize, c.Step(), 0);
    }
  }

  lemma {:induction false} LastChunkReachesEnd(text: string, size: nat, step: nat, i: nat)
    requires 0 < step <= size && i < |text|
    ensures var cs := ChunksFrom(text, size, step, i);
      var n := |cs| - 1;
      i + n * step < |text| && Min(i + n * step + size, |text|) == |text|
    decreases |text| - i
  {
    var end := Min(i + size, |text|);
    if !(end == |text| || i + step >= |text|) {
      LastChunkReachesEnd(text, size, step, i + step);
      var n := |ChunksFrom(text, size, step, i + step)|;
      assert i + n * step == (i + step) + (n - 1) * step;
    }
  }

  /** Consecutive chunks share exactly ChunkOverlap runes. */
  lemma ChunkOverlapShared(c: SimpleChunker, text: string, k: nat)
    requires c.Valid()
    requires k + 1 < |ChunkSpec(c, text)|
    ensures var cs := ChunkSpec(c, text);
      |cs[k]| == c.chunkSize && |cs[k + 1]| > c.chunkOverlap &&
      cs[k][c.chunkSize - c.chunkOverlap..] == cs[k + 1][..c.chunkOverlap]
  {
    assert ChunkSpec(c, text) == ChunksFrom(text, c.chunkSize, c.Step(), 0);
    OverlapFrom(text, c.chunkSize, c.Step(), 0, k);
  }

  /** Chunk k is full, and its last size - step runes open chunk k + 1. */
  lemma {:induction false} OverlapFrom(text: string, size: nat, step: nat, i: nat, k: nat)
    requires 0 < step <= size && i < |text|
    requires k + 1 < |ChunksFrom(text, size, step, i)|
    ensures var cs := ChunksFrom(text, size, step, i);
      |cs[k]| == size && |cs[k + 1]| > size - step && cs[k][step..] == cs[k + 1][..size - step]
    decreases |text| - i
  {
    ChunkTail(text, size, step, i);
    if k == 0 {
      ChunkHead(text, size, step, i + step);
      var next := Min(i + step + size, |text|);
      DropOfSlice(text, i, i + size, step);
      TakeOfSlice(text, i + step, next, size - step);
    } else {
      OverlapFrom(text, size, step, i + step, k - 1);
    }
  }

  /** The first chunk from `i`. */
  lemma ChunkHead(text: string, size: nat, step: nat, i: nat)
    requires step > 0 && i < |text|
    ensures ChunksFrom(text, size, step, i)[0] == text[i..Min(i + size, |text|)]
  {
  }

  /** When there is a second chunk, the first is full and the rest are the chunks from `i + step`. */
  lemma ChunkTail(text: string, size: nat, step: nat, i: nat)
    requires step > 0 && i < |text|
    requires |ChunksFrom(text, size, step, i)| > 1
    ensures i + size < |text| && i + step < |text|
    ensures ChunksFrom(text, size, step, i)[0] == text[i..i + size]
    ensures |ChunksFrom(text, size, step, i)| == |ChunksFrom(text, size, step, i + step)| + 1
    ensures forall j :: 0 < j < |ChunksFrom(text, size, step, i)| ==>
      ChunksFrom(text, size, step, i)[j] == ChunksFrom(text, size, step, i + step)[j - 1]
  {
  }

  /** A chunk that reaches the end of the text is the last one. */
  lemma {:induction false} NoChunkAfterEnd(text: string, size: nat, step: nat, i: nat, k: nat)
    requires 0 < step && i < |text|
    requires i + k * step + size >= |text|
    ensures |ChunksFrom(text, size, step, i)| <= k + 1
    decreases |text| - i
  {
    var end := Min(i + size, |text|);
    if !(end == |text| || i + step >= |text|) {
      assert k > 0;
      assert (i + step) + (k - 1) * step == i + k * step;
      NoChunkAfterEnd(text, size, step, i + step, k - 1);
    }
  }
}
