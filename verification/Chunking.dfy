/** Splitting normalised knowledge into overlapping chunks, and the content-unit budget.

    Strings are sequences of code points, as the program's spread `[...content]` makes them. */
module Chunking {

  const CHUNK_SIZE := 1200
  const CHUNK_STEP := 1000

  /** The digest of a chunk is a foreign function of its content and is left out. */
  datatype Chunk = Chunk(ordinal: nat, content: string, contentUnits: nat)

  method CountCodePoints(value: string) returns (count: nat)
    ensures count == |value|
  {
    count := 0;
    for i := 0 to |value|
      invariant count == i
    {
      count := count + 1;
    }
  }

  function CeilDiv(n: nat, d: nat): (q: nat)
    requires d > 0
    ensures (q - 1) * d < n <= q * d
  {
    (n + d - 1) / d
  }

  method ContentUnits(value: string) returns (units: nat)
    ensures units == CeilDiv(|value|, 4)
  {
    var count := CountCodePoints(value);
    units := (count + 3) / 4;
  }

  function Min(a: nat, b: nat): nat { if a < b then a else b }

  /** What the chunk list must be, chunk by chunk. */
  ghost predicate IsChunking(content: string, chunks: seq<Chunk>) {
    && |chunks| == CeilDiv(|content|, CHUNK_STEP)
    && forall k :: 0 <= k < |chunks| ==> IsChunkAt(content, chunks[k], k)
  }

  ghost predicate IsChunkAt(content: string, chunk: Chunk, k: nat) {
    && k * CHUNK_STEP < |content|
    && chunk.ordinal == k
    && chunk.content == content[k * CHUNK_STEP..Min(k * CHUNK_STEP + CHUNK_SIZE, |content|)]
    && chunk.contentUnits == CeilDiv(|chunk.content|, 4)
  }

  method ChunkText(content: string) returns (chunks: seq<Chunk>)
    ensures IsChunking(content, chunks)
  {
    chunks := [];
    var start := 0;
    while start < |content|
      invariant start == |chunks| * CHUNK_STEP
      invariant |chunks| > 0 ==> start - CHUNK_STEP < |content|
      invariant forall k :: 0 <= k < |chunks| ==> IsChunkAt(content, chunks[k], k)
      decreases |content| - start
    {
      var piece := content[start..Min(start + CHUNK_SIZE, |content|)];
      if piece != "" {
        var units := ContentUnits(piece);
        chunks := chunks + [Chunk(|chunks|, piece, units)];
      }
      start := start + CHUNK_STEP;
    }
  }

  /** The first thousand code points of every chunk, joined in order. */
  function Rejoin(chunks: seq<Chunk>): string {
    if chunks == [] then ""
    else
      var last := chunks[|chunks| - 1].content;
      Rejoin(chunks[..|chunks| - 1]) + last[..Min(CHUNK_STEP, |last|)]
  }

  lemma {:induction false} RejoinPrefix(content: string, chunks: seq<Chunk>, n: nat)
    requires IsChunking(content, chunks) && n <= |chunks|
    ensures Rejoin(chunks[..n]) == content[..Min(n * CHUNK_STEP, |content|)]
  {
    if n > 0 {
      RejoinPrefix(content, chunks, n - 1);
      assert chunks[..n][..n - 1] == chunks[..n - 1];
      assert IsChunkAt(content, chunks[n - 1], n - 1);
      JoinChunk(content, n - 1);
    }
  }

  lemma JoinChunk(content: string, k: nat)
    requires k * CHUNK_STEP < |content|
    ensures var piece := content[k * CHUNK_STEP..Min(k * CHUNK_STEP + CHUNK_SIZE, |content|)];
            content[..k * CHUNK_STEP] + piece[..Min(CHUNK_STEP, |piece|)]
            == content[..Min((k + 1) * CHUNK_STEP, |content|)]
  {}

  /** Chunking loses nothing: the content can be rebuilt, every chunk is short and non-empty,
      ordinals count up from zero. */
  lemma ChunkingIsReversible(content: string, chunks: seq<Chunk>)
    requires IsChunking(content, chunks)
    ensures Rejoin(chunks) == content
    ensures forall k :: 0 <= k < |chunks| ==> chunks[k].ordinal == k && 1 <= |chunks[k].content| <= CHUNK_SIZE
  {
    RejoinPrefix(content, chunks, |chunks|);
    assert chunks[..|chunks|] == chunks && content[..|content|] == content;
    forall k | 0 <= k < |chunks|
      ensures chunks[k].ordinal == k && 1 <= |chunks[k].content| <= CHUNK_SIZE
    {
      assert IsChunkAt(content, chunks[k], k);
    }
  }

  ghost predicate Covers(chunk: Chunk, k: nat, p: nat) {
    k * CHUNK_STEP <= p < k * CHUNK_STEP + |chunk.content|
  }

  /** Position `p` lies in its own chunk, and in the previous one exactly when it is one of the
      200 overlapping positions; in no other. */
  lemma EveryPositionInOneOrTwoChunks(content: string, chunks: seq<Chunk>, p: nat, k: nat)
    requires IsChunking(content, chunks) && p < |content| && k < |chunks|
    ensures Covers(chunks[k], k, p) <==>
            k == p / CHUNK_STEP || (k == p / CHUNK_STEP - 1 && p % CHUNK_STEP < CHUNK_SIZE - CHUNK_STEP)
  {
    assert IsChunkAt(content, chunks[k], k);
  }

  /** Two texts with the same chunks are the same text. */
  lemma ChunkingIsInjective(a: string, b: string, chunks: seq<Chunk>)
    requires IsChunking(a, chunks) && IsChunking(b, chunks)
    ensures a == b
  {
    ChunkingIsReversible(a, chunks);
    ChunkingIsReversible(b, chunks);
  }

  /** The truncation of an over-long source, and its entitlement. */
  function Truncate(normalized: string, maxContentUnits: nat): string {
    normalized[..Min(|normalized|, maxContentUnits * 4)]
  }

  /** A truncated source is within its entitlement, and no longer prefix would be. */
  lemma TruncationIsTight(normalized: string, maxContentUnits: nat, n: nat)
    requires n <= |normalized|
    ensures CeilDiv(|Truncate(normalized, maxContentUnits)|, 4) <= maxContentUnits
    ensures CeilDiv(n, 4) <= maxContentUnits <==> n <= |Truncate(normalized, maxContentUnits)|
  {}
}
