/**
 * The chunk reader behind `get_content_chunk`: a window of `chunk_size` characters
 * taken from a stored string at offset `start`, together with what a caller needs to
 * ask for the next window.
 */
module Chunking {

  /** The JSON object `get_content_chunk` answers with. */
  datatype ChunkResponse = ChunkResponse(chunk: string, hasMore: bool, totalLength: nat, nextStart: nat)

  function Min(a: nat, b: nat): nat {
    if a <= b then a else b
  }

  /**
   * The window of `content` at `start` (`std::cmp::min(start + chunk_size, total_length)`
   * is its end). The chunk is the slice from `start` to `nextStart`, as long as
   * `chunkSize` allows; `hasMore` says whether anything follows it.
   */
  function ContentChunk(content: string, start: nat, chunkSize: nat): (r: ChunkResponse)
    ensures r.totalLength == |content|
    ensures r.nextStart <= |content| && |r.chunk| <= chunkSize
    ensures start < |content| ==>
      && start <= r.nextStart
      && r.chunk == content[start..r.nextStart]
      && |r.chunk| == Min(chunkSize, |content| - start)
      && (r.hasMore <==> r.nextStart < |content|)
    ensures start >= |content| ==> r.chunk == [] && !r.hasMore && r.nextStart == |content|
  {
    var totalLength := |content|;
    var end := Min(start + chunkSize, totalLength);
    if start >= totalLength then
      ChunkResponse([], false, totalLength, totalLength)
    else
      ChunkResponse(content[start..end], end < totalLength, totalLength, end)
  }

  /** With `chunk_size = 0` a read inside the content returns nothing and claims more
      is to come without moving: a caller following `next_start` never finishes. */
  lemma ZeroChunkSizeMakesNoProgress(content: string, start: nat)
    requires start < |content|
    ensures ContentChunk(content, start, 0) == ChunkResponse([], true, |content|, start)
  {
  }

  /**
   * The chunks a caller receives when it starts at `start` and re-asks at `nextStart`
   * until `hasMore` is false, the last (possibly empty) answer included.
   */
  function ChunksFrom(content: string, start: nat, chunkSize: nat): (chunks: seq<string>)
    requires chunkSize > 0
    ensures |chunks| >= 1
    decreases |content| - start
  {
    var r := ContentChunk(content, start, chunkSize);
    if r.hasMore then [r.chunk] + ChunksFrom(content, r.nextStart, chunkSize) else [r.chunk]
  }

  function Concat(parts: seq<string>): string {
    if parts == [] then [] else parts[0] + Concat(parts[1..])
  }

  /** Following `nextStart` from `start` reproduces the content from `start` on. */
  lemma {:induction false} ChunksReassemble(content: string, start: nat, chunkSize: nat)
    requires chunkSize > 0 && start <= |content|
    ensures Concat(ChunksFrom(content, start, chunkSize)) == content[start..]
    decreases |content| - start
  {
    var r := ContentChunk(content, start, chunkSize);
    var chunks := ChunksFrom(content, start, chunkSize);
    if r.hasMore {
      ChunksReassemble(content, r.nextStart, chunkSize);
      assert chunks[1..] == ChunksFrom(content, r.nextStart, chunkSize);
      assert content[start..] == content[start..r.nextStart] + content[r.nextStart..];
    } else {
      assert chunks[1..] == [];
    }
  }

  /** The round trip: reading from offset 0 gives back exactly the stored string. */
  lemma ChunkedReadRoundTrip(content: string, chunkSize: nat)
    requires chunkSize > 0
    ensures Concat(ChunksFrom(content, 0, chunkSize)) == content
  {
    ChunksReassemble(content, 0, chunkSize);
  }

  /** Every chunk but the last is exactly `chunkSize` long; the last is no longer and
      is empty only when nothing was left to read. */
  lemma {:induction false} ChunkLengths(content: string, start: nat, chunkSize: nat)
    requires chunkSize > 0
    ensures var chunks := ChunksFrom(content, start, chunkSize);
      && (forall k | 0 <= k < |chunks| - 1 :: |chunks[k]| == chunkSize)
      && (0 < |chunks[|chunks| - 1]| <= chunkSize || (start >= |content| && chunks == [[]]))
    decreases |content| - start
  {
    var r := ContentChunk(content, start, chunkSize);
    if r.hasMore {
      ChunkLengths(content, r.nextStart, chunkSize);
      var chunks := ChunksFrom(content, start, chunkSize);
      assert chunks[1..] == ChunksFrom(content, r.nextStart, chunkSize);
    }
  }

  /** The number of answers a caller receives is the number of started blocks of
      `chunkSize` characters (the ceiling of the remaining length over `chunkSize`),
      or a single empty answer at the end of the content. */
  lemma {:induction false} ChunkCount(content: string, start: nat, chunkSize: nat)
    requires chunkSize > 0
    ensures var n := |ChunksFrom(content, start, chunkSize)|;
      if start >= |content| then n == 1
      else (n - 1) * chunkSize < |content| - start <= n * chunkSize
    decreases |content| - start
  {
    var r := ContentChunk(content, start, chunkSize);
    if r.hasMore {
      ChunkCount(content, r.nextStart, chunkSize);
      var chunks := ChunksFrom(content, start, chunkSize);
      assert chunks[1..] == ChunksFrom(content, r.nextStart, chunkSize);
      var n := |chunks|;
      assert r.nextStart == start + chunkSize;
      assert (n - 1) * chunkSize == (n - 2) * chunkSize + chunkSize;
      assert n * chunkSize == (n - 1) * chunkSize + chunkSize;
    }
  }
}
