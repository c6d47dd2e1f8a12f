/** Chunk arithmetic of resumable file transfers (internal/agentoperations/transfer_state.go):
    how a declared file size is cut into chunks, and what a list of chunk digests says about
    the bytes of a temporary file. */
module Chunks {
  import opened Basics

  const FILE_CHUNK_BYTES := 4 * 1024 * 1024
  const MAXIMUM_FILE_BYTES := 2 * 1024 * 1024 * 1024

  /** Go's integer division truncates toward zero. */
  function TruncDiv(a: int, b: int): int
    requires b > 0
  {
    if a >= 0 then a / b else -((-a) / b)
  }

  function ChunkCount(size: int): int {
    TruncDiv(size + FILE_CHUNK_BYTES - 1, FILE_CHUNK_BYTES)
  }

  function ChunkLength(size: int, index: int): Option<nat> {
    if size < 0 || size > MAXIMUM_FILE_BYTES || index < 0 || index >= ChunkCount(size) then None
    else Some(Min(FILE_CHUNK_BYTES, size - index * FILE_CHUNK_BYTES))
  }

  predicate ValidSize(size: int) {
    0 <= size <= MAXIMUM_FILE_BYTES
  }

  /** Sum of the lengths of the first `count` chunks: where chunk `count` starts. */
  function Offset(size: int, count: nat): nat
    requires ValidSize(size) && count <= ChunkCount(size)
  {
    if count == 0 then 0
    else Offset(size, count - 1) + ChunkLength(size, count - 1).value
  }

  lemma {:induction false} OffsetClosed(size: int, count: nat)
    requires ValidSize(size) && count <= ChunkCount(size)
    ensures Offset(size, count) == Min(count * FILE_CHUNK_BYTES, size)
  {
    if count > 0 {
      OffsetClosed(size, count - 1);
    }
  }

  lemma {:induction false} OffsetMonotone(size: int, low: nat, high: nat)
    requires ValidSize(size) && low <= high <= ChunkCount(size)
    ensures Offset(size, low) <= Offset(size, high) <= size
    ensures low < high ==> Offset(size, low) < Offset(size, high)
  {
    OffsetClosed(size, low);
    OffsetClosed(size, high);
  }

  lemma InOwnChunk(size: int, position: int)
    requires ValidSize(size) && 0 <= position < size
    ensures InChunk(size, position / FILE_CHUNK_BYTES, position)
  {
    var index := position / FILE_CHUNK_BYTES;
    assert index < ChunkCount(size);
    OffsetClosed(size, index);
    OffsetClosed(size, index + 1);
  }

  lemma InOneChunk(size: int, index: nat, position: int)
    requires ValidSize(size) && 0 <= position < size && InChunk(size, index, position)
    ensures index == position / FILE_CHUNK_BYTES
  {
    OffsetClosed(size, index);
    OffsetClosed(size, index + 1);
    assert index * FILE_CHUNK_BYTES <= position < (index + 1) * FILE_CHUNK_BYTES;
  }

  /** The chunk lengths add up to the declared size. */
  lemma LengthsSum(size: int)
    requires ValidSize(size)
    ensures ChunkCount(size) >= 0 && Offset(size, ChunkCount(size)) == size
  {
    OffsetClosed(size, ChunkCount(size));
  }

  /** The chunks tile the file: every byte position lies in exactly one chunk. */
  lemma ChunksTile(size: int, position: int)
    requires ValidSize(size) && 0 <= position < size
    ensures exists index: nat :: InChunk(size, index, position) &&
              forall other: nat :: InChunk(size, other, position) ==> other == index
  {
    InOwnChunk(size, position);
    var own := position / FILE_CHUNK_BYTES;
    forall other: nat | InChunk(size, other, position)
      ensures other == own
    {
      InOneChunk(size, other, position);
    }
    assert InChunk(size, own, position);
  }

  predicate InChunk(size: int, index: nat, position: int)
    requires ValidSize(size)
  {
    index < ChunkCount(size) && Offset(size, index) <= position < Offset(size, index + 1)
  }

  /** `content` is exactly the chunks whose digests were journaled, in order. */
  ghost predicate Matches(hash: seq<byte> -> Hash, content: seq<byte>, digests: seq<Hash>, size: int)
    requires ValidSize(size)
  {
    && |digests| <= ChunkCount(size)
    && |content| == Offset(size, |digests|)
    && forall i :: 0 <= i < |digests| ==> ChunkMatches(hash, content, digests, size, i)
  }

  ghost predicate ChunkMatches(hash: seq<byte> -> Hash, content: seq<byte>, digests: seq<Hash>, size: int, i: nat)
    requires ValidSize(size) && i < |digests| <= ChunkCount(size)
  {
    Offset(size, i + 1) <= |content| && hash(content[Offset(size, i)..Offset(size, i + 1)]) == digests[i]
  }

  /** Writing one more chunk and journaling its digest extends the match. */
  lemma MatchesExtend(hash: seq<byte> -> Hash, content: seq<byte>, digests: seq<Hash>, size: int, chunk: seq<byte>)
    requires ValidSize(size) && Matches(hash, content, digests, size)
    requires |digests| < ChunkCount(size) && |chunk| == ChunkLength(size, |digests|).value
    ensures Matches(hash, content + chunk, digests + [hash(chunk)], size)
  {
    var after, named := content + chunk, digests + [hash(chunk)];
    forall i | 0 <= i < |named|
      ensures ChunkMatches(hash, after, named, size, i)
    {
      OffsetMonotone(size, i + 1, |named|);
      var low, high := Offset(size, i), Offset(size, i + 1);
      if i < |digests| {
        OffsetMonotone(size, i + 1, |digests|);
        assert ChunkMatches(hash, content, digests, size, i);
        assert after[low..high] == content[low..high];
      } else {
        assert after[low..high] == chunk;
      }
    }
  }

  ghost predicate CollisionFree(hash: seq<byte> -> Hash) {
    forall a, b :: hash(a) == hash(b) ==> a == b
  }

  function Flatten(chunks: seq<seq<byte>>): seq<byte> {
    if chunks == [] then [] else Flatten(chunks[..|chunks| - 1]) + chunks[|chunks| - 1]
  }

  /** With a collision-free digest the journaled digests determine the bytes: whatever a crash
      did to the file, a prefix that still matches is the downloaded chunks, each once, in order. */
  lemma {:induction false} MatchesDetermines(hash: seq<byte> -> Hash, content: seq<byte>, digests: seq<Hash>,
                                             size: int, chunks: seq<seq<byte>>)
    requires ValidSize(size) && CollisionFree(hash)
    requires Matches(hash, content, digests, size) && |chunks| == |digests|
    requires forall i :: 0 <= i < |chunks| ==> digests[i] == hash(chunks[i])
    ensures content == Flatten(chunks)
    decreases |digests|
  {
    if |digests| > 0 {
      var last := |digests| - 1;
      var cut := Offset(size, last);
      OffsetMonotone(size, last, |digests|);
      assert ChunkMatches(hash, content, digests, size, last);
      assert content[cut..] == content[cut..Offset(size, |digests|)] == chunks[last];
      forall i | 0 <= i < last
        ensures ChunkMatches(hash, content[..cut], digests[..last], size, i)
      {
        OffsetMonotone(size, i + 1, last);
        assert ChunkMatches(hash, content, digests, size, i);
        SliceOfPrefix(content, cut, Offset(size, i), Offset(size, i + 1));
      }
      MatchesDetermines(hash, content[..cut], digests[..last], size, chunks[..last]);
      assert content == content[..cut] + content[cut..];
    }
  }

  /** A full list of digests means a file of exactly the declared size. */
  lemma MatchesComplete(hash: seq<byte> -> Hash, content: seq<byte>, digests: seq<Hash>, size: int)
    requires ValidSize(size) && Matches(hash, content, digests, size) && |digests| >= ChunkCount(size)
    ensures |content| == size
  {
    LengthsSum(size);
  }
}
