/** `compute_checksum` (identical in both tools): the file is read in chunks of
    at most CHUNK_SIZE bytes until the first empty read, and every chunk is fed
    to the streaming hasher in order. */
module Checksum {
  import opened Storage

  const CHUNK_SIZE: nat := 8192

  /** The bytes of all chunks, in order. */
  ghost function Concat(chunks: seq<seq<byte>>): seq<byte>
  {
    if chunks == [] then [] else Concat(chunks[..|chunks| - 1]) + chunks[|chunks| - 1]
  }

  /** `f.read(CHUNK_SIZE)` at offset `pos`: empty exactly at end of file. */
  function ReadChunk(content: seq<byte>, pos: nat): (chunk: seq<byte>)
    requires pos <= |content|
    ensures |chunk| <= CHUNK_SIZE && pos + |chunk| <= |content|
    ensures chunk == content[pos..pos + |chunk|]
    ensures chunk == [] <==> pos == |content|
    ensures |chunk| < CHUNK_SIZE ==> pos + |chunk| == |content|
  {
    if |content| - pos <= CHUNK_SIZE then content[pos..] else content[pos..pos + CHUNK_SIZE]
  }

  /** The loop of `compute_checksum`. `fed` is the hasher's state: the bytes
      given to `update` so far. The ghost `chunks` records the reads. */
  method ComputeChecksum(content: seq<byte>, hash: Hasher) returns (digest: string, ghost chunks: seq<seq<byte>>)
    ensures digest == hash(content)
    ensures Concat(chunks) == content
    ensures forall i :: 0 <= i < |chunks| ==> 0 < |chunks[i]| <= CHUNK_SIZE
    ensures forall i :: 0 <= i < |chunks| - 1 ==> |chunks[i]| == CHUNK_SIZE
  {
    var fed: seq<byte> := [];
    var pos: nat := 0;
    chunks := [];
    while true
      invariant pos <= |content|
      invariant fed == content[..pos]
      invariant Concat(chunks) == fed
      invariant forall i :: 0 <= i < |chunks| ==> 0 < |chunks[i]| <= CHUNK_SIZE
      invariant forall i :: 0 <= i < |chunks| - 1 ==> |chunks[i]| == CHUNK_SIZE
      invariant chunks != [] && |chunks[|chunks| - 1]| < CHUNK_SIZE ==> pos == |content|
      decreases |content| - pos
    {
      var chunk := ReadChunk(content, pos);
      if chunk == [] {
        break;
      }
      fed := fed + chunk;
      chunks := chunks + [chunk];
      pos := pos + |chunk|;
    }
    assert fed == content;
    digest := hash(fed);
  }
}
