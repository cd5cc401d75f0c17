/**
 * The batching step of playlist creation: the URIs are cut into consecutive
 * chunks of at most 100, the most the playlist-population call accepts, and
 * the chunks are submitted one after another in order.
 */
module Batching {

  const BatchSize: nat := 100

  /** Python's `len(range(0, n, 100))`: the number of chunks, ceil(n / 100). */
  function NumChunks(n: nat): nat
  {
    (n + BatchSize - 1) / BatchSize
  }

  function Min(a: int, b: int): int
  {
    if a <= b then a else b
  }

  /** The chunking comprehension: slice `[i:i + 100]` for every `i` in `range(0, len(uris), 100)`. */
  function Chunks(uris: seq<string>): (r: seq<seq<string>>)
    ensures |r| == NumChunks(|uris|)
    ensures r == [] <==> uris == []
    ensures forall k :: 0 <= k < |r| ==> 0 < |r[k]| <= BatchSize
    ensures forall k :: 0 <= k < |r| - 1 ==> |r[k]| == BatchSize
  {
    seq(NumChunks(|uris|), k requires 0 <= k < NumChunks(|uris|) =>
      uris[k * BatchSize .. Min((k + 1) * BatchSize, |uris|)])
  }

  /** The concatenation of a sequence of chunks. */
  function Flatten(chunks: seq<seq<string>>): seq<string>
  {
    if |chunks| == 0 then [] else chunks[0] + Flatten(chunks[1..])
  }

  /** The first chunk is the first 100 URIs (or all of them), and the rest is the chunking of what follows. */
  lemma ChunksCons(uris: seq<string>)
    requires uris != []
    ensures var m := Min(BatchSize, |uris|);
      Chunks(uris) == [uris[..m]] + Chunks(uris[m..])
  {
    var m := Min(BatchSize, |uris|);
    var r, rest := Chunks(uris), Chunks(uris[m..]);
    assert |r| == 1 + |rest|;
    forall k | 0 <= k < |rest|
      ensures r[k + 1] == rest[k]
    {
      assert uris[m..][k * BatchSize .. Min((k + 1) * BatchSize, |uris| - m)]
          == uris[(k + 1) * BatchSize .. Min((k + 2) * BatchSize, |uris|)];
    }
    assert r == [uris[..m]] + rest;
  }

  /** The chunks concatenate back to the input, so every URI is submitted once, in order. */
  lemma {:induction false} ChunksFlatten(uris: seq<string>)
    ensures Flatten(Chunks(uris)) == uris
    decreases |uris|
  {
    if uris != [] {
      var m := Min(BatchSize, |uris|);
      ChunksCons(uris);
      ChunksFlatten(uris[m..]);
      assert ([uris[..m]] + Chunks(uris[m..]))[1..] == Chunks(uris[m..]);
      assert uris == uris[..m] + uris[m..];
    }
  }

  /** The example from the design: 250 URIs go out as chunks of 100, 100 and 50. */
  lemma ChunksExample(uris: seq<string>)
    requires |uris| == 250
    ensures |Chunks(uris)| == 3
    ensures |Chunks(uris)[0]| == 100 && |Chunks(uris)[1]| == 100 && |Chunks(uris)[2]| == 50
  {
  }

  /**
   * The submission loop: the chunks are handed to the playlist-population
   * call one at a time, in chunk order. The calls themselves are not part of
   * the model; `requests` is the sequence of their track arguments.
   */
  method AddTracksInChunks(uris: seq<string>) returns (requests: seq<seq<string>>)
    ensures requests == Chunks(uris)
    ensures Flatten(requests) == uris
    ensures forall k :: 0 <= k < |requests| ==> |requests[k]| <= BatchSize
  {
    var chunked := Chunks(uris);
    requests := [];
    for i := 0 to |chunked|
      invariant requests == chunked[..i]
    {
      requests := requests + [chunked[i]];
    }
    assert chunked[..|chunked|] == chunked;
    ChunksFlatten(uris);
  }
}
