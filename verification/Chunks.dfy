/**
 An asset cut into chunks of 192 KiB (apps/extension/background/cloud-claim.js:342-349), and sums over maps.
 */
module Chunks {
  import opened Basics

  type byte = bv8

  const CHUNK: nat := 196608

  function TotalChunks(len: nat): nat { (len + CHUNK - 1) / CHUNK }

  function Chunk(asset: seq<byte>, sequence: nat): seq<byte> {
    if sequence * CHUNK >= |asset| then []
    else asset[sequence * CHUNK..Min(sequence * CHUNK + CHUNK, |asset|)]
  }

  function Chunked(asset: seq<byte>, n: nat): seq<seq<byte>> { seq(n, i requires 0 <= i < n => Chunk(asset, i)) }

  function Join(parts: seq<seq<byte>>): seq<byte> {
    if parts == [] then [] else Join(parts[..|parts| - 1]) + parts[|parts| - 1]
  }

  // The first n chunks are the first n times 192 KiB.
  lemma {:induction false} ChunksArePrefix(asset: seq<byte>, n: nat)
    ensures Join(Chunked(asset, n)) == asset[..Min(n * CHUNK, |asset|)]
  {
    if n == 0 {
    } else {
      ChunksArePrefix(asset, n - 1);
      assert Chunked(asset, n)[..n - 1] == Chunked(asset, n - 1);
    }
  }

  // They are the whole asset from ceil(length / 192 Ki) chunks on, and not before.
  lemma WholeIff(asset: seq<byte>, n: nat)
    ensures Join(Chunked(asset, n)) == asset <==> n >= TotalChunks(|asset|)
  {
    ChunksArePrefix(asset, n);
  }

  // The end flag of a chunk says exactly that it is the last one.
  lemma LastChunk(asset: seq<byte>, sequence: nat)
    requires sequence < TotalChunks(|asset|)
    ensures sequence * CHUNK + |Chunk(asset, sequence)| == |asset| <==> sequence + 1 == TotalChunks(|asset|)
    ensures Chunk(asset, sequence) != []
  {
  }

  // ---------- sums ----------

  ghost function Sum<K(!new)>(m: map<K, nat>): nat {
    if m == map[] then 0 else var k :| k in m; m[k] + Sum(m - {k})
  }

  lemma {:induction false} SumWithout<K(!new)>(m: map<K, nat>, k: K)
    requires k in m
    ensures Sum(m) == m[k] + Sum(m - {k})
    decreases |m|
  {
    var j :| j in m && Sum(m) == m[j] + Sum(m - {j});
    if j == k {
    } else {
      SumWithout(m - {j}, k);
      SumWithout(m - {k}, j);
      assert m - {j} - {k} == m - {k} - {j};
    }
  }

  lemma SumWith<K(!new)>(m: map<K, nat>, k: K, n: nat)
    ensures Sum(m[k := n]) == Sum(m) - (if k in m then m[k] else 0) + n
  {
    SumWithout(m[k := n], k);
    assert m[k := n] - {k} == m - {k};
    if k in m { SumWithout(m, k); } else { assert m - {k} == m; }
  }
}
