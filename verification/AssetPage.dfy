/**
 The page's loop that fetches one asset chunk by chunk, while anything else happens in between
 (apps/worker/src/onboarding-assets.ts:454-463).
 */
module AssetPage {
  import opened Basics
  import opened Chunks
  import opened Transfers

  // Whoever starts the slot encodes the same screenshot: the draft is checked against its fingerprint.
  ghost predicate SameAsset(w: ClaimAssets, key: Key, bytes: seq<byte>)
    reads w
  {
    w.Valid() && (key in w.transfers ==> w.transfers[key].bytes == bytes)
  }

  // What was ever started keeps its bytes.
  ghost predicate Grown(before: map<nat, seq<byte>>, after: map<nat, seq<byte>>) {
    forall i | i in before :: i in after && after[i] == before[i]
  }

  // Any number of other steps: other assets, expiry, snapshots, completions, other readers of this
  // asset, and others who start it anew.
  method Others(w: ClaimAssets, key: Key, bytes: seq<byte>)
    requires SameAsset(w, key, bytes)
    modifies w
    ensures SameAsset(w, key, bytes) && Grown(old(w.asset), w.asset)
  {
    var steps: int := *;
    for i := 0 to Max(0, steps)
      invariant SameAsset(w, key, bytes) && Grown(old(w.asset), w.asset)
    {
      OtherStep(w, key, bytes);
    }
  }

  method OtherStep(w: ClaimAssets, key: Key, bytes: seq<byte>)
    requires SameAsset(w, key, bytes)
    modifies w
    ensures SameAsset(w, key, bytes) && Grown(old(w.asset), w.asset)
  {
    var kind: nat, now: int, other: Key, n: nat := *, *, *, *;
    if kind == 0 {
      w.CleanupTransfers(now);
    } else if kind == 1 {
      w.ClearClaimRuntime(other.handoffId);
    } else if kind == 2 {
      var ok := w.TakeSnapshot(other.handoffId, n, now);
    } else if kind == 3 {
      OtherStart(w, key, bytes, other, now);
    } else if kind == 4 {
      var found := w.FindTransfer(other, n, now);
    } else {
      OtherChunk(w, key, bytes, other, n, now);
    }
  }

  method OtherStart(w: ClaimAssets, key: Key, bytes: seq<byte>, other: Key, now: int)
    requires SameAsset(w, key, bytes)
    modifies w
    ensures SameAsset(w, key, bytes) && Grown(old(w.asset), w.asset)
  {
    var content: seq<byte> := *;
    var ok, started := w.StoreTransfer(other, if other == key then bytes else content, now);
  }

  method OtherChunk(w: ClaimAssets, key: Key, bytes: seq<byte>, other: Key, n: nat, now: int)
    requires SameAsset(w, key, bytes)
    modifies w
    ensures SameAsset(w, key, bytes) && Grown(old(w.asset), w.asset)
  {
    var transfer: nat, open: bool := *, *;
    var served := w.ServeChunk(other, n, transfer, open, now);
  }

  // Every request of the page comes before the transfer expires and finds the hand-off open.
  ghost predicate InTime(n: nat, expiresAt: int, clock: nat -> int, open: nat -> bool) {
    forall i: nat | i < n :: clock(i) < expiresAt && open(i)
  }

  // If every request succeeds, the chunks make up the asset byte for byte, whatever happens in
  // between; and if nothing does, they all succeed exactly when the budget admits the asset and
  // each of them is in time. clock and open are what the extension reads at the nth request.
  method FetchAsset(w: ClaimAssets, key: Key, bytes: seq<byte>, now: int, clock: nat -> int, open: nat -> bool, alone: bool)
      returns (body: Option<seq<byte>>)
    requires w.Valid()
    modifies w
    ensures w.Valid() && (body.Some? ==> body.value == bytes)
    ensures alone ==> (body.Some? <==> Admits(Unexpired(old(w.transfers), now), key, |bytes|)
                                       && InTime(TotalChunks(|bytes|), now + TTL, clock, open))
  {
    var ok, identity := w.StoreTransfer(key, bytes, now);
    if !ok { return None; }
    var totalChunks := TotalChunks(|bytes|);
    var chunks: seq<seq<byte>> := [];
    for sequence := 0 to totalChunks
      invariant SameAsset(w, key, bytes) && chunks == Chunked(bytes, sequence)
      invariant alone ==> InTime(sequence, now + TTL, clock, open)
      invariant alone && sequence < totalChunks ==>
          key in w.transfers && w.transfers[key] == Transfer(identity, bytes, sequence, now + TTL)
    {
      var chunk := FetchChunk(w, key, bytes, sequence, clock(sequence), open(sequence), alone);
      if chunk.None? { return None; }
      NextChunk(bytes, sequence);
      chunks := chunks + [chunk.value];
    }
    WholeIff(bytes, totalChunks);
    body := Some(Join(chunks));
  }

  // One request: what it gives is the chunk of that number, and alone it succeeds exactly in time.
  method FetchChunk(w: ClaimAssets, key: Key, bytes: seq<byte>, sequence: nat, now: int, open: bool, alone: bool)
      returns (chunk: Option<seq<byte>>)
    requires SameAsset(w, key, bytes) && sequence < TotalChunks(|bytes|)
    requires alone ==> key in w.transfers && w.transfers[key].nextSequence == sequence
    modifies w
    ensures SameAsset(w, key, bytes) && (chunk.Some? ==> chunk.value == Chunk(bytes, sequence))
    ensures alone ==> (chunk.Some? <==> now < old(w.transfers)[key].expiresAt && open)
    ensures alone && chunk.Some? && sequence + 1 < TotalChunks(|bytes|) ==>
      key in w.transfers && w.transfers[key] == old(w.transfers)[key].(nextSequence := sequence + 1)
  {
    if !alone { Others(w, key, bytes); }
    var found := Find(w, key, bytes, sequence, now);
    if found.None? { return None; }
    if !alone { Others(w, key, bytes); }
    chunk := Receive(w, key, bytes, sequence, found.value, now, open);
  }

  // The extension before it reads the hand-off.
  method Find(w: ClaimAssets, key: Key, bytes: seq<byte>, sequence: nat, now: int) returns (found: Option<nat>)
    requires SameAsset(w, key, bytes)
    modifies w
    ensures SameAsset(w, key, bytes) && w.transfers == Unexpired(old(w.transfers), now)
    ensures found.Some? <==> key in w.transfers && w.transfers[key].nextSequence == sequence
    ensures found.Some? ==>
      w.transfers[key].identity == found.value && found.value in w.asset && w.asset[found.value] == bytes
  {
    found := w.FindTransfer(key, sequence, now);
    if found.Some? { assert Live(key, w.transfers[key], w.owner, w.asset, w.served); }
  }

  // And after it.
  method Receive(w: ClaimAssets, key: Key, bytes: seq<byte>, sequence: nat, identity: nat, now: int, open: bool)
      returns (chunk: Option<seq<byte>>)
    requires SameAsset(w, key, bytes) && identity in w.asset && w.asset[identity] == bytes
    modifies w
    ensures SameAsset(w, key, bytes) && (chunk.Some? ==> chunk.value == Chunk(bytes, sequence))
    ensures chunk.Some? <==> open && Accepts(old(w.transfers), key, sequence, identity, now)
    ensures chunk.Some? ==> w.transfers == Moved(old(w.transfers), key)
  {
    var served := w.ServeChunk(key, sequence, identity, open, now);
    chunk := if served.Some? then Some(served.value.chunk) else None;
  }
}
