/**
 In-memory transfers and snapshots under one byte budget, and assets handed out chunk by chunk
 (apps/extension/background/cloud-claim.js:196-226,243-252,285-355,474). Each method is the code between two
 awaits, so the methods interleave in any order.
 */
module Transfers {
  import opened Basics
  import opened Chunks

  const MAX_TOTAL: nat := 104857600
  const MAX_ASSET: nat := 10485760
  const TTL: nat := 600000

  datatype Key = Key(handoffId: string, slot: nat)

  // Two transfers are the same object when their identity is the same.
  datatype Transfer = Transfer(identity: nat, bytes: seq<byte>, nextSequence: nat, expiresAt: int)

  datatype Snapshot = Snapshot(estimatedBytes: nat, expiresAt: int)

  datatype Served = Served(chunk: seq<byte>, finished: bool)

  ghost function Sizes(m: map<Key, Transfer>): map<Key, nat> { map k | k in m :: |m[k].bytes| }

  ghost function Estimates(m: map<string, Snapshot>): map<string, nat> { map k | k in m :: m[k].estimatedBytes }

  // What has been served on each transfer ever started is its chunks, in order, from the first.
  ghost predicate HistoryOk(asset: map<nat, seq<byte>>, served: map<nat, seq<seq<byte>>>) {
    asset.Keys == served.Keys &&
    forall i | i in asset :: |served[i]| <= TotalChunks(|asset[i]|) && served[i] == Chunked(asset[i], |served[i]|)
  }

  ghost predicate Live(k: Key, t: Transfer, owner: map<nat, Key>, asset: map<nat, seq<byte>>, served: map<nat, seq<seq<byte>>>) {
    && t.identity in owner && owner[t.identity] == k
    && t.identity in asset && t.identity in served && asset[t.identity] == t.bytes
    && |served[t.identity]| == t.nextSequence && |t.bytes| <= MAX_ASSET
    && (t.bytes != [] ==> t.nextSequence < TotalChunks(|t.bytes|))
  }

  // A transfer in memory continues where its history stands, and is not at its end.
  ghost predicate LiveOk(m: map<Key, Transfer>, owner: map<nat, Key>, asset: map<nat, seq<byte>>, served: map<nat, seq<seq<byte>>>) {
    forall k | k in m :: Live(k, m[k], owner, asset, served)
  }

  ghost predicate Started(n: nat, owner: map<nat, Key>, asset: map<nat, seq<byte>>) {
    forall i | i in asset || i in owner :: i < n
  }

  // Forgetting transfers leaves the others as they were.
  lemma LiveStays(m: map<Key, Transfer>, more: map<Key, Transfer>, owner: map<nat, Key>, asset: map<nat, seq<byte>>, served: map<nat, seq<seq<byte>>>)
    requires LiveOk(more, owner, asset, served)
    requires forall k | k in m :: k in more && m[k] == more[k]
    ensures LiveOk(m, owner, asset, served)
  {
    forall k | k in m ensures Live(k, m[k], owner, asset, served) { assert Live(k, more[k], owner, asset, served); }
  }

  lemma NextChunk(bytes: seq<byte>, n: nat)
    ensures Chunked(bytes, n) + [Chunk(bytes, n)] == Chunked(bytes, n + 1)
  {
  }

  lemma HistoryStarts(n: nat, bytes: seq<byte>, asset: map<nat, seq<byte>>, served: map<nat, seq<seq<byte>>>)
    requires HistoryOk(asset, served)
    ensures HistoryOk(asset[n := bytes], served[n := []])
  {
    assert Chunked(bytes, 0) == [];
  }

  lemma LiveStarts(m: map<Key, Transfer>, key: Key, t: Transfer, owner: map<nat, Key>, asset: map<nat, seq<byte>>, served: map<nat, seq<seq<byte>>>)
    requires LiveOk(m, owner, asset, served) && Started(t.identity, owner, asset) && t.nextSequence == 0 && |t.bytes| <= MAX_ASSET
    ensures LiveOk(m[key := t], owner[t.identity := key], asset[t.identity := t.bytes], served[t.identity := []])
  {
    forall k | k in m ensures m[k].identity < t.identity { assert Live(k, m[k], owner, asset, served); }
  }

  lemma HistoryGrows(i: nat, chunk: seq<byte>, asset: map<nat, seq<byte>>, served: map<nat, seq<seq<byte>>>)
    requires HistoryOk(asset, served) && i in asset && |served[i]| < TotalChunks(|asset[i]|) && chunk == Chunk(asset[i], |served[i]|)
    ensures HistoryOk(asset, served[i := served[i] + [chunk]])
  {
    NextChunk(asset[i], |served[i]|);
  }

  // One more chunk on the transfer of one key leaves every other where it was.
  lemma LiveAdvances(m: map<Key, Transfer>, key: Key, chunk: seq<byte>, owner: map<nat, Key>, asset: map<nat, seq<byte>>, served: map<nat, seq<seq<byte>>>)
    requires LiveOk(m, owner, asset, served) && key in m && m[key].identity in served
    requires m[key].nextSequence < TotalChunks(|m[key].bytes|)
    ensures LiveOk(Moved(m, key), owner, asset, served[m[key].identity := served[m[key].identity] + [chunk]])
  {
    var i, n := m[key].identity, Moved(m, key);
    assert Live(key, m[key], owner, asset, served);
    forall k | k in n ensures Live(k, n[k], owner, asset, served[i := served[i] + [chunk]]) {
      assert Live(k, m[k], owner, asset, served);
    }
  }

  lemma EstimatesWith(m: map<string, Snapshot>, handoffId: string, s: Snapshot)
    ensures Sum(Estimates(m[handoffId := s])) == Sum(Estimates(m)) - Estimated(m, handoffId) + s.estimatedBytes
    ensures Sum(Estimates(m)) >= Estimated(m, handoffId)
  {
    SumWith(Estimates(m), handoffId, s.estimatedBytes);
    assert Estimates(m[handoffId := s]) == Estimates(m)[handoffId := s.estimatedBytes];
    if handoffId in m { SumWithout(Estimates(m), handoffId); }
  }

  lemma SizesWith(m: map<Key, Transfer>, key: Key, t: Transfer)
    ensures Sum(Sizes(m[key := t])) == Sum(Sizes(m)) - Held(m, key) + |t.bytes|
  {
    SumWith(Sizes(m), key, |t.bytes|);
    assert Sizes(m[key := t]) == Sizes(m)[key := |t.bytes|];
  }

  // ---------- what is forgotten ----------

  // Removing one key after another: what is still to do has not been removed.
  lemma RemoveOne<K, V>(before: map<K, V>, gone: set<K>, todo: set<K>, key: K)
    requires key in todo
    ensures var rest := todo - {key}; var m := before - (gone - todo);
            before - (gone - rest) == if key in gone then m - {key} else m
  {
    var rest := todo - {key};
    assert gone - rest == if key in gone then (gone - todo) + {key} else gone - todo;
  }

  lemma RemovedAll<K, V>(before: map<K, V>, gone: set<K>)
    ensures before - (gone - {}) == before - gone && before - (gone - before.Keys) == before
  {
    assert gone - {} == gone;
  }

  predicate Accepts(m: map<Key, Transfer>, key: Key, sequence: nat, identity: nat, now: int) {
    && key in m && m[key].expiresAt > now && m[key].identity == identity
    && sequence == m[key].nextSequence && sequence < TotalChunks(|m[key].bytes|)
  }

  // The transfer of the key after one more chunk: it moves on, or is gone after the last.
  function Moved(m: map<Key, Transfer>, key: Key): map<Key, Transfer>
    requires key in m
  {
    var t := m[key];
    if t.nextSequence + 1 == TotalChunks(|t.bytes|) then m - {key} else m[key := t.(nextSequence := t.nextSequence + 1)]
  }

  ghost function Unexpired(m: map<Key, Transfer>, now: int): map<Key, Transfer> { map k | k in m && m[k].expiresAt > now :: m[k] }

  ghost function Fresh(m: map<string, Snapshot>, now: int): map<string, Snapshot> { map h | h in m && m[h].expiresAt > now :: m[h] }

  ghost function Others(m: map<Key, Transfer>, handoffId: string): map<Key, Transfer> { map k | k in m && k.handoffId != handoffId :: m[k] }

  function Held(m: map<Key, Transfer>, key: Key): nat { if key in m then |m[key].bytes| else 0 }

  function Estimated(m: map<string, Snapshot>, handoffId: string): nat {
    if handoffId in m then m[handoffId].estimatedBytes else 0
  }

  // What is kept of transfers and snapshots: those that expire later, and those of other hand-offs.
  lemma KeptAre(m: map<Key, Transfer>, s: map<string, Snapshot>, key: Key, h: string, now: int)
    ensures key in Unexpired(m, now) <==> key in m && m[key].expiresAt > now
    ensures key in Unexpired(m, now) ==> Unexpired(m, now)[key] == m[key]
    ensures h in Fresh(s, now) <==> h in s && s[h].expiresAt > now
    ensures h in Fresh(s, now) ==> Fresh(s, now)[h] == s[h]
    ensures key in Others(m, h) <==> key in m && key.handoffId != h
    ensures key in Others(m, h) ==> Others(m, h)[key] == m[key]
  {
  }

  // A transfer that moves on has the next number, one that has served its last chunk is gone, and no other changes.
  lemma MovedIs(m: map<Key, Transfer>, key: Key, other: Key)
    requires key in m
    ensures other != key ==> (other in Moved(m, key) <==> other in m) && (other in m ==> Moved(m, key)[other] == m[other])
    ensures key in Moved(m, key) <==> m[key].nextSequence + 1 != TotalChunks(|m[key].bytes|)
    ensures key in Moved(m, key) ==> Moved(m, key)[key] == Transfer(m[key].identity, m[key].bytes, m[key].nextSequence + 1, m[key].expiresAt)
  {
  }

  // An asset or a snapshot is admitted exactly when it fits by itself and together with the others.
  lemma AdmittedIff(m: map<Key, Transfer>, key: Key, s: map<string, Snapshot>, h: string, n: nat)
    ensures Admits(m, key, n) <==> n <= 10485760 && Sum(Sizes(m - {key})) + n <= 104857600
    ensures AdmitsSnapshot(s, h, n) <==> Sum(Estimates(s - {h})) + n <= 104857600
  {
    assert Sizes(m - {key}) == Sizes(m) - {key};
    assert Estimates(s - {h}) == Estimates(s) - {h};
    if key in m { SumWithout(Sizes(m), key); } else { assert m - {key} == m; }
    if h in s { SumWithout(Estimates(s), h); } else { assert s - {h} == s; }
  }

  // The budget admits an asset of n bytes in the place of what the key holds.
  ghost predicate Admits(m: map<Key, Transfer>, key: Key, n: nat) {
    n <= MAX_ASSET && Sum(Sizes(m)) - Held(m, key) + n <= MAX_TOTAL
  }

  ghost predicate AdmitsSnapshot(m: map<string, Snapshot>, handoffId: string, n: nat) {
    n <= MAX_TOTAL && Sum(Estimates(m)) - Estimated(m, handoffId) + n <= MAX_TOTAL
  }

  class ClaimAssets {
    var transfers: map<Key, Transfer>
    var snapshots: map<string, Snapshot>
    var transferTotal: int
    var transferReserved: int
    var snapshotTotal: int
    var started: nat
    ghost var owner: map<nat, Key>              // the key of each transfer ever started
    ghost var asset: map<nat, seq<byte>>         // by transfer identity
    ghost var served: map<nat, seq<seq<byte>>>  // chunks accepted on it

    // At every await: the totals are the sums over the maps, within the budget, and nothing is reserved.
    ghost predicate Valid() reads this { Balanced() && transferReserved == 0 }

    ghost predicate Balanced() reads this { Budget() && History() }

    ghost predicate Budget() reads this {
      && transferTotal == Sum(Sizes(transfers)) && snapshotTotal == Sum(Estimates(snapshots))
      && transferTotal <= MAX_TOTAL && snapshotTotal <= MAX_TOTAL
    }

    ghost predicate History() reads this {
      HistoryOk(asset, served) && LiveOk(transfers, owner, asset, served) && Started(started, owner, asset)
    }

    constructor ()
      ensures Valid()
    {
      transfers, snapshots := map[], map[];
      transferTotal, transferReserved, snapshotTotal, started := 0, 0, 0, 0;
      owner, asset, served := map[], map[], map[];
    }

    // Removing gives back exactly the transfer's bytes: the lower bound of zero is never reached.
    method RemoveTransfer(key: Key, identity: nat) returns (removed: bool)
      requires Budget()
      modifies this`transfers, this`transferTotal
      ensures Budget() && removed == (key in old(transfers) && old(transfers)[key].identity == identity)
      ensures transfers == if removed then old(transfers) - {key} else old(transfers)
      ensures transferTotal == old(transferTotal) - (if removed then |old(transfers)[key].bytes| else 0)
    {
      if key !in transfers || transfers[key].identity != identity { return false; }
      SumWithout(Sizes(transfers), key);
      assert Sizes(transfers - {key}) == Sizes(transfers) - {key};
      transferTotal := Max(0, transferTotal - |transfers[key].bytes|);
      transfers := transfers - {key};
      removed := true;
    }

    method RemoveSnapshot(handoffId: string)
      requires Budget() && handoffId in snapshots
      modifies this`snapshots, this`snapshotTotal
      ensures Budget() && snapshots == old(snapshots) - {handoffId}
      ensures snapshotTotal == old(snapshotTotal) - old(snapshots)[handoffId].estimatedBytes
    {
      SumWithout(Estimates(snapshots), handoffId);
      assert Estimates(snapshots - {handoffId}) == Estimates(snapshots) - {handoffId};
      snapshotTotal := Max(0, snapshotTotal - snapshots[handoffId].estimatedBytes);
      snapshots := snapshots - {handoffId};
    }

    method CleanupTransfers(now: int)
      requires Valid()
      modifies this`transfers, this`transferTotal, this`snapshots, this`snapshotTotal
      ensures Valid()
      ensures transfers == Unexpired(old(transfers), now) && snapshots == Fresh(old(snapshots), now)
    {
      CleanupOnlyTransfers(now);
      CleanupSnapshots(now);
    }

    method CleanupSnapshots(now: int)
      requires Valid()
      modifies this`snapshots, this`snapshotTotal
      ensures Valid() && snapshots == Fresh(old(snapshots), now)
    {
      ghost var before := snapshots;
      ghost var gone := set h | h in before && before[h].expiresAt <= now;
      var handoffs := snapshots.Keys;
      RemovedAll(before, gone);
      while handoffs != {}
        invariant Budget() && handoffs <= before.Keys && snapshots == before - (gone - handoffs)
      {
        var h :| h in handoffs;
        RemoveOne(before, gone, handoffs, h);
        handoffs := handoffs - {h};
        if snapshots[h].expiresAt <= now { RemoveSnapshot(h); }
      }
      assert snapshots == Fresh(before, now);
    }

    method CleanupOnlyTransfers(now: int)
      requires Valid()
      modifies this`transfers, this`transferTotal
      ensures Valid() && transfers == Unexpired(old(transfers), now)
    {
      ghost var before := transfers;
      ghost var gone := set k | k in before && before[k].expiresAt <= now;
      var keys := transfers.Keys;
      RemovedAll(before, gone);
      while keys != {}
        invariant Budget() && keys <= before.Keys && transfers == before - (gone - keys)
      {
        var key :| key in keys;
        RemoveOne(before, gone, keys, key);
        keys := keys - {key};
        if transfers[key].expiresAt <= now { var removed := RemoveTransfer(key, transfers[key].identity); }
      }
      assert transfers == Unexpired(before, now);
      LiveStays(transfers, before, owner, asset, served);
    }

    // After a confirmed completion nothing of the handoff is left in memory.
    method ClearClaimRuntime(handoffId: string)
      requires Valid()
      modifies this`transfers, this`transferTotal, this`snapshots, this`snapshotTotal
      ensures Valid()
      ensures transfers == Others(old(transfers), handoffId) && snapshots == old(snapshots) - {handoffId}
    {
      ClearTransfers(handoffId);
      if handoffId in snapshots { RemoveSnapshot(handoffId); }
    }

    method ClearTransfers(handoffId: string)
      requires Valid()
      modifies this`transfers, this`transferTotal
      ensures Valid() && transfers == Others(old(transfers), handoffId)
    {
      ghost var before := transfers;
      ghost var gone := set k | k in before && k.handoffId == handoffId;
      var keys := transfers.Keys;
      RemovedAll(before, gone);
      while keys != {}
        invariant Budget() && keys <= before.Keys && transfers == before - (gone - keys)
      {
        var key :| key in keys;
        RemoveOne(before, gone, keys, key);
        keys := keys - {key};
        if key.handoffId == handoffId { var removed := RemoveTransfer(key, transfers[key].identity); }
      }
      assert transfers == Others(before, handoffId);
      LiveStays(transfers, before, owner, asset, served);
    }

    // prepare, from the cleanup to the reply.
    method TakeSnapshot(handoffId: string, estimatedBytes: nat, now: int) returns (ok: bool)
      requires Valid()
      modifies this`transfers, this`transferTotal, this`snapshots, this`snapshotTotal
      ensures Valid()
      ensures ok == AdmitsSnapshot(Fresh(old(snapshots), now), handoffId, estimatedBytes)
      ensures var kept := Fresh(old(snapshots), now);
              snapshots == if ok then kept[handoffId := Snapshot(estimatedBytes, now + TTL)] else kept
      ensures transfers == Unexpired(old(transfers), now)
    {
      CleanupTransfers(now);
      ok := false;
      if estimatedBytes <= MAX_TOTAL { ok := StoreSnapshot(handoffId, Snapshot(estimatedBytes, now + TTL)); }
    }

    method StoreSnapshot(handoffId: string, s: Snapshot) returns (ok: bool)
      requires Valid()
      modifies this`snapshots, this`snapshotTotal
      ensures Valid()
      ensures ok == (Sum(Estimates(old(snapshots))) - Estimated(old(snapshots), handoffId) + s.estimatedBytes <= MAX_TOTAL)
      ensures snapshots == if ok then old(snapshots)[handoffId := s] else old(snapshots)
    {
      var previous := if handoffId in snapshots then snapshots[handoffId].estimatedBytes else 0;
      if snapshotTotal - previous + s.estimatedBytes > MAX_TOTAL { return false; }
      EstimatesWith(snapshots, handoffId, s);
      if handoffId in snapshots { snapshotTotal := Max(0, snapshotTotal - previous); }
      snapshots := snapshots[handoffId := s];
      snapshotTotal := snapshotTotal + s.estimatedBytes;
      ok := true;
    }

    // startAsset, from the digest to the reply: the new transfer takes the place of the old one.
    method StoreTransfer(key: Key, bytes: seq<byte>, now: int) returns (ok: bool, identity: nat)
      requires Valid()
      modifies this
      ensures Valid()
      ensures snapshots == Fresh(old(snapshots), now)
      ensures ok == Admits(Unexpired(old(transfers), now), key, |bytes|)
      ensures !ok ==> transfers == Unexpired(old(transfers), now) && asset == old(asset) && served == old(served)
      ensures ok ==>
        && transfers == Unexpired(old(transfers), now)[key := Transfer(identity, bytes, 0, now + TTL)]
        && identity !in old(asset) && asset == old(asset)[identity := bytes] && served == old(served)[identity := []]
    {
      identity := started;
      CleanupTransfers(now);
      ghost var kept := transfers;
      assert kept == Unexpired(old(transfers), now);
      ok := false;
      if |bytes| <= MAX_ASSET { ok := Replace(key, Transfer(identity, bytes, 0, now + TTL)); }
    }

    method Replace(key: Key, t: Transfer) returns (ok: bool)
      requires Valid() && t.identity == started && t.nextSequence == 0 && |t.bytes| <= MAX_ASSET
      modifies this`transfers, this`transferTotal, this`transferReserved, this`started, this`owner, this`asset, this`served
      ensures Valid() && ok == Admits(old(transfers), key, |t.bytes|)
      ensures !ok ==> transfers == old(transfers) && asset == old(asset) && served == old(served)
      ensures ok ==> transfers == old(transfers)[key := t] && asset == old(asset)[t.identity := t.bytes]
      ensures ok ==> t.identity !in old(asset) && served == old(served)[t.identity := []]
    {
      var existing := if key in transfers then |transfers[key].bytes| else 0;
      if transferTotal - existing + transferReserved + |t.bytes| > MAX_TOTAL { return false; }
      var reserved := Max(0, |t.bytes| - existing);
      transferReserved := transferReserved + reserved;
      Swap(key, t);
      transferReserved := Max(0, transferReserved - reserved);
      ok := true;
    }

    method Swap(key: Key, t: Transfer)
      requires Balanced() && t.identity == started && t.nextSequence == 0 && |t.bytes| <= MAX_ASSET
      requires transferTotal - Held(transfers, key) + |t.bytes| <= MAX_TOTAL
      modifies this`transfers, this`transferTotal, this`started, this`owner, this`asset, this`served
      ensures Balanced() && transfers == old(transfers)[key := t] && asset == old(asset)[t.identity := t.bytes]
      ensures t.identity !in old(asset) && served == old(served)[t.identity := []]
    {
      assert transfers[key := t] == (transfers - {key})[key := t];
      DropTransfer(key);
      AddTransfer(key, t);
    }

    method DropTransfer(key: Key)
      requires Balanced()
      modifies this`transfers, this`transferTotal
      ensures Balanced() && transfers == old(transfers) - {key}
      ensures transferTotal == old(transferTotal) - Held(old(transfers), key)
    {
      if key in transfers { var removed := RemoveTransfer(key, transfers[key].identity); }
    }

    method AddTransfer(key: Key, t: Transfer)
      requires Balanced() && transferTotal + |t.bytes| <= MAX_TOTAL && key !in transfers
      requires t.identity == started && t.nextSequence == 0 && |t.bytes| <= MAX_ASSET
      modifies this`transfers, this`transferTotal, this`started, this`owner, this`asset, this`served
      ensures Balanced() && transfers == old(transfers)[key := t]
      ensures t.identity !in old(asset) && asset == old(asset)[t.identity := t.bytes] && served == old(served)[t.identity := []]
    {
      ghost var before := transfers;
      PutTransfer(key, t);
      StartHistory(key, t, before);
      started := started + 1;
    }

    method PutTransfer(key: Key, t: Transfer)
      requires Budget() && transferTotal + |t.bytes| - Held(transfers, key) <= MAX_TOTAL
      modifies this`transfers, this`transferTotal
      ensures Budget() && transfers == old(transfers)[key := t]
    {
      SizesWith(transfers, key, t);
      transferTotal := transferTotal - Held(transfers, key) + |t.bytes|;
      transfers := transfers[key := t];
    }

    ghost method StartHistory(key: Key, t: Transfer, before: map<Key, Transfer>)
      requires HistoryOk(asset, served) && LiveOk(before, owner, asset, served) && Started(started, owner, asset)
      requires t.identity == started && t.nextSequence == 0 && |t.bytes| <= MAX_ASSET
      modifies this`owner, this`asset, this`served
      ensures HistoryOk(asset, served) && LiveOk(before[key := t], owner, asset, served) && Started(started + 1, owner, asset)
      ensures t.identity !in old(asset) && asset == old(asset)[t.identity := t.bytes] && served == old(served)[t.identity := []]
    {
      HistoryStarts(t.identity, t.bytes, asset, served);
      LiveStarts(before, key, t, owner, asset, served);
      owner, asset, served := owner[t.identity := key], asset[t.identity := t.bytes], served[t.identity := []];
    }

    // A transfer past its time is dropped when it is asked for.
    method TransferFor(key: Key, now: int) returns (t: Option<Transfer>)
      requires Valid()
      modifies this`transfers, this`transferTotal
      ensures Valid()
      ensures t == if key in old(transfers) && old(transfers)[key].expiresAt > now then Some(old(transfers)[key]) else None
      ensures transfers == if key in old(transfers) && old(transfers)[key].expiresAt <= now then old(transfers) - {key} else old(transfers)
    {
      if key !in transfers { return None; }
      var found := transfers[key];
      if found.expiresAt > now { return Some(found); }
      var removed := RemoveTransfer(key, found.identity);
      t := None;
    }

    // assetChunk before it reads the handoff.
    method FindTransfer(key: Key, sequence: nat, now: int) returns (identity: Option<nat>)
      requires Valid()
      modifies this`transfers, this`transferTotal, this`snapshots, this`snapshotTotal
      ensures Valid() && transfers == Unexpired(old(transfers), now) && snapshots == Fresh(old(snapshots), now)
      ensures identity.Some? <==> key in transfers && transfers[key].nextSequence == sequence
      ensures identity.Some? ==> identity.value == transfers[key].identity
    {
      CleanupTransfers(now);
      var t := TransferFor(key, now);
      if t.None? || t.value.nextSequence != sequence { return None; }
      identity := Some(t.value.identity);
    }

    // assetChunk after it: each sequence number is accepted once on a transfer, in order, and the end is
    // reported exactly when the chunks accepted make up the whole asset.
    method ServeChunk(key: Key, sequence: nat, identity: nat, metadataOk: bool, now: int) returns (r: Option<Served>)
      requires Valid()
      modifies this`transfers, this`transferTotal, this`served
      ensures Valid()
      ensures r.Some? <==> metadataOk && Accepts(old(transfers), key, sequence, identity, now)
      ensures r.None? ==> served == old(served)
      ensures r.Some? ==>
        && identity in asset && identity in old(served) && sequence == |old(served)[identity]|
        && r.value.chunk == Chunk(asset[identity], sequence)
        && served == old(served)[identity := old(served)[identity] + [r.value.chunk]]
        && (r.value.finished <==> Join(served[identity]) == asset[identity])
        && (r.value.finished <==> sequence + 1 == TotalChunks(|asset[identity]|))
      ensures transfers == if r.Some? then Moved(old(transfers), key)
                           else if metadataOk && key in old(transfers) && old(transfers)[key].expiresAt <= now then old(transfers) - {key}
                           else old(transfers)
    {
      if !metadataOk { return None; }
      var found := TransferFor(key, now);
      if found.None? || found.value.identity != identity || sequence != found.value.nextSequence { return None; }
      if sequence >= TotalChunks(|found.value.bytes|) { return None; }
      var s := Serve(key, found.value);
      r := Some(s);
    }

    method Serve(key: Key, t: Transfer) returns (r: Served)
      requires Valid() && key in transfers && transfers[key] == t && t.nextSequence < TotalChunks(|t.bytes|)
      modifies this`transfers, this`transferTotal, this`served
      ensures Valid() && t.identity in asset && t.identity in old(served) && t.nextSequence == |old(served)[t.identity]|
      ensures asset[t.identity] == t.bytes && r.chunk == Chunk(t.bytes, t.nextSequence)
      ensures served == old(served)[t.identity := old(served)[t.identity] + [r.chunk]]
      ensures r.finished <==> Join(served[t.identity]) == t.bytes
      ensures r.finished <==> t.nextSequence + 1 == TotalChunks(|t.bytes|)
      ensures transfers == Moved(old(transfers), key)
    {
      var chunk := Chunk(t.bytes, t.nextSequence);
      var last := t.nextSequence * CHUNK + |chunk| == |t.bytes|;
      LastChunk(t.bytes, t.nextSequence);
      WholeIff(t.bytes, t.nextSequence + 1);
      RecordChunk(key, chunk);
      MoveOn(key, t, last);
      r := Served(chunk, last);
    }

    method MoveOn(key: Key, t: Transfer, last: bool)
      requires Budget() && key in transfers && transfers[key] == t && (last <==> t.nextSequence + 1 == TotalChunks(|t.bytes|))
      modifies this`transfers, this`transferTotal
      ensures Budget() && transfers == Moved(old(transfers), key)
    {
      if last {
        var removed := RemoveTransfer(key, t.identity);
      } else {
        PutTransfer(key, t.(nextSequence := t.nextSequence + 1));
      }
    }

    ghost method RecordChunk(key: Key, chunk: seq<byte>)
      requires History() && key in transfers && transfers[key].nextSequence < TotalChunks(|transfers[key].bytes|)
      requires chunk == Chunk(transfers[key].bytes, transfers[key].nextSequence)
      modifies this`served
      ensures var i := transfers[key].identity;
        && i in asset && asset[i] == transfers[key].bytes && i in old(served) && |old(served)[i]| == transfers[key].nextSequence
        && served == old(served)[i := old(served)[i] + [chunk]]
        && served[i] == Chunked(asset[i], transfers[key].nextSequence + 1)
      ensures HistoryOk(asset, served) && LiveOk(Moved(transfers, key), owner, asset, served)
    {
      var i := transfers[key].identity;
      assert Live(key, transfers[key], owner, asset, served);
      HistoryGrows(i, chunk, asset, served);
      LiveAdvances(transfers, key, chunk, owner, asset, served);
      NextChunk(asset[i], |served[i]|);
      served := served[i := served[i] + [chunk]];
    }
  }
}
