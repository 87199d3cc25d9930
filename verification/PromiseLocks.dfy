/**
 The promise-chain lock used around the claim operations, and nested acquisition of several of them
 (apps/extension/background/cloud-claim.js:256-283,285-324,357-401,420-479,
 apps/extension/background/service-worker.js:799-812).
 */
module PromiseLocks {
  import opened Basics

  // The queued promise of a ticket settles once the ticket is released and everything before it has settled.
  function Settled(t: nat, prev: seq<Option<nat>>, released: set<nat>): bool
    requires t < |prev| && Backward(prev)
    decreases t
  {
    t in released && (prev[t].None? || Settled(prev[t].value, prev, released))
  }

  predicate Backward(prev: seq<Option<nat>>) {
    forall t | 0 <= t < |prev| && prev[t].Some? :: prev[t].value < t
  }

  lemma {:induction false} SettledStays(t: nat, prev: seq<Option<nat>>, more: seq<Option<nat>>, released: set<nat>, extra: set<nat>)
    requires t < |prev| <= |more| && Backward(prev) && Backward(more) && prev <= more
    requires Settled(t, prev, released)
    ensures Settled(t, more, released + extra)
    decreases t
  {
    assert more[t] == prev[t];
    if prev[t].None? {
    } else {
      SettledStays(prev[t].value, prev, more, released, extra);
    }
  }

  // A queue is a chain: each ticket awaits the one before it, and the first awaits nothing unsettled.
  ghost predicate Chain<Key>(key: Key, q: seq<nat>, prev: seq<Option<nat>>, released: set<nat>, keyOf: seq<Key>)
    requires Backward(prev) && |keyOf| == |prev|
  {
    && q != []
    && (forall i | 0 <= i < |q| :: q[i] < |prev| && keyOf[q[i]] == key && q[i] !in released)
    && (forall i, j | 0 <= i < j < |q| :: q[i] < q[j])
    && (forall i | 0 < i < |q| :: prev[q[i]] == Some(q[i - 1]))
    && MayEnter(q[0], prev, released)
  }

  // The await before the critical section is over.
  predicate MayEnter(t: nat, prev: seq<Option<nat>>, released: set<nat>)
    requires t < |prev| && Backward(prev)
  {
    prev[t].None? || Settled(prev[t].value, prev, released)
  }

  lemma ChainGrows<Key>(key: Key, q: seq<nat>, prev: seq<Option<nat>>, released: set<nat>, keyOf: seq<Key>, link: Option<nat>, other: Key)
    requires Backward(prev) && |keyOf| == |prev| && (link.Some? ==> link.value < |prev|)
    requires Chain(key, q, prev, released, keyOf)
    ensures Chain(key, q, prev + [link], released, keyOf + [other])
  {
    if prev[q[0]].Some? { SettledStays(prev[q[0]].value, prev, prev + [link], released, {}); }
    assert released + {} == released;
  }

  lemma ChainJoins<Key>(key: Key, q: seq<nat>, prev: seq<Option<nat>>, released: set<nat>, keyOf: seq<Key>)
    requires Backward(prev) && |keyOf| == |prev| && Chain(key, q, prev, released, keyOf) && |prev| !in released
    ensures Chain(key, q + [|prev|], prev + [Some(q[|q| - 1])], released, keyOf + [key])
  {
    ChainGrows(key, q, prev, released, keyOf, Some(q[|q| - 1]), key);
  }

  lemma ChainStays<Key>(key: Key, q: seq<nat>, prev: seq<Option<nat>>, released: set<nat>, keyOf: seq<Key>, t: nat)
    requires Backward(prev) && |keyOf| == |prev| && Chain(key, q, prev, released, keyOf) && t !in q
    ensures Chain(key, q, prev, released + {t}, keyOf)
  {
    if prev[q[0]].Some? { SettledStays(prev[q[0]].value, prev, prev, released, {t}); }
  }

  lemma ChainAdvances<Key>(key: Key, q: seq<nat>, prev: seq<Option<nat>>, released: set<nat>, keyOf: seq<Key>)
    requires Backward(prev) && |keyOf| == |prev| && Chain(key, q, prev, released, keyOf) && |q| > 1
    ensures Chain(key, q[1..], prev, released + {q[0]}, keyOf)
  {
    var t := q[0];
    if prev[t].Some? { SettledStays(prev[t].value, prev, prev, released, {t}); }
    assert Settled(t, prev, released + {t});
    assert prev[q[1]] == Some(q[0]);
  }

  ghost predicate Chains<Key(!new)>(queue: map<Key, seq<nat>>, prev: seq<Option<nat>>, released: set<nat>, keyOf: seq<Key>)
    requires Backward(prev) && |keyOf| == |prev|
  {
    forall key | key in queue :: Chain(key, queue[key], prev, released, keyOf)
  }

  // Every ticket not released is in its key's queue.
  ghost predicate AllQueued<Key>(queue: map<Key, seq<nat>>, prev: seq<Option<nat>>, released: set<nat>, keyOf: seq<Key>)
    requires |keyOf| == |prev|
  {
    forall t | 0 <= t < |prev| && t !in released :: keyOf[t] in queue && t in queue[keyOf[t]]
  }

  // The map holds the last arrival of each key that anybody holds or waits for, and nothing else.
  ghost predicate Tails<Key(!new)>(tail: map<Key, nat>, queue: map<Key, seq<nat>>) {
    tail.Keys == queue.Keys && forall key | key in queue :: queue[key] != [] && tail[key] == queue[key][|queue[key]| - 1]
  }

  // Mutual exclusion in arrival order: of those that hold or wait for a key, exactly the first may enter.
  lemma OnlyTheFirstMayEnter<Key>(key: Key, q: seq<nat>, prev: seq<Option<nat>>, released: set<nat>, keyOf: seq<Key>, t: nat)
    requires Backward(prev) && |keyOf| == |prev| && Chain(key, q, prev, released, keyOf) && t in q
    ensures MayEnter(t, prev, released) <==> q[0] == t
  {
    var i :| 0 <= i < |q| && q[i] == t;
    if i > 0 { assert prev[t] == Some(q[i - 1]) && q[i - 1] !in released; }
  }

  ghost predicate Inv<Key(!new)>(tail: map<Key, nat>, prev: seq<Option<nat>>, released: set<nat>, queue: map<Key, seq<nat>>, keyOf: seq<Key>) {
    && Backward(prev) && |keyOf| == |prev| && (forall t | t in released :: t < |prev|)
    && Chains(queue, prev, released, keyOf)
    && AllQueued(queue, prev, released, keyOf)
    && Tails(tail, queue)
  }

  function Queue<Key>(queue: map<Key, seq<nat>>, key: Key): seq<nat> { if key in queue then queue[key] else [] }

  function LinkTo<Key>(tail: map<Key, nat>, key: Key): Option<nat> { if key in tail then Some(tail[key]) else None }

  lemma ArriveChains<Key(!new)>(tail: map<Key, nat>, prev: seq<Option<nat>>, released: set<nat>, queue: map<Key, seq<nat>>, keyOf: seq<Key>, key: Key)
    requires Inv(tail, prev, released, queue, keyOf)
    ensures var link := LinkTo(tail, key);
            Backward(prev + [link]) && Chains(queue[key := Queue(queue, key) + [|prev|]], prev + [link], released, keyOf + [key])
  {
    var link := LinkTo(tail, key);
    if key in queue { ChainJoins(key, queue[key], prev, released, keyOf); }
    forall k | k in queue ensures Chain(k, queue[k], prev + [link], released, keyOf + [key]) {
      ChainGrows(k, queue[k], prev, released, keyOf, link, key);
    }
    var joined := queue[key := Queue(queue, key) + [|prev|]];
    forall k | k in joined ensures Chain(k, joined[k], prev + [link], released, keyOf + [key]) {
      if k != key { assert joined[k] == queue[k]; }
    }
  }

  lemma ArriveQueued<Key(!new)>(prev: seq<Option<nat>>, link: Option<nat>, released: set<nat>, queue: map<Key, seq<nat>>, keyOf: seq<Key>, key: Key)
    requires |keyOf| == |prev| && AllQueued(queue, prev, released, keyOf)
    ensures AllQueued(queue[key := Queue(queue, key) + [|prev|]], prev + [link], released, keyOf + [key])
  {
    var next := queue[key := Queue(queue, key) + [|prev|]];
    forall t | 0 <= t <= |prev| && t !in released
      ensures (keyOf + [key])[t] in next && t in next[(keyOf + [key])[t]]
    {
      if t < |prev| { assert t in queue[keyOf[t]]; }
    }
  }

  lemma ArriveTails<Key(!new)>(tail: map<Key, nat>, queue: map<Key, seq<nat>>, key: Key, t: nat)
    requires Tails(tail, queue)
    ensures Tails(tail[key := t], queue[key := Queue(queue, key) + [t]])
  {
  }

  lemma ArriveKeeps<Key(!new)>(tail: map<Key, nat>, prev: seq<Option<nat>>, released: set<nat>, queue: map<Key, seq<nat>>, keyOf: seq<Key>, key: Key)
    requires Inv(tail, prev, released, queue, keyOf)
    ensures Inv(tail[key := |prev|], prev + [LinkTo(tail, key)], released, queue[key := Queue(queue, key) + [|prev|]], keyOf + [key])
  {
    ArriveChains(tail, prev, released, queue, keyOf, key);
    ArriveQueued(prev, LinkTo(tail, key), released, queue, keyOf, key);
    ArriveTails(tail, queue, key, |prev|);
  }

  function Left<Key>(queue: map<Key, seq<nat>>, key: Key): map<Key, seq<nat>>
    requires key in queue && queue[key] != []
  {
    if |queue[key]| == 1 then queue - {key} else queue[key := queue[key][1..]]
  }

  lemma LeaveChains<Key(!new)>(prev: seq<Option<nat>>, released: set<nat>, queue: map<Key, seq<nat>>, keyOf: seq<Key>, key: Key)
    requires Backward(prev) && |keyOf| == |prev| && Chains(queue, prev, released, keyOf) && key in queue && queue[key] != []
    ensures Chains(Left(queue, key), prev, released + {queue[key][0]}, keyOf)
  {
    var t := queue[key][0];
    var next := Left(queue, key);
    forall k | k in next ensures Chain(k, next[k], prev, released + {t}, keyOf) {
      assert Chain(k, queue[k], prev, released, keyOf) && Chain(key, queue[key], prev, released, keyOf);
      if k == key {
        ChainAdvances(key, queue[key], prev, released, keyOf);
      } else {
        ChainStays(k, queue[k], prev, released, keyOf, t);
      }
    }
  }

  lemma LeaveQueued<Key(!new)>(prev: seq<Option<nat>>, released: set<nat>, queue: map<Key, seq<nat>>, keyOf: seq<Key>, key: Key)
    requires |keyOf| == |prev| && AllQueued(queue, prev, released, keyOf) && key in queue && queue[key] != []
    ensures AllQueued(Left(queue, key), prev, released + {queue[key][0]}, keyOf)
  {
    var q, next := queue[key], Left(queue, key);
    forall u | 0 <= u < |prev| && u !in released + {q[0]} ensures keyOf[u] in next && u in next[keyOf[u]] {
      if keyOf[u] == key {
        var i :| 0 <= i < |q| && q[i] == u;
        assert q[1..][i - 1] == u;
      }
    }
  }

  // The entry of a key goes exactly when its last holder leaves.
  lemma LeaveTails<Key(!new)>(tail: map<Key, nat>, queue: map<Key, seq<nat>>, key: Key)
    requires Tails(tail, queue) && key in queue
    requires forall i, j | 0 <= i < j < |queue[key]| :: queue[key][i] < queue[key][j]
    ensures Tails(if tail[key] == queue[key][0] then tail - {key} else tail, Left(queue, key))
  {
  }

  lemma LeaveKeeps<Key(!new)>(tail: map<Key, nat>, prev: seq<Option<nat>>, released: set<nat>, queue: map<Key, seq<nat>>, keyOf: seq<Key>, key: Key)
    requires Inv(tail, prev, released, queue, keyOf) && key in queue && queue[key] != []
    ensures Inv(if tail[key] == queue[key][0] then tail - {key} else tail, prev, released + {queue[key][0]}, Left(queue, key), keyOf)
  {
    OneMoreReleased(released, queue[key][0], |prev|) by { FirstHolds(prev, released, queue, keyOf, key); }
    LeaveTails(tail, queue, key) by { FirstHolds(prev, released, queue, keyOf, key); }
    LeaveChains(prev, released, queue, keyOf, key);
    LeaveQueued(prev, released, queue, keyOf, key);
  }

  lemma OneMoreReleased(released: set<nat>, t: nat, n: nat)
    requires t < n && forall u | u in released :: u < n
    ensures forall u | u in released + {t} :: u < n
  {
  }

  lemma FirstHolds<Key(!new)>(prev: seq<Option<nat>>, released: set<nat>, queue: map<Key, seq<nat>>, keyOf: seq<Key>, key: Key)
    requires Backward(prev) && |keyOf| == |prev| && Chains(queue, prev, released, keyOf) && key in queue && queue[key] != []
    ensures queue[key][0] < |prev| && forall i, j | 0 <= i < j < |queue[key]| :: queue[key][i] < queue[key][j]
  {
    assert Chain(key, queue[key], prev, released, keyOf);
  }

  lemma FirstIs<Key(!new)>(tail: map<Key, nat>, prev: seq<Option<nat>>, released: set<nat>, queue: map<Key, seq<nat>>, keyOf: seq<Key>, t: nat)
    requires Inv(tail, prev, released, queue, keyOf) && t < |prev| && t !in released
    ensures keyOf[t] in queue && queue[keyOf[t]] != [] && keyOf[t] in tail
    ensures MayEnter(t, prev, released) <==> queue[keyOf[t]][0] == t
  {
    var key := keyOf[t];
    assert key in queue && t in queue[key];
    assert Chain(key, queue[key], prev, released, keyOf);
    OnlyTheFirstMayEnter(key, queue[key], prev, released, keyOf, t);
  }

  // Whoever has entered is the first of its key, and may leave.
  lemma HolderLeaves<Key(!new)>(tail: map<Key, nat>, prev: seq<Option<nat>>, released: set<nat>, queue: map<Key, seq<nat>>, keyOf: seq<Key>, t: nat)
    requires Inv(tail, prev, released, queue, keyOf) && t < |prev| && t !in released && MayEnter(t, prev, released)
    ensures var key := keyOf[t];
            && key in queue && queue[key] != [] && queue[key][0] == t && key in tail
            && Inv(if tail[key] == t then tail - {key} else tail, prev, released + {t}, Left(queue, key), keyOf)
  {
    FirstIs(tail, prev, released, queue, keyOf, t);
    LeaveKeeps(tail, prev, released, queue, keyOf, keyOf[t]);
  }

  // One map of locks: for each key the promise of the last arrival.
  class PromiseLocks<Key(==,!new)> {
    var tail: map<Key, nat>
    var prev: seq<Option<nat>>  // for each ticket, the promise it awaits
    var released: set<nat>
    ghost var queue: map<Key, seq<nat>>  // who holds or waits, in arrival order
    ghost var keyOf: seq<Key>

    ghost predicate Valid() reads this { Inv(tail, prev, released, queue, keyOf) }

    constructor ()
      ensures Valid() && queue == map[] && tail == map[]
    {
      tail, prev, released := map[], [], {};
      queue, keyOf := map[], [];
    }

    // The caller joins the end of the key's queue.
    method Arrive(key: Key) returns (t: nat)
      requires Valid()
      modifies this
      ensures Valid() && t == old(|prev|) && |prev| == t + 1 && keyOf == old(keyOf) + [key] && released == old(released)
      ensures queue == old(queue)[key := Queue(old(queue), key) + [t]]
    {
      ArriveKeeps(tail, prev, released, queue, keyOf, key);
      t := |prev|;
      prev := prev + [if key in tail then Some(tail[key]) else None];
      tail := tail[key := t];
      queue, keyOf := queue[key := Queue(queue, key) + [t]], keyOf + [key];
    }

    // The holder leaves; the map entry goes with the last of them.
    method Leave(key: Key, t: nat)
      requires Valid() && t < |prev| && keyOf[t] == key && t !in released && MayEnter(t, prev, released)
      modifies this`released, this`tail, this`queue
      ensures Valid() && released == old(released) + {t}
      ensures key in old(queue) && old(queue)[key] != [] && old(queue)[key][0] == t && queue == Left(old(queue), key)
    {
      HolderLeaves(tail, prev, released, queue, keyOf, t);
      ghost var left := Left(queue, key);
      var rest := if key in tail && tail[key] == t then tail - {key} else tail;
      released, tail, queue := released + {t}, rest, left;
    }
  }
}
