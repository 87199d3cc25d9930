/**
 The recorder in the page: actions are sent as they happen, tracked until acknowledged, and handed over
 when the recording is paused, finished or drained
 (apps/extension/content/recorder.js:134-190,206-272,280-374).
 */
module Recorder {
  import opened Basics
  import opened CaptureEvents

  // A send in progress: its reply may come late, out of order, or not at all.
  datatype Send = Send(event: Event, generation: nat)

  datatype Pending = Pending(target: nat, event: Event)

  // recorderId:sequence; distinct for distinct sequence numbers.
  function EventId(recorderId: string, n: nat): (id: string)
    ensures |id| == |recorderId| + 1 + n
  {
    recorderId + ":" + seq(n, _ => '#')
  }

  type Versions = map<string, Event>

  ghost predicate Newest(e: Event, latest: Versions) { e.id in latest && latest[e.id] == e }

  // The newest version of the action has been accepted, or the action has been handed over.
  ghost predicate Safe(id: string, latest: Versions, accepted: set<Event>, handed: set<string>) {
    id in latest && (id in handed || latest[id] in accepted)
  }

  ghost predicate AllSafe(latest: Versions, accepted: set<Event>, handed: set<string>) {
    forall id | id in latest :: Safe(id, latest, accepted, handed)
  }

  ghost predicate AllKept(latest: Versions, tracked: Versions, navigation: Option<Event>, accepted: set<Event>, handed: set<string>) {
    forall id | id in latest ::
      Safe(id, latest, accepted, handed) || id in tracked || (navigation.Some? && navigation.value.id == id)
  }

  // The id has one of the sequence numbers given out so far.
  predicate Numbered(id: string, recorderId: string, sequence: nat) {
    |recorderId| + 1 < |id| <= |recorderId| + 1 + sequence
  }

  ghost predicate LatestOk(latest: Versions, recorderId: string, sequence: nat) {
    forall id | id in latest :: Numbered(id, recorderId, sequence) && latest[id].id == id
  }

  ghost predicate TrackedOk(tracked: Versions, generations: map<string, nat>, latest: Versions) {
    forall id | id in tracked :: tracked[id].id == id && Newest(tracked[id], latest) && id in generations
  }

  ghost predicate Elsewhere(e: Event, p: Option<Pending>) { p.Some? ==> p.value.event.id != e.id }

  ghost predicate PendingOk(input: Option<Pending>, scroll: Option<Pending>, navigation: Option<Event>, queued: set<Event>, latest: Versions) {
    && (input.Some? ==> Newest(input.value.event, latest) && Elsewhere(input.value.event, scroll))
    && (scroll.Some? ==> Newest(scroll.value.event, latest))
    && (navigation.Some? ==> Newest(navigation.value, latest) && Elsewhere(navigation.value, input) && Elsewhere(navigation.value, scroll))
    && (forall e | e in queued :: Newest(e, latest) && Elsewhere(e, input) && Elsewhere(e, scroll))
  }

  // While recording, each version has a generation of its own and the newest generation is the newest version's.
  ghost predicate Current(r: Send, generations: map<string, nat>, latest: Versions) {
    && r.event.id in latest && r.event.id in generations && r.generation <= generations[r.event.id]
    && (r.generation == generations[r.event.id] ==> Newest(r.event, latest))
  }

  ghost predicate SendsOk(sends: set<Send>, generations: map<string, nat>, latest: Versions) {
    forall r | r in sends :: Current(r, generations, latest)
  }

  // ---------- one new version ----------

  lemma TrackedVersion(e: Event, g: nat, tracked: Versions, generations: map<string, nat>, latest: Versions)
    requires TrackedOk(tracked, generations, latest)
    ensures TrackedOk(tracked[e.id := e], generations[e.id := g], latest[e.id := e])
  {
  }

  lemma PendingVersion(e: Event, input: Option<Pending>, scroll: Option<Pending>, navigation: Option<Event>, queued: set<Event>, latest: Versions)
    requires PendingOk(input, scroll, navigation, queued, latest)
    requires Elsewhere(e, input) && Elsewhere(e, scroll) && (navigation.Some? ==> navigation.value.id != e.id)
    requires forall q | q in queued :: q.id != e.id
    ensures PendingOk(input, scroll, navigation, queued, latest[e.id := e])
  {
  }

  lemma KeptVersion(e: Event, latest: Versions, tracked: Versions, navigation: Option<Event>, accepted: set<Event>, handed: set<string>)
    requires AllKept(latest, tracked, navigation, accepted, handed)
    ensures AllKept(latest[e.id := e], tracked[e.id := e], navigation, accepted, handed)
  {
    forall id | id in latest && id != e.id
      ensures Safe(id, latest, accepted, handed) ==> Safe(id, latest[e.id := e], accepted, handed)
    {
    }
  }

  // One more version is accepted.
  lemma AcceptedKeeps(e: Event, latest: Versions, tracked: Versions, navigation: Option<Event>, accepted: set<Event>, handed: set<string>)
    requires AllKept(latest, tracked, navigation, accepted, handed)
    ensures AllKept(latest, tracked, navigation, accepted + {e}, handed)
    ensures AllSafe(latest, accepted, handed) ==> AllSafe(latest, accepted + {e}, handed)
  {
    forall id | id in latest && Safe(id, latest, accepted, handed) ensures Safe(id, latest, accepted + {e}, handed) { }
  }

  lemma SendsVersion(e: Event, g: nat, sends: set<Send>, generations: map<string, nat>, latest: Versions)
    requires SendsOk(sends, generations, latest) && (e.id in generations ==> g > generations[e.id])
    ensures SendsOk(sends, generations[e.id := g], latest[e.id := e])
  {
    forall r | r in sends ensures Current(r, generations[e.id := g], latest[e.id := e]) { assert Current(r, generations, latest); }
  }

  // All that was not safe has been handed over.
  lemma HandedOver(latest: Versions, accepted: set<Event>, handed: set<string>, ids: set<string>)
    requires forall id | id in latest :: Safe(id, latest, accepted, handed) || id in ids
    ensures AllSafe(latest, accepted, handed + ids)
  {
    forall id | id in latest ensures Safe(id, latest, accepted, handed + ids) { }
  }

  lemma NothingWaits(input: Option<Pending>, scroll: Option<Pending>, navigation: Option<Event>, queued: set<Event>, latest: Versions)
    requires PendingOk(input, scroll, navigation, queued, latest)
    ensures PendingOk(None, None, None, queued, latest) && TrackedOk(map[], map[], latest)
  {
  }

  lemma SafeIsKept(latest: Versions, accepted: set<Event>, handed: set<string>)
    requires AllSafe(latest, accepted, handed)
    ensures AllKept(latest, map[], None, accepted, handed)
  {
  }

  // A navigation under an id of its own.
  lemma NavigationStarts(e: Event, tracked: Versions, generations: map<string, nat>, queued: set<Event>, sends: set<Send>, latest: Versions,
                         accepted: set<Event>, handed: set<string>)
    requires TrackedOk(tracked, generations, latest) && PendingOk(None, None, None, queued, latest) && e.id !in latest
    requires AllKept(latest, tracked, None, accepted, handed) && SendsOk(sends, generations, latest)
    ensures TrackedOk(tracked, generations, latest[e.id := e]) && PendingOk(None, None, Some(e), queued, latest[e.id := e])
    ensures AllKept(latest[e.id := e], tracked, Some(e), accepted, handed) && SendsOk(sends, generations, latest[e.id := e])
  {
    forall r | r in sends ensures Current(r, generations, latest[e.id := e]) { assert Current(r, generations, latest); }
    forall id | id in latest && Safe(id, latest, accepted, handed) ensures Safe(id, latest[e.id := e], accepted, handed) { }
  }

  class Recorder {
    const recorderId: string
    var tracked: Versions
    var generations: map<string, nat>
    var failed: set<string>
    var pendingInput: Option<Pending>
    var pendingScroll: Option<Pending>
    var pendingNavigation: Option<Event>
    var queued: set<Event>        // flushed inputs and scrolls whose transmission waits for the previous one
    var sends: set<Send>          // replies outstanding
    var retained: seq<Event>
    var listening: bool
    var present: bool
    var sequence: nat
    ghost var latest: Versions        // the newest version of every action recorded
    ghost var accepted: set<Event>    // versions the worker has accepted
    ghost var handed: set<string>     // actions handed over by a retain or a drain

    ghost predicate Recording() reads this {
      SendsOk(sends, generations, latest) && retained == []
    }

    ghost predicate Stopped() reads this {
      pendingInput.None? && pendingScroll.None? && pendingNavigation.None? && AllSafe(latest, accepted, handed)
    }

    ghost predicate Valid() reads this {
      && LatestOk(latest, recorderId, sequence)
      && TrackedOk(tracked, generations, latest)
      && PendingOk(pendingInput, pendingScroll, pendingNavigation, queued, latest)
      && AllKept(latest, tracked, pendingNavigation, accepted, handed)
      && Identified(retained) && Ids(retained) <= handed
      && (forall s | s in sends :: s.event.id != "")
      && (if listening then Recording() else Stopped())
    }

    constructor (recorderId: string)
      ensures Valid() && latest == map[] && accepted == {} && handed == {} && retained == [] && sends == {}
      ensures listening && present && this.recorderId == recorderId
    {
      this.recorderId := recorderId;
      tracked, generations, failed := map[], map[], {};
      pendingInput, pendingScroll, pendingNavigation := None, None, None;
      queued, sends, retained := {}, {}, [];
      listening, present, sequence := true, true, 0;
      latest, accepted, handed := map[], {}, {};
    }

    // No recorder is in the page.
    constructor Absent(recorderId: string)
      ensures Valid() && latest == map[] && accepted == {} && handed == {} && retained == [] && sends == {}
      ensures !listening && !present && this.recorderId == recorderId
    {
      this.recorderId := recorderId;
      tracked, generations, failed := map[], map[], {};
      pendingInput, pendingScroll, pendingNavigation := None, None, None;
      queued, sends, retained := {}, {}, [];
      listening, present, sequence := false, false, 0;
      latest, accepted, handed := map[], {}, {};
    }

    // ---------- sending ----------

    // The message goes out, or cannot even be sent.
    method SendAction(e: Event, generation: nat)
      requires Valid() && Newest(e, latest) && e.id in generations && generation == generations[e.id]
      modifies this`sends, this`failed
      ensures Valid()
      ensures (sends == old(sends) + {Send(e, generation)} && failed == old(failed)) || (sends == old(sends) && failed == old(failed) + {e.id})
    {
      var sent: bool := *;
      if sent { sends := sends + {Send(e, generation)}; } else { failed := failed + {e.id}; }
    }

    method TrackAction(e: Event)
      requires Valid() && Newest(e, latest)
      modifies this`tracked, this`generations, this`failed, this`sends
      ensures Valid() && tracked == old(tracked)[e.id := e] && e.id in generations
      ensures Send(e, generations[e.id]) in sends || e.id in failed
    {
      var generation := (if e.id in generations then generations[e.id] else 0) + 1;
      assert latest[e.id := e] == latest;
      TrackedVersion(e, generation, tracked, generations, latest);
      KeptVersion(e, latest, tracked, pendingNavigation, accepted, handed);
      if listening { SendsVersion(e, generation, sends, generations, latest); }
      generations := generations[e.id := generation];
      tracked := tracked[e.id := e];
      SendAction(e, generation);
    }

    // The reply to one send: a stale one changes nothing; an accepted current one forgets exactly the version
    // it acknowledges, while recording, and after that only actions already safe.
    method Reply(r: Send, ok: bool)
      requires Valid() && r in sends
      modifies this`tracked, this`failed, this`sends, this`accepted
      ensures Valid()
      ensures var current := r.event.id in generations && generations[r.event.id] == r.generation;
        && tracked == (if ok && current then old(tracked) - {r.event.id} else old(tracked))
        && failed == (if !current then old(failed) else if ok then old(failed) - {r.event.id} else old(failed) + {r.event.id})
      ensures listening && tracked != old(tracked) ==> old(tracked)[r.event.id] == r.event
      ensures !listening && tracked != old(tracked) ==> old(Safe(r.event.id, latest, accepted, handed))
      ensures accepted == if ok then old(accepted) + {r.event} else old(accepted)
      ensures sends == old(sends) - {r}
    {
      var current := r.event.id in generations && generations[r.event.id] == r.generation;
      if listening { assert Current(r, generations, latest); }
      if !ok {
        sends := sends - {r};
        if current { failed := failed + {r.event.id}; }
      } else {
        Acknowledge(r);
        if current { Forget(r.event.id); }
      }
    }

    method Acknowledge(r: Send)
      requires Valid() && r in sends
      modifies this`sends, this`accepted
      ensures Valid() && accepted == old(accepted) + {r.event} && sends == old(sends) - {r}
    {
      AcceptedKeeps(r.event, latest, tracked, pendingNavigation, accepted, handed);
      sends, accepted := sends - {r}, accepted + {r.event};
    }

    // Only what is safe may be forgotten.
    method Forget(id: string)
      requires Valid() && (id in latest ==> Safe(id, latest, accepted, handed))
      modifies this`tracked, this`failed
      ensures Valid() && tracked == old(tracked) - {id} && failed == old(failed) - {id}
    {
      tracked, failed := tracked - {id}, failed - {id};
    }

    // A flushed action's turn comes.
    method Transmit(e: Event)
      requires Valid() && e in queued
      modifies this`queued, this`tracked, this`generations, this`failed, this`sends
      ensures Valid() && queued == old(queued) - {e} && tracked == old(tracked)[e.id := e]
    {
      queued := queued - {e};
      TrackAction(e);
    }

    // ---------- recording ----------

    method FlushInput()
      requires Valid()
      modifies this`pendingInput, this`queued
      ensures Valid() && pendingInput.None?
      ensures queued == old(queued) + (if old(pendingInput).Some? then {old(pendingInput).value.event} else {})
    {
      if pendingInput.None? { return; }
      queued, pendingInput := queued + {pendingInput.value.event}, None;
    }

    method FlushScroll()
      requires Valid()
      modifies this`pendingScroll, this`queued
      ensures Valid() && pendingScroll.None?
      ensures queued == old(queued) + (if old(pendingScroll).Some? then {old(pendingScroll).value.event} else {})
    {
      if pendingScroll.None? { return; }
      queued, pendingScroll := queued + {pendingScroll.value.event}, None;
    }

    method FlushNavigation()
      requires Valid()
      modifies this`pendingNavigation, this`tracked, this`generations, this`failed, this`sends
      ensures Valid() && pendingNavigation.None?
      ensures tracked == if old(pendingNavigation).None? then old(tracked)
                         else old(tracked)[old(pendingNavigation).value.id := old(pendingNavigation).value]
    {
      if pendingNavigation.None? { return; }
      var e := pendingNavigation.value;
      TrackAction(e);
      pendingNavigation := None;
    }

    method NextEventId() returns (id: string)
      requires Valid()
      modifies this`sequence
      ensures Valid() && sequence == old(sequence) + 1 && Numbered(id, recorderId, sequence) && id !in latest
    {
      sequence := sequence + 1;
      id := EventId(recorderId, sequence);
    }

    // A new version of an action: nothing else that waits may carry its id.
    method TrackVersion(e: Event)
      requires Valid() && listening && Numbered(e.id, recorderId, sequence)
      requires Elsewhere(e, pendingInput) && Elsewhere(e, pendingScroll)
      requires (pendingNavigation.Some? ==> pendingNavigation.value.id != e.id) && forall q | q in queued :: q.id != e.id
      modifies this`tracked, this`generations, this`failed, this`sends, this`latest
      ensures Valid() && latest == old(latest)[e.id := e] && tracked == old(tracked)[e.id := e] && e.id in generations
      ensures Send(e, generations[e.id]) in sends || e.id in failed
    {
      var generation := (if e.id in generations then generations[e.id] else 0) + 1;
      TrackedVersion(e, generation, tracked, generations, latest);
      PendingVersion(e, pendingInput, pendingScroll, pendingNavigation, queued, latest);
      KeptVersion(e, latest, tracked, pendingNavigation, accepted, handed);
      SendsVersion(e, generation, sends, generations, latest);
      latest := latest[e.id := e];
      generations := generations[e.id := generation];
      tracked := tracked[e.id := e];
      SendAction(e, generation);
    }

    method QueueInput(target: nat, at: int, text: string)
      requires Valid() && listening
      modifies this`pendingInput, this`queued, this`sequence, this`tracked, this`generations, this`failed, this`sends, this`latest
      ensures Valid() && pendingInput.Some? && pendingInput.value.target == target
      ensures var e := pendingInput.value.event;
        e.at == at && e.text == text && latest == old(latest)[e.id := e] && tracked == old(tracked)[e.id := e]
      ensures old(pendingInput).Some? && old(pendingInput).value.target == target
          ==> pendingInput.value.event.id == old(pendingInput).value.event.id && queued == old(queued)
      ensures old(pendingInput).Some? && old(pendingInput).value.target != target
          ==> pendingInput.value.event.id !in old(latest) && old(pendingInput).value.event in queued
    {
      if pendingInput.Some? && pendingInput.value.target != target { FlushInput(); }
      var id;
      if pendingInput.None? { id := NextEventId(); } else { id := pendingInput.value.event.id; }
      RenewInput(target, Event(id, at, text));
    }

    // The newest version of the pending input.
    method RenewInput(target: nat, e: Event)
      requires Valid() && listening && Numbered(e.id, recorderId, sequence)
      requires if pendingInput.Some? then pendingInput.value.event.id == e.id else e.id !in latest
      modifies this`pendingInput, this`tracked, this`generations, this`failed, this`sends, this`latest
      ensures Valid() && pendingInput == Some(Pending(target, e))
      ensures latest == old(latest)[e.id := e] && tracked == old(tracked)[e.id := e]
    {
      pendingInput := None;
      TrackVersion(e);
      pendingInput := Some(Pending(target, e));
    }

    method CommitInput(target: nat)
      requires Valid()
      modifies this`pendingInput, this`queued
      ensures Valid()
      ensures if old(pendingInput).Some? && old(pendingInput).value.target == target
              then pendingInput.None? && queued == old(queued) + {old(pendingInput).value.event}
              else pendingInput == old(pendingInput) && queued == old(queued)
    {
      if pendingInput.Some? && pendingInput.value.target == target { FlushInput(); }
    }

    // `seeded`: a position of this target is known; `moved`: it is at least 80 pixels from the baseline.
    method Scroll(target: nat, seeded: bool, moved: bool, at: int, text: string)
      requires Valid() && listening
      modifies this`pendingScroll, this`queued, this`sequence, this`tracked, this`generations, this`failed, this`sends, this`latest
      ensures Valid()
      ensures var same := old(pendingScroll).Some? && old(pendingScroll).value.target == target;
        if moved && (seeded || same) then
          && pendingScroll.Some? && pendingScroll.value.target == target
          && var e := pendingScroll.value.event;
             && e.at == at && e.text == text && latest == old(latest)[e.id := e] && tracked == old(tracked)[e.id := e]
             && (if same then e.id == old(pendingScroll).value.event.id else e.id !in old(latest))
        else latest == old(latest) && tracked == old(tracked)
      ensures old(pendingScroll).Some? && old(pendingScroll).value.target != target ==> old(pendingScroll).value.event in queued
    {
      if pendingScroll.Some? && pendingScroll.value.target != target { FlushScroll(); }
      if (!seeded && pendingScroll.None?) || !moved { return; }
      var id;
      if pendingScroll.None? { id := NextEventId(); } else { id := pendingScroll.value.event.id; }
      RenewScroll(target, Event(id, at, text));
    }

    method RenewScroll(target: nat, e: Event)
      requires Valid() && listening && Numbered(e.id, recorderId, sequence)
      requires if pendingScroll.Some? then pendingScroll.value.event.id == e.id else e.id !in latest
      modifies this`pendingScroll, this`tracked, this`generations, this`failed, this`sends, this`latest
      ensures Valid() && pendingScroll == Some(Pending(target, e))
      ensures latest == old(latest)[e.id := e] && tracked == old(tracked)[e.id := e]
    {
      pendingScroll := None;
      TrackVersion(e);
      pendingScroll := Some(Pending(target, e));
    }

    method Click(at: int, text: string) returns (e: Event)
      requires Valid() && listening
      modifies this`pendingInput, this`pendingScroll, this`queued, this`sequence, this`tracked, this`generations, this`failed, this`sends, this`latest
      ensures Valid() && pendingInput.None? && pendingScroll.None?
      ensures e.at == at && e.text == text && e.id !in old(latest)
      ensures latest == old(latest)[e.id := e] && tracked == old(tracked)[e.id := e]
    {
      FlushInput();
      FlushScroll();
      var id := NextEventId();
      e := Event(id, at, text);
      TrackVersion(e);
    }

    // Navigations within the document are gathered for 40 ms into one action.
    method RecordNavigation(at: int, text: string)
      requires Valid() && listening
      modifies this`pendingInput, this`pendingScroll, this`pendingNavigation, this`queued, this`sequence, this`latest
      ensures Valid() && pendingInput.None? && pendingScroll.None? && pendingNavigation.Some?
      ensures old(pendingNavigation).Some? ==> pendingNavigation == old(pendingNavigation) && latest == old(latest)
      ensures old(pendingNavigation).None? ==>
        && pendingNavigation.value.at == at && pendingNavigation.value.text == text && pendingNavigation.value.id !in old(latest)
        && latest == old(latest)[pendingNavigation.value.id := pendingNavigation.value]
    {
      FlushInput();
      FlushScroll();
      if pendingNavigation.None? { StartNavigation(at, text); }
    }

    method StartNavigation(at: int, text: string)
      requires Valid() && listening && pendingInput.None? && pendingScroll.None? && pendingNavigation.None?
      modifies this`pendingNavigation, this`sequence, this`latest
      ensures Valid() && pendingNavigation.Some? && pendingNavigation.value.id !in old(latest)
      ensures pendingNavigation.value.at == at && pendingNavigation.value.text == text
      ensures latest == old(latest)[pendingNavigation.value.id := pendingNavigation.value]
    {
      var id := NextEventId();
      var e := Event(id, at, text);
      NavigationStarts(e, tracked, generations, queued, sends, latest, accepted, handed);
      latest := latest[id := e];
      pendingNavigation := Some(e);
    }

    // ---------- handing over ----------

    method Values(m: Versions) returns (s: seq<Event>)
      ensures forall e :: e in s <==> exists id :: id in m && m[id] == e
    {
      var rest := m.Keys;
      s := [];
      while rest != {}
        invariant rest <= m.Keys
        invariant forall e :: e in s <==> exists id :: id in m && id !in rest && m[id] == e
      {
        var id :| id in rest;
        rest := rest - {id};
        s := s + [m[id]];
      }
    }

    // All that waits and all that is tracked, with everything unsafe among it.
    method Waiting() returns (pending: seq<Event>)
      requires Valid()
      ensures Identified(pending) && (forall e | e in pending :: Newest(e, latest))
      ensures forall id | id in latest :: Safe(id, latest, accepted, handed) || id in Ids(pending)
    {
      var values := Values(tracked);
      pending := (if pendingInput.Some? then [pendingInput.value.event] else [])
               + (if pendingScroll.Some? then [pendingScroll.value.event] else [])
               + (if pendingNavigation.Some? then [pendingNavigation.value] else []) + values;
      forall id | id in latest && !Safe(id, latest, accepted, handed) ensures id in Ids(pending) {
        if id in tracked {
          assert tracked[id] in values;
          assert tracked[id] in pending;
        } else {
          assert pendingNavigation.value in pending;
        }
      }
    }

    // Everything that waits or is tracked, each action once, in time order.
    method CollectPendingEvents() returns (r: seq<Event>)
      requires Valid()
      modifies this`pendingInput, this`pendingScroll, this`pendingNavigation, this`tracked, this`failed, this`generations, this`handed, this`listening
      ensures Valid() && !listening && tracked == map[]
      ensures Identified(r) && UniqueIds(r) && Sorted(r) && handed == old(handed) + Ids(r)
      ensures forall e | e in r :: Newest(e, latest)
      ensures forall id | id in latest :: old(Safe(id, latest, accepted, handed)) || id in Ids(r)
    {
      r := Gather();
      HandOver(Ids(r));
      Stop();
    }

    ghost method HandOver(ids: set<string>)
      requires Valid() && forall id | id in latest :: Safe(id, latest, accepted, handed) || id in ids
      modifies this`handed
      ensures Valid() && handed == old(handed) + ids && AllSafe(latest, accepted, handed)
    {
      HandedOver(latest, accepted, handed, ids);
      handed := handed + ids;
    }

    // Everything is safe, so nothing needs to wait any longer.
    method Stop()
      requires Valid() && AllSafe(latest, accepted, handed)
      modifies this`pendingInput, this`pendingScroll, this`pendingNavigation, this`tracked, this`failed, this`generations, this`listening
      ensures Valid() && !listening && tracked == map[]
    {
      NothingWaits(pendingInput, pendingScroll, pendingNavigation, queued, latest);
      SafeIsKept(latest, accepted, handed);
      pendingInput, pendingScroll, pendingNavigation := None, None, None;
      tracked, failed, generations := map[], {}, map[];
      listening := false;
    }

    method Gather() returns (r: seq<Event>)
      requires Valid()
      ensures Identified(r) && UniqueIds(r) && Sorted(r) && forall e | e in r :: Newest(e, latest)
      ensures forall id | id in latest :: Safe(id, latest, accepted, handed) || id in Ids(r)
    {
      var pending := Waiting();
      r := StableSort(AppendAll([], pending));
      CollectedOnce(pending);
    }

    // Whatever has not been accepted in its newest version is handed over, and again if asked again.
    method Retain() returns (r: seq<Event>)
      requires Valid()
      modifies this`pendingInput, this`pendingScroll, this`pendingNavigation, this`tracked, this`failed, this`generations, this`handed, this`listening, this`retained
      ensures Valid() && !listening && r == retained && handed == old(handed) + Ids(r)
      ensures old(retained) != [] ==> r == old(retained)
      ensures AllSafe(latest, accepted, old(handed) + Ids(r))
    {
      if retained == [] { retained := CollectPendingEvents(); }
      listening := false;
      r := retained;
    }

    // The worker releases only what it has retained.
    method Release()
      requires Valid() && !listening
      modifies this`pendingInput, this`pendingScroll, this`pendingNavigation, this`tracked, this`failed, this`generations, this`handed, this`listening, this`retained, this`present
      ensures Valid() && !listening && !present && retained == [] && handed == old(handed) && AllSafe(latest, accepted, handed)
    {
      ghost var before := handed;
      SafeIsKept(latest, accepted, before);
      var dropped := CollectPendingEvents();
      retained, present, handed := [], false, before;
    }

    lemma {:induction false} CollectedOnce(pending: seq<Event>)
      requires Identified(pending)
      ensures var r := StableSort(AppendAll([], pending));
              UniqueIds(r) && Sorted(r) && Ids(r) == Ids(pending) && Identified(r) && forall e | e in r :: e in pending
    {
      var unique := AppendAll([], pending);
      AppendAllIs([], pending);
      assert unique[0..] == unique;
      SortKeeps(unique);
      StableSortIs(unique, 0);
    }

    lemma {:induction false} DrainedIs(a: seq<Event>, b: seq<Event>)
      requires Identified(a) && Identified(b)
      ensures var r := StableSort(a + b); Sorted(r) && Identified(r) && Ids(r) == Ids(a) + Ids(b)
    {
      SortKeeps(a + b);
      StableSortIs(a + b, 0);
      assert Ids(a + b) == Ids(a) + Ids(b);
    }

    // The same, and the recorder is gone.
    method Drain() returns (r: seq<Event>)
      requires Valid()
      modifies this`pendingInput, this`pendingScroll, this`pendingNavigation, this`tracked, this`failed, this`generations, this`handed, this`listening, this`retained, this`present
      ensures Valid() && !listening && !present && retained == [] && Sorted(r) && Identified(r)
      ensures handed == old(handed) + Ids(r) && Ids(old(retained)) <= Ids(r)
      ensures AllSafe(latest, accepted, old(handed) + Ids(r))
    {
      var collected := CollectPendingEvents();
      r := StableSort(retained + collected);
      DrainedIs(retained, collected);
      retained, present := [], false;
    }
  }
}
