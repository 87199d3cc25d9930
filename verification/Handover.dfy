/**
 The recorder in the page and the worker together, with the messages between them: whatever is sent, lost,
 refused, paused, resumed and finished, no action is lost and none is doubled
 (apps/extension/content/recorder.js:134-365, apps/extension/background/service-worker.js:364-440,483-508,592-653,866-876).
 */
module Handover {
  import opened Basics
  import opened CaptureEvents
  import opened CaptureStores
  import opened StoreWrites
  import opened CaptureDraft
  import CaptureWorker
  import Recorder

  predicate ExactlyOnce(s: seq<Event>, id: string) {
    exists i | 0 <= i < |s| :: s[i].id == id && forall j | 0 <= j < |s| && j != i :: s[j].id != id
  }

  lemma OnceIn(s: seq<Event>, id: string)
    requires UniqueIds(s) && id in Ids(s)
    ensures ExactlyOnce(s, id)
  {
    var e :| e in s && e.id != "" && e.id == id;
    var i :| 0 <= i < |s| && s[i] == e;
  }

  // A list of at most a thousand events has all these ids, so a journal can hold them.
  ghost predicate Listable(ids: set<string>) {
    exists es: seq<Event> :: Wf(es) && |es| <= MAX_RECOVERY_EVENTS && ids <= Ids(es)
  }

  ghost predicate Small(st: Stores) { st.session.Some? && Listable(Known(st)) }

  lemma StaysSmall(st: Stores, events: seq<Event>)
    requires st.session.Some? && Wf(events) && Known(st) <= Ids(events) && |events| <= MAX_RECOVERY_EVENTS
    ensures Small(st)
  {
  }

  lemma SmallIs(st: Stores)
    requires StoresWf(st) && Small(st)
    ensures Rebuild(st).Some? && Wf(Rebuild(st).value.events) && |Rebuild(st).value.events| <= MAX_RECOVERY_EVENTS
  {
    KnownIs(st, st.session.value.id);
    var es :| Wf(es) && |es| <= MAX_RECOVERY_EVENTS && Known(st) <= Ids(es);
    DistinctIds(es);
    Smaller(Known(st), Ids(es));
  }

  // ---------- what the two of them keep, by id ----------

  // The stores, what the page holds for a retain, what was acknowledged or handed over, the actions of
  // recorders that are gone, and those a limit turned away or a page took with it when it was left.
  datatype State = State(stores: Stores, retained: set<string>, owed: set<string>, past: set<string>, excused: set<string>)

  // Stored, still handed over by the page, or excused.
  ghost function Secured(s: State): set<string> { Durable(s.stores) + s.retained + s.excused }

  // Whatever was acknowledged, was handed over, or waits in the worker's memory alone is secured.
  ghost predicate Sound(s: State) {
    && Small(s.stores)
    && s.owed + Volatile(s.stores) <= Secured(s)
    && s.past <= Durable(s.stores) + s.excused
  }

  // The worker's stores have gone on: they lost nothing, and what waits is secured.
  lemma StoresGoOn(a: State, b: State)
    requires Sound(a) && b == a.(stores := b.stores) && Small(b.stores)
    requires Durable(a.stores) <= Durable(b.stores) && Volatile(b.stores) <= Secured(a) + Durable(b.stores)
    ensures Sound(b) && Secured(a) <= Secured(b)
  {
    assert Secured(a) <= Secured(b);
  }

  // The page hands over what it retains.
  lemma PageRetains(a: State, b: State)
    requires Sound(a) && b == a.(retained := b.retained, owed := a.owed + b.retained) && a.retained <= b.retained
    ensures Sound(b) && Secured(a) <= Secured(b)
  {
  }

  // The page gives up what it retains: it is stored or excused.
  lemma PageGivesUp(a: State, b: State, over: set<string>)
    requires Sound(a) && a.retained <= over && b == a.(retained := {}, owed := b.owed, excused := b.excused)
    requires b.owed <= a.owed + over && a.excused <= b.excused && over <= Durable(a.stores) + b.excused
    ensures Sound(b) && Secured(a) <= Secured(b)
  {
  }

  lemma MoreOwed(a: State, b: State)
    requires Sound(a) && b == a.(owed := b.owed) && b.owed <= a.owed + Secured(a)
    ensures Sound(b)
  {
  }

  // The recording, what the worker acknowledged, the actions of recorders that are gone, those a limit turned away
  // and those a page took with it, and whether an image count met its limit.
  datatype Ledger = Ledger(session: string, acknowledged: set<string>, past: set<string>, turnedAway: set<string>, lost: set<string>, images: bool)

  // Something is turned away only once two hundred actions are stored or an image count met its limit.
  ghost predicate Limited(l: Ledger, st: Stores) {
    Of(st, l.session) && (l.turnedAway != {} ==> l.images || AtStepLimit(st)) && (ImageLimit(st) ==> l.images)
  }

  lemma LimitsGoOn(l: Ledger, a: Stores, b: Stores)
    requires Limited(l, a) && Of(b, l.session) && Durable(a) <= Durable(b) && Marks(a, b, l.images)
    ensures Limited(l, b)
  {
    if AtStepLimit(a) {
      var es :| Wf(es) && |es| >= MAX_CAPTURE_STEPS && Ids(es) <= Durable(a);
      assert Ids(es) <= Durable(b);
    }
  }

  // What is kept leaves out something of what was held only at a limit.
  ghost predicate LeavesOutAtALimit(l: Ledger, held: set<string>, kept: seq<Event>) {
    held <= Ids(kept) || l.images || |kept| >= MAX_CAPTURE_STEPS
  }

  lemma LimitLeavesOut(l: Ledger, s: Session, over: seq<Event>)
    requires Wf(s.events) && Identified(over) && (s.limit == Images ==> l.images)
    ensures LeavesOutAtALimit(l, Ids(over), KeepPending(s, over).events)
  {
    KeptBound(s, over);
    TakenOrFull(s.events, over);
  }

  // Turned away: nothing but what the page has handed over.
  ghost predicate OnlyHanded(l: Ledger, m: Ledger, handed: set<string>) {
    m == l.(turnedAway := m.turnedAway) && l.turnedAway <= m.turnedAway <= l.turnedAway + handed
  }

  lemma OnlyHandedTwice(l: Ledger, m: Ledger, n: Ledger, a: set<string>, b: set<string>)
    requires OnlyHanded(l, m, a) && OnlyHanded(m, n, b) && a <= b
    ensures OnlyHanded(l, n, b)
  {
  }

  // What the page takes for accepted, and what the worker is about to say it accepted.
  ghost predicate Acknowledges(ids: set<string>, accepted: set<Event>, replies: map<Recorder.Send, bool>) {
    && (forall e | e in accepted :: e.id in ids)
    && (forall r | r in replies && replies[r] :: r.event.id in ids)
  }

  lemma RepliesGrow(a: set<string>, b: set<string>, accepted: set<Event>, replies: map<Recorder.Send, bool>, s: Recorder.Send, ok: bool)
    requires Acknowledges(a, accepted, replies) && a <= b && (ok ==> s.event.id in b)
    ensures Acknowledges(b, accepted, replies[s := ok])
  {
  }

  lemma ReplyArrives(ids: set<string>, accepted: set<Event>, replies: map<Recorder.Send, bool>, s: Recorder.Send, ok: bool)
    requires Acknowledges(ids, accepted, replies) && (ok ==> s in replies && replies[s])
    ensures Acknowledges(ids, if ok then accepted + {s.event} else accepted, replies - {s})
  {
  }

  ghost function Now(r: Recorder.Recorder, w: CaptureWorker.Worker, l: Ledger): State
    reads r, w
  {
    State(w.View(), Ids(r.retained), l.acknowledged + r.handed, l.past, l.turnedAway + l.lost)
  }

  // replies: what the worker has answered.
  ghost predicate Inv(r: Recorder.Recorder, w: CaptureWorker.Worker, replies: map<Recorder.Send, bool>, l: Ledger)
    reads r, w
  {
    Holds(r, w, replies, l) && w.present == r.present
  }

  ghost predicate Holds(r: Recorder.Recorder, w: CaptureWorker.Worker, replies: map<Recorder.Send, bool>, l: Ledger)
    reads r, w
  {
    Parts(r, w, replies, l) && Sound(Now(r, w, l)) && Limited(l, w.View())
  }

  ghost predicate Parts(r: Recorder.Recorder, w: CaptureWorker.Worker, replies: map<Recorder.Send, bool>, l: Ledger)
    reads r, w
  {
    && r.Valid() && w.Valid() && (!r.present ==> r.retained == [] && !r.listening)
    && Acknowledges(l.acknowledged, r.accepted, replies)
  }

  // The worker has moved, the page has not.
  lemma WorkerMoved(r: Recorder.Recorder, w: CaptureWorker.Worker, l: Ledger, before: State)
    requires Sound(before) && Limited(l, before.stores) && Now(r, w, l) == before.(stores := w.View()) && Small(w.View())
    requires Durable(before.stores) <= Durable(w.View()) && Volatile(w.View()) <= Secured(before) + Durable(w.View())
    requires Marks(before.stores, w.View(), l.images) && Of(w.View(), l.session)
    ensures Sound(Now(r, w, l)) && Secured(before) <= Secured(Now(r, w, l)) && Limited(l, w.View())
  {
    StoresGoOn(before, Now(r, w, l));
    LimitsGoOn(l, before.stores, w.View());
  }

  // In particular when nothing new is known.
  lemma WorkerSettled(r: Recorder.Recorder, w: CaptureWorker.Worker, l: Ledger, before: State)
    requires Sound(before) && Limited(l, before.stores) && Now(r, w, l) == before.(stores := w.View()) && w.session.Some?
    requires Durable(before.stores) <= Durable(w.View()) && Known(w.View()) <= Known(before.stores)
    requires Marks(before.stores, w.View(), l.images) && Of(w.View(), l.session)
    ensures Sound(Now(r, w, l)) && Secured(before) <= Secured(Now(r, w, l)) && Limited(l, w.View())
  {
    StoresGoOn(before, Now(r, w, l));
    LimitsGoOn(l, before.stores, w.View());
  }

  // ---------- the page ----------

  // Any one thing the page does by itself.
  method PageStep(r: Recorder.Recorder)
    requires r.Valid()
    modifies r`pendingInput, r`pendingScroll, r`pendingNavigation, r`queued, r`sequence, r`tracked, r`generations, r`failed, r`sends, r`latest
    ensures r.Valid()
  {
    var recording: bool := *;
    if recording && r.listening { Act(r); } else { TransmitOne(r); }
  }

  method Act(r: Recorder.Recorder)
    requires r.Valid() && r.listening
    modifies r`pendingInput, r`pendingScroll, r`pendingNavigation, r`queued, r`sequence, r`tracked, r`generations, r`failed, r`sends, r`latest
    ensures r.Valid()
  {
    var kind: nat, target: nat, at: int, text: string, seeded: bool, moved: bool := *, *, *, *, *, *;
    if kind == 1 {
      r.QueueInput(target, at, text);
    } else if kind == 2 {
      r.CommitInput(target);
    } else if kind == 3 {
      r.Scroll(target, seeded, moved, at, text);
    } else if kind == 4 {
      var e := r.Click(at, text);
    } else if kind == 5 {
      r.RecordNavigation(at, text);
    } else if kind == 6 {
      r.FlushNavigation();
    } else {
      r.FlushScroll();
    }
  }

  method TransmitOne(r: Recorder.Recorder)
    requires r.Valid()
    modifies r`queued, r`tracked, r`generations, r`failed, r`sends
    ensures r.Valid()
  {
    if r.queued == {} { return; }
    var e :| e in r.queued;
    r.Transmit(e);
  }

  // The page goes on for any number of steps, and replies come back to it or are lost.
  method PageGoesOn(r: Recorder.Recorder, w: CaptureWorker.Worker, replies: map<Recorder.Send, bool>, ghost l: Ledger)
    requires Holds(r, w, replies, l)
    modifies r
    ensures Holds(r, w, replies, l)
    ensures r.retained == old(r.retained) && r.present == old(r.present) && r.listening == old(r.listening) && r.handed == old(r.handed)
  {
    var steps: int := *;
    for i := 0 to Max(0, steps)
      invariant Holds(r, w, replies, l)
      invariant r.retained == old(r.retained) && r.present == old(r.present) && r.listening == old(r.listening) && r.handed == old(r.handed)
    {
      var replied: bool := *;
      if replied && r.sends != {} {
        var s :| s in r.sends;
        Answer(r, w, replies, l, s);
      } else {
        PageMoves(r, w, replies, l);
      }
    }
  }

  method PageMoves(r: Recorder.Recorder, w: CaptureWorker.Worker, replies: map<Recorder.Send, bool>, ghost l: Ledger)
    requires Holds(r, w, replies, l)
    modifies r
    ensures Holds(r, w, replies, l)
    ensures r.retained == old(r.retained) && r.present == old(r.present) && r.listening == old(r.listening) && r.handed == old(r.handed)
  {
    ghost var before := Now(r, w, l);
    PageStep(r);
    assert Now(r, w, l) == before;
  }

  // The reply to a message comes back, early or late, or is lost.
  method Answer(r: Recorder.Recorder, w: CaptureWorker.Worker, replies: map<Recorder.Send, bool>, ghost l: Ledger, s: Recorder.Send)
    requires Holds(r, w, replies, l) && s in r.sends
    modifies r
    ensures Holds(r, w, replies, l)
    ensures r.retained == old(r.retained) && r.present == old(r.present) && r.listening == old(r.listening) && r.handed == old(r.handed)
  {
    var arrives: bool := *;
    var ok := arrives && s in replies && replies[s];
    ReplyArrives(l.acknowledged, r.accepted, replies, s, ok);
    ghost var before := Now(r, w, l);
    r.Reply(s, ok);
    assert Now(r, w, l) == before;
  }

  // ---------- the worker, recording ----------

  // The worker has taken the recorder out of the page at a limit, and dropped what it handed over.
  method Drained(r: Recorder.Recorder, w: CaptureWorker.Worker, replies: map<Recorder.Send, bool>, ghost l: Ledger)
      returns (ghost m: Ledger)
    requires Holds(r, w, replies, l) && (w.present ==> r.present)
    requires r.present && !w.present ==> l.images || AtStepLimit(w.View())
    modifies r
    ensures Inv(r, w, replies, m) && Secured(old(Now(r, w, l))) <= Secured(Now(r, w, m)) && r.sends == old(r.sends)
    ensures OnlyHanded(l, m, r.handed) && old(r.handed) <= r.handed && (m != l ==> !w.present && old(r.present))
  {
    m := l;
    if !w.present && r.present {
      ghost var before := Now(r, w, l);
      var over := r.Drain();
      m := l.(turnedAway := l.turnedAway + (Ids(over) - Durable(before.stores)));
      ghost var after := Now(r, w, m);
      assert after == before.(retained := {}, owed := after.owed, excused := m.turnedAway + m.lost);
      PageGivesUp(before, after, Ids(over));
    }
  }

  // Any event at all is recorded: of this page, of a frame, or of a recorder that is gone.
  method Record(r: Recorder.Recorder, w: CaptureWorker.Worker, replies: map<Recorder.Send, bool>, ghost l: Ledger,
                e: Event, images: Option<nat>)
      returns (accepted: bool, ghost m: Ledger)
    requires Inv(r, w, replies, l) && e.id != "" && (CaptureWorker.Reached(images) ==> l.images)
    modifies r, w
    ensures Inv(r, w, replies, m) && (accepted ==> e.id in Secured(Now(r, w, m)))
    ensures r.sends == old(r.sends) && OnlyHanded(l, m, r.handed) && old(r.handed) <= r.handed && w.drafts == old(w.drafts)
    ensures m != l ==> CaptureWorker.LimitMet(old(Rebuild(w.View())).value, images)
  {
    var sameTab: bool := *;
    ghost var base;
    accepted, base := Handle(r, w, replies, l, e, images, sameTab);
    m := Drained(r, w, replies, l);
  }

  method Handle(r: Recorder.Recorder, w: CaptureWorker.Worker, replies: map<Recorder.Send, bool>, ghost l: Ledger,
                e: Event, images: Option<nat>, sameTab: bool)
      returns (accepted: bool, ghost base: Option<Session>)
    requires Inv(r, w, replies, l) && e.id != "" && (CaptureWorker.Reached(images) ==> l.images)
    modifies w`session, w`journal, w`fallback, w`marker, w`held, w`present
    ensures Holds(r, w, replies, l)
    ensures accepted ==> e.id in Secured(Now(r, w, l))
    ensures base.Some? && base == old(Rebuild(w.View()))
    ensures w.present == r.present || (!w.present && CaptureWorker.LimitMet(base.value, images) && (l.images || AtStepLimit(w.View())))
  {
    ghost var before := Now(r, w, l);
    RoomForOne(before.stores, e);
    accepted, base := w.HandleCaptureEvent(e, images, sameTab);
    StaysSmall(w.View(), Take1(base.value.events, e));
    WorkerMoved(r, w, l, before);
    assert w.present != r.present ==> Ids(base.value.events) <= Durable(w.View());
  }

  lemma RoomForOne(st: Stores, e: Event)
    requires StoresWf(st) && Small(st) && e.id != ""
    ensures var base := Rebuild(st);
            && base.Some? && Wf(base.value.events) && Wf(Take1(base.value.events, e))
            && |base.value.events| <= MAX_RECOVERY_EVENTS && |Take1(base.value.events, e)| <= MAX_RECOVERY_EVENTS
  {
    SmallIs(st);
    Take1Is(Rebuild(st).value.events, e);
  }

  // The worker handles one message of the page.
  method Deliver(r: Recorder.Recorder, w: CaptureWorker.Worker, replies: map<Recorder.Send, bool>, ghost l: Ledger,
                 s: Recorder.Send, images: Option<nat>)
      returns (accepted: bool, ghost m: Ledger)
    requires Inv(r, w, replies, l) && s in r.sends && (CaptureWorker.Reached(images) ==> l.images)
    modifies r, w
    ensures Inv(r, w, replies[s := accepted], m) && OnlyHanded(l, m.(acknowledged := l.acknowledged), r.handed) && old(r.handed) <= r.handed
    ensures m.acknowledged == l.acknowledged + (if accepted then {s.event.id} else {}) && w.drafts == old(w.drafts)
    ensures accepted ==> s.event.id in Secured(Now(r, w, m))
    ensures m.turnedAway != l.turnedAway ==> CaptureWorker.LimitMet(old(Rebuild(w.View())).value, images)
  {
    accepted, m := Record(r, w, replies, l, s.event, images);
    ghost var n := m.(acknowledged := m.acknowledged + (if accepted then {s.event.id} else {}));
    RepliesGrow(m.acknowledged, n.acknowledged, r.accepted, replies, s, accepted);
    MoreOwed(Now(r, w, m), Now(r, w, n));
    m := n;
  }

  // ---------- pausing and resuming ----------

  // The recorder is asked for what it holds, if it is there.
  method Ask(r: Recorder.Recorder, w: CaptureWorker.Worker, replies: map<Recorder.Send, bool>, ghost l: Ledger)
      returns (over: seq<Event>)
    requires Inv(r, w, replies, l)
    modifies r
    ensures Inv(r, w, replies, l) && over == r.retained && Secured(old(Now(r, w, l))) <= Secured(Now(r, w, l))
    ensures r.present == old(r.present) && (r.present ==> !r.listening) && old(r.handed) <= r.handed
  {
    if !r.present { return []; }
    ghost var before, held := Now(r, w, l), r.retained;
    over := r.Retain();
    assert Ids(held) <= Ids(over);
    ghost var after := Now(r, w, l);
    assert after == before.(retained := Ids(over), owed := after.owed);
    PageRetains(before, after);
  }

  // The recorder is gone: what it held is stored, or left out at a limit. The page goes on until then.
  method Gone(r: Recorder.Recorder, w: CaptureWorker.Worker, replies: map<Recorder.Send, bool>, ghost l: Ledger, ghost kept: seq<Event>)
      returns (ghost m: Ledger)
    requires Holds(r, w, replies, l) && r.present && !r.listening
    requires Wf(kept) && Ids(kept) <= Durable(w.View()) && LeavesOutAtALimit(l, Ids(r.retained), kept)
    modifies r
    ensures Holds(r, w, replies, m) && !r.present && !r.listening
    ensures Secured(old(Now(r, w, l))) <= Secured(Now(r, w, m)) && old(r.handed) <= r.handed
    ensures m == l.(turnedAway := l.turnedAway + (Ids(old(r.retained)) - Ids(kept))) && OnlyHanded(l, m, r.handed)
  {
    PageGoesOn(r, w, replies, l);
    m := Released(r, w, replies, l, kept);
  }

  method Released(r: Recorder.Recorder, w: CaptureWorker.Worker, replies: map<Recorder.Send, bool>, ghost l: Ledger, ghost kept: seq<Event>)
      returns (ghost m: Ledger)
    requires Holds(r, w, replies, l) && r.present && !r.listening
    requires Wf(kept) && Ids(kept) <= Durable(w.View()) && LeavesOutAtALimit(l, Ids(r.retained), kept)
    modifies r
    ensures Holds(r, w, replies, m) && !r.present && !r.listening
    ensures Secured(old(Now(r, w, l))) <= Secured(Now(r, w, m)) && old(r.handed) == r.handed
    ensures m == l.(turnedAway := l.turnedAway + (Ids(old(r.retained)) - Ids(kept))) && OnlyHanded(l, m, r.handed)
  {
    ghost var before, held := Now(r, w, l), Ids(r.retained);
    r.Release();
    m := l.(turnedAway := l.turnedAway + (held - Ids(kept)));
    ghost var after := Now(r, w, m);
    assert after == before.(retained := {}, excused := m.turnedAway + m.lost);
    PageGivesUp(before, after, held);
    assert |kept| >= MAX_CAPTURE_STEPS ==> AtStepLimit(w.View());
  }

  // While there is room for all that is handed over, a release turns nothing away.
  lemma {:induction false} NoneTurnedAway(s: Session, over: seq<Event>)
    requires Wf(s.events) && Identified(over) && HasRoom(s) && |AppendAll(s.events, over)| <= MAX_CAPTURE_STEPS
    ensures Ids(over) - Within(s, over) == {}
  {
    AllWithin(s, over);
  }

  // The worker reads the session.
  method Look(r: Recorder.Recorder, w: CaptureWorker.Worker, replies: map<Recorder.Send, bool>, ghost l: Ledger)
      returns (session: Option<Session>)
    requires Inv(r, w, replies, l)
    modifies w`fallback
    ensures Inv(r, w, replies, l) && session.Some? && w.Base(session.value) && session == old(Rebuild(w.View()))
    ensures Known(w.View()) == Ids(session.value.events) && |session.value.events| <= MAX_RECOVERY_EVENTS
    ensures session.value.limit == Images ==> l.images
  {
    SmallIs(w.View());
    session := w.GetSession();
    WorkerSettled(r, w, l, old(Now(r, w, l)));
  }

  method PauseStored(r: Recorder.Recorder, w: CaptureWorker.Worker, replies: map<Recorder.Send, bool>, ghost l: Ledger,
                     session: Option<Session>, images: Option<nat>)
      returns (intent: Option<Session>)
    requires Inv(r, w, replies, l) && session.Some? && w.Base(session.value) && (CaptureWorker.Reached(images) ==> l.images)
    requires Known(w.View()) == Ids(session.value.events) && |session.value.events| <= MAX_RECOVERY_EVENTS
    requires session.value.limit == Images ==> l.images
    modifies w`session, w`journal, w`fallback, w`marker
    ensures Inv(r, w, replies, l)
    ensures intent.Some? ==> && w.Base(intent.value) && |intent.value.events| <= MAX_RECOVERY_EVENTS
                             && Ids(intent.value.events) <= Durable(w.View()) && (intent.value.limit == Images ==> l.images)
                             && intent.value.phase == Paused && intent.value.id == session.value.id
    ensures w.journal == old(w.journal) || !Contradicts(w.journal, session.value.id, Paused)
  {
    intent := w.PauseStart(session, images);
    WorkerSettled(r, w, l, old(Now(r, w, l)));
  }

  method PauseAsked(r: Recorder.Recorder, w: CaptureWorker.Worker, replies: map<Recorder.Send, bool>, ghost l: Ledger,
                    intent: Session, over: seq<Event>)
      returns (paused: bool, ghost m: Ledger)
    requires Inv(r, w, replies, l) && over == r.retained && (r.present ==> !r.listening) && (intent.limit == Images ==> l.images)
    requires w.Base(intent) && |intent.events| <= MAX_RECOVERY_EVENTS && Ids(intent.events) <= Secured(Now(r, w, l))
    modifies r, w`session, w`journal, w`fallback, w`marker, w`held, w`present, w`told
    ensures Inv(r, w, replies, m) && (paused ==> !r.present) && OnlyHanded(l, m, r.handed) && old(r.handed) <= r.handed
    ensures m == l || m == l.(turnedAway := l.turnedAway + (Ids(over) - Within(intent, over)))
    ensures paused && intent.phase == Paused ==> w.PausedOr(old(w.journal), intent.id)
  {
    KeptBound(intent, over);
    paused := w.PauseRest(intent, Some(over));
    ghost var kept := KeepPending(intent, over).events;
    StaysSmall(w.View(), kept);
    WorkerMoved(r, w, l, old(Now(r, w, l)));
    LimitLeavesOut(l, intent, over);
    m := l;
    if r.present && !w.present { m := Gone(r, w, replies, l, kept); }
  }

  // The page goes on until it is asked, and from then until it is told; question or answer may be lost.
  method PauseGoesOn(r: Recorder.Recorder, w: CaptureWorker.Worker, replies: map<Recorder.Send, bool>, ghost l: Ledger, intent: Session)
      returns (paused: bool, ghost m: Ledger)
    requires Inv(r, w, replies, l) && (intent.limit == Images ==> l.images)
    requires w.Base(intent) && |intent.events| <= MAX_RECOVERY_EVENTS && Ids(intent.events) <= Durable(w.View())
    modifies r, w`session, w`journal, w`fallback, w`marker, w`held, w`present, w`told
    ensures Inv(r, w, replies, m) && (paused ==> !r.present) && OnlyHanded(l, m, r.handed) && old(r.handed) <= r.handed
    ensures paused && intent.phase == Paused ==> w.PausedOr(old(w.journal), intent.id)
  {
    m, paused := l, false;
    PageGoesOn(r, w, replies, l);
    var asked: bool := *;
    if asked {
      var over := Ask(r, w, replies, l);
      PageGoesOn(r, w, replies, l);
      var confirmed: bool := *;
      if confirmed { paused, m := PauseAsked(r, w, replies, l, intent, over); }
    }
  }

  // A pause: it is stored, then the recorder is asked, and then told to release.
  method Pause(r: Recorder.Recorder, w: CaptureWorker.Worker, replies: map<Recorder.Send, bool>, ghost l: Ledger, images: Option<nat>)
      returns (paused: bool, ghost m: Ledger)
    requires Inv(r, w, replies, l) && (CaptureWorker.Reached(images) ==> l.images)
    modifies r, w`session, w`journal, w`fallback, w`marker, w`held, w`present, w`told
    ensures Inv(r, w, replies, m) && (paused ==> !r.present) && OnlyHanded(l, m, r.handed) && old(r.handed) <= r.handed
    ensures paused ==> w.PausedOr(old(w.journal), w.session.value.id)
  {
    m, paused := l, false;
    var session := Look(r, w, replies, l);
    var intent := PauseStored(r, w, replies, l, session, images);
    if intent.Some? { paused, m := PauseGoesOn(r, w, replies, l, intent.value); }
  }

  method ResumeStored(r: Recorder.Recorder, w: CaptureWorker.Worker, replies: map<Recorder.Send, bool>, ghost l: Ledger, resumeBase: Session)
      returns (resumed: bool, ghost m: Ledger)
    requires Inv(r, w, replies, l) && (r.present ==> !r.listening) && (resumeBase.limit == Images ==> l.images)
    requires w.Base(resumeBase) && |resumeBase.events| <= MAX_RECOVERY_EVENTS && LeavesOutAtALimit(l, Ids(r.retained), resumeBase.events)
    modifies r, w`session, w`journal, w`fallback, w`marker, w`held, w`present, w`told
    ensures Holds(r, w, replies, m) && w.present == (r.present || resumed) && (resumed ==> !r.present)
    ensures resumed ==> IsRecording(w)
    ensures w.Base(resumeBase) && Secured(old(Now(r, w, l))) <= Secured(Now(r, w, m))
    ensures OnlyHanded(l, m, r.handed) && old(r.handed) <= r.handed
    ensures m == l || m == l.(turnedAway := l.turnedAway + (Ids(old(r.retained)) - Ids(resumeBase.events)))
  {
    resumed := w.TryResume(resumeBase);
    StaysSmall(w.View(), resumeBase.events);
    WorkerMoved(r, w, l, old(Now(r, w, l)));
    m := l;
    if r.present && (!w.present || resumed) { m := Gone(r, w, replies, l, resumeBase.events); }
  }

  method ResumeAgain(r: Recorder.Recorder, w: CaptureWorker.Worker, replies: map<Recorder.Send, bool>, ghost l: Ledger,
                     resumeBase: Session, recovered: Option<seq<Event>>)
      returns (ghost m: Ledger)
    requires Inv(r, w, replies, l) && (resumeBase.limit == Images ==> l.images)
    requires recovered.Some? ==> recovered.value == r.retained && (r.present ==> !r.listening)
    requires w.Base(resumeBase) && |resumeBase.events| <= MAX_RECOVERY_EVENTS && Ids(resumeBase.events) <= Secured(Now(r, w, l))
    modifies r, w`session, w`journal, w`fallback, w`marker, w`held, w`present, w`told
    ensures Inv(r, w, replies, m) && OnlyHanded(l, m, r.handed) && old(r.handed) <= r.handed
    ensures m == l || m == l.(turnedAway := l.turnedAway + (Ids(old(r.retained)) - Ids(CaptureWorker.Recovered(resumeBase, recovered).events)))
  {
    ghost var kept := CaptureWorker.Recovered(resumeBase, recovered).events;
    if recovered.Some? {
      KeptBound(resumeBase, recovered.value);
      LimitLeavesOut(l, resumeBase, recovered.value);
    }
    w.ResumeFails(resumeBase, recovered);
    StaysSmall(w.View(), kept);
    WorkerMoved(r, w, l, old(Now(r, w, l)));
    m := l;
    if r.present && !w.present { m := Gone(r, w, replies, l, kept); }
  }

  // The recording is read back as going on.
  ghost predicate IsRecording(w: CaptureWorker.Worker)
    reads w
  {
    Rebuild(w.View()).Some? && Rebuild(w.View()).value.phase == Phase.Recording
  }

  // A resume: what the recorder hands over is stored, the recorder released and a new one injected; or, when
  // something fails on the way, the recorder is asked again and everything is stored as a failed resume.
  method Resume(r: Recorder.Recorder, w: CaptureWorker.Worker, replies: map<Recorder.Send, bool>, ghost l: Ledger, sameTab: bool)
      returns (resumed: bool, ghost m: Ledger)
    requires Inv(r, w, replies, l)
    modifies r, w`session, w`journal, w`fallback, w`marker, w`held, w`present, w`told
    ensures Holds(r, w, replies, m) && w.present == (r.present || resumed) && (resumed ==> !r.present)
    ensures resumed ==> IsRecording(w)
    ensures OnlyHanded(l, m, r.handed) && old(r.handed) <= r.handed
  {
    m, resumed := l, false;
    var base := Look(r, w, replies, l);
    if w.Resumable(base, sameTab) {
      var confirmed: bool := *;
      if confirmed {
        var over := Ask(r, w, replies, l);
        resumed, m := ResumeAsked(r, w, replies, l, base.value, over);
      } else {
        m := ResumeAgain(r, w, replies, l, base.value, None);
      }
    }
  }

  lemma WhatIsKept(s: State, l: Ledger, base: Session, over: seq<Event>)
    requires Wf(base.events) && Identified(over) && |base.events| <= MAX_RECOVERY_EVENTS && (base.limit == Images ==> l.images)
    requires Ids(base.events) <= Secured(s) && Ids(over) <= s.retained
    ensures var kept := KeepPending(base, over);
            && Wf(kept.events) && kept.id == base.id && |kept.events| <= MAX_RECOVERY_EVENTS && (kept.limit == Images ==> l.images)
            && Ids(base.events) <= Ids(kept.events) <= Secured(s) && LeavesOutAtALimit(l, Ids(over), kept.events)
  {
    KeptBound(base, over);
    LimitLeavesOut(l, base, over);
  }

  method ResumeAsked(r: Recorder.Recorder, w: CaptureWorker.Worker, replies: map<Recorder.Send, bool>, ghost l: Ledger,
                     base: Session, over: seq<Event>)
      returns (resumed: bool, ghost m: Ledger)
    requires Inv(r, w, replies, l) && over == r.retained && (r.present ==> !r.listening) && (base.limit == Images ==> l.images)
    requires w.Base(base) && |base.events| <= MAX_RECOVERY_EVENTS && Ids(base.events) <= Secured(Now(r, w, l))
    modifies r, w`session, w`journal, w`fallback, w`marker, w`held, w`present, w`told
    ensures Holds(r, w, replies, m) && w.present == (r.present || resumed) && (resumed ==> !r.present)
    ensures resumed ==> IsRecording(w)
    ensures OnlyHanded(l, m, r.handed) && old(r.handed) <= r.handed
  {
    WhatIsKept(Now(r, w, l), l, base, over);
    var resumeBase := MergePendingEventsWithoutImages(base, over);
    assert w.Base(resumeBase);
    resumed, m := ResumeWith(r, w, replies, l, resumeBase);
  }

  method ResumeWith(r: Recorder.Recorder, w: CaptureWorker.Worker, replies: map<Recorder.Send, bool>, ghost l: Ledger, resumeBase: Session)
      returns (resumed: bool, ghost m: Ledger)
    requires Inv(r, w, replies, l) && (r.present ==> !r.listening) && (resumeBase.limit == Images ==> l.images)
    requires w.Base(resumeBase) && |resumeBase.events| <= MAX_RECOVERY_EVENTS && LeavesOutAtALimit(l, Ids(r.retained), resumeBase.events)
    requires Ids(resumeBase.events) <= Secured(Now(r, w, l))
    modifies r, w`session, w`journal, w`fallback, w`marker, w`held, w`present, w`told
    ensures Holds(r, w, replies, m) && w.present == (r.present || resumed) && (resumed ==> !r.present)
    ensures resumed ==> IsRecording(w)
    ensures OnlyHanded(l, m, r.handed) && old(r.handed) <= r.handed
  {
    ghost var before := Now(r, w, l);
    PageGoesOn(r, w, replies, l);
    resumed, m := ResumeStored(r, w, replies, l, resumeBase);
    if !resumed {
      ghost var n, handed := m, r.handed;
      m := ResumeRetried(r, w, replies, n, resumeBase);
      OnlyHandedTwice(l, n, m, handed, r.handed);
    }
  }

  method ResumeRetried(r: Recorder.Recorder, w: CaptureWorker.Worker, replies: map<Recorder.Send, bool>, ghost l: Ledger, resumeBase: Session)
      returns (ghost m: Ledger)
    requires Inv(r, w, replies, l) && (resumeBase.limit == Images ==> l.images)
    requires w.Base(resumeBase) && |resumeBase.events| <= MAX_RECOVERY_EVENTS && Ids(resumeBase.events) <= Secured(Now(r, w, l))
    modifies r, w`session, w`journal, w`fallback, w`marker, w`held, w`present, w`told
    ensures Inv(r, w, replies, m) && OnlyHanded(l, m, r.handed) && old(r.handed) <= r.handed
  {
    PageGoesOn(r, w, replies, l);
    var again := Ask(r, w, replies, l);
    PageGoesOn(r, w, replies, l);
    var confirmed: bool := *;
    m := ResumeAgain(r, w, replies, l, resumeBase, if confirmed then Some(again) else None);
  }

  // ---------- finishing ----------

  lemma {:induction false} RoomToFinish(start: Session, over: seq<Event>)
    requires Wf(start.events) && Identified(over) && |AppendAll(start.events, over)| <= MAX_RECOVERY_EVENTS
    ensures var all := AppendAll(start.events, over);
            && Wf(all) && Within(start, over) + Ids(over) <= Ids(all) && |Ids(all)| <= MAX_RECOVERY_EVENTS
            && Ids(all) <= Within(start, over) + Ids(over)
            && |start.events| <= MAX_RECOVERY_EVENTS && Wf(KeepPending(start, over).events)
  {
    AppendAllIs(start.events, over);
    DistinctIds(AppendAll(start.events, over));
    KeptBound(start, over);
  }

  // Once two hundred actions are stored, the finish keeps as many.
  lemma KeepsAsMany(st: Stores, start: Session, over: seq<Event>)
    requires AtStepLimit(st) && Known(st) <= Ids(start.events) && Wf(start.events) && Identified(over)
    ensures |KeepPending(start, over).events| >= MAX_CAPTURE_STEPS
  {
    var es :| Wf(es) && |es| >= MAX_CAPTURE_STEPS && Ids(es) <= Durable(st);
    KeptBound(start, over);
    DistinctIds(es);
    Smaller(Ids(es), Ids(KeepPending(start, over).events));
  }

  // An image count at the limit is marked, which takes the recorder out of the page; or the finish fails.
  method FinishMarked(r: Recorder.Recorder, w: CaptureWorker.Worker, replies: map<Recorder.Send, bool>, ghost l: Ledger,
                      base: Session, images: nat)
      returns (start: Option<Session>, ghost m: Ledger)
    requires Inv(r, w, replies, l) && (base.limit == Images ==> l.images) && (CaptureWorker.Reached(Some(images)) ==> l.images)
    requires w.Base(base) && Known(w.View()) == Ids(base.events) && |base.events| <= MAX_RECOVERY_EVENTS
    modifies r, w`session, w`journal, w`fallback, w`marker, w`held, w`present, w`told
    ensures Inv(r, w, replies, m) && OnlyHanded(l, m, r.handed) && old(r.handed) <= r.handed
    ensures start.Some? ==> && start.value == CaptureWorker.FinishBase(base, images) && start.value.id == base.id
                            && w.Base(start.value) && |start.value.events| <= MAX_RECOVERY_EVENTS && (start.value.limit == Images ==> m.images)
  {
    m := l;
    start := Some(CaptureWorker.FinishBase(base, images));
    if start.value != base {
      var marked := w.MarkImages(base);
      StaysSmall(w.View(), base.events);
      WorkerMoved(r, w, l, old(Now(r, w, l)));
      m := Drained(r, w, replies, l);
      if !marked {
        FinishEarly(r, w, replies, m, base);
        start := None;
      }
    }
  }

  method FinishEarly(r: Recorder.Recorder, w: CaptureWorker.Worker, replies: map<Recorder.Send, bool>, ghost l: Ledger, s: Session)
    requires Inv(r, w, replies, l) && w.Base(s) && |s.events| <= MAX_RECOVERY_EVENTS && (s.limit == Images ==> l.images)
    modifies w`session, w`journal, w`fallback, w`marker, w`held, w`present, w`told
    ensures Inv(r, w, replies, l)
  {
    w.FinishEarly(s);
    StaysSmall(w.View(), s.events);
    WorkerMoved(r, w, l, old(Now(r, w, l)));
  }

  // From the retained events on. A finish that ends keeps every stored action that was not turned away.
  method FinishAsked(r: Recorder.Recorder, w: CaptureWorker.Worker, replies: map<Recorder.Send, bool>, ghost l: Ledger,
                     start: Session, over: seq<Event>)
      returns (finished: bool, ghost m: Ledger)
    requires Inv(r, w, replies, l) && over == r.retained && (r.present ==> !r.listening) && (start.limit == Images ==> l.images)
    requires w.Base(start) && |AppendAll(start.events, over)| <= MAX_RECOVERY_EVENTS
    modifies r, w
    ensures Inv(r, w, replies, m) && (finished ==> !r.present) && OnlyHanded(l, m, r.handed) && old(r.handed) <= r.handed
    ensures Leaves(old(w.drafts), w.drafts, start.id, KeepPending(start, over).events) && (finished ==> start.id in w.drafts)
    ensures finished ==> Keeps(w.View(), KeepPending(start, over).events, m)
  {
    finished := FinishStored(r, w, replies, l, start, over);
    m := FinishGone(r, w, replies, l, KeepPending(start, over).events, over);
  }

  // The page's part of it: it is gone if it was told to release, or drained at the limit on steps.
  method FinishGone(r: Recorder.Recorder, w: CaptureWorker.Worker, replies: map<Recorder.Send, bool>, ghost l: Ledger,
                    ghost kept: seq<Event>, ghost over: seq<Event>)
      returns (ghost m: Ledger)
    requires Holds(r, w, replies, l) && (w.present ==> r.present) && over == r.retained && (r.present ==> !r.listening)
    requires Wf(kept) && (w.present != r.present ==> Ids(kept) <= Durable(w.View())) && Durable(w.View()) <= Ids(kept) + Ids(over)
    requires LeavesOutAtALimit(l, Ids(over), kept) && (l.turnedAway != {} ==> l.images || |kept| >= MAX_CAPTURE_STEPS)
    modifies r
    ensures Inv(r, w, replies, m) && OnlyHanded(l, m, r.handed) && old(r.handed) <= r.handed
    ensures !w.present ==> Keeps(w.View(), kept, m)
  {
    m := l;
    ghost var st := w.View();
    if r.present && !w.present { m := Gone(r, w, replies, l, kept); }
    if !w.present { KeepsAll(st, l, m, kept, over); }
  }

  // The worker's part of it.
  method FinishStored(r: Recorder.Recorder, w: CaptureWorker.Worker, replies: map<Recorder.Send, bool>, ghost l: Ledger,
                      start: Session, over: seq<Event>)
      returns (finished: bool)
    requires Inv(r, w, replies, l) && over == r.retained && (start.limit == Images ==> l.images)
    requires w.Base(start) && |AppendAll(start.events, over)| <= MAX_RECOVERY_EVENTS
    modifies w
    ensures Holds(r, w, replies, l) && (w.present ==> r.present) && (finished ==> !w.present)
    ensures Leaves(old(w.drafts), w.drafts, start.id, KeepPending(start, over).events) && (finished ==> start.id in w.drafts)
    ensures var kept := KeepPending(start, over).events;
      && Wf(kept) && (w.present != r.present ==> Ids(kept) <= Durable(w.View())) && Durable(w.View()) <= Ids(kept) + Ids(over)
      && LeavesOutAtALimit(l, Ids(over), kept) && (l.turnedAway != {} ==> l.images || |kept| >= MAX_CAPTURE_STEPS)
  {
    RoomToFinish(start, over);
    ghost var before := Now(r, w, l);
    finished := w.FinishWith(start, over, Ids(AppendAll(start.events, over)));
    DraftedIs(old(w.drafts), w.drafts, start.id, KeepPending(start, over).events);
    StoredByFinish(l, before, w.View(), start, over);
    assert Now(r, w, l) == before.(stores := w.View());
  }

  lemma {:induction false} StoredByFinish(l: Ledger, before: State, st: Stores, start: Session, over: seq<Event>)
    requires Sound(before) && Limited(l, before.stores) && Of(st, l.session) && Marks(before.stores, st, l.images)
    requires Wf(start.events) && Identified(over) && |AppendAll(start.events, over)| <= MAX_RECOVERY_EVENTS
    requires Known(before.stores) <= Ids(start.events) && Settled(before.stores, st, Ids(AppendAll(start.events, over)))
    requires start.limit == Images ==> l.images
    ensures Sound(before.(stores := st)) && Limited(l, st)
    ensures var kept := KeepPending(start, over).events;
      && Durable(st) <= Ids(kept) + Ids(over)
      && LeavesOutAtALimit(l, Ids(over), kept) && (l.turnedAway != {} ==> l.images || |kept| >= MAX_CAPTURE_STEPS)
  {
    RoomToFinish(start, over);
    LimitLeavesOut(l, start, over);
    if AtStepLimit(before.stores) { KeepsAsMany(before.stores, start, over); }
    StaysSmall(st, AppendAll(start.events, over));
    StoresGoOn(before, before.(stores := st));
    LimitsGoOn(l, before.stores, st);
  }

  // The finished session's events are all that is stored and was not turned away.
  ghost predicate Keeps(st: Stores, kept: seq<Event>, m: Ledger) {
    Wf(kept) && Durable(st) <= Ids(kept) + m.turnedAway && (m.turnedAway != {} ==> m.images || |kept| >= MAX_CAPTURE_STEPS)
  }

  lemma KeepsAll(st: Stores, l: Ledger, m: Ledger, kept: seq<Event>, over: seq<Event>)
    requires Wf(kept) && Durable(st) <= Ids(kept) + Ids(over) && LeavesOutAtALimit(l, Ids(over), kept)
    requires l.turnedAway != {} ==> l.images || |kept| >= MAX_CAPTURE_STEPS
    requires m == l.(turnedAway := l.turnedAway + (Ids(over) - Ids(kept)))
    ensures Keeps(st, kept, m)
  {
  }

  method FinishRetained(r: Recorder.Recorder, w: CaptureWorker.Worker, replies: map<Recorder.Send, bool>, ghost l: Ledger, start: Session)
      returns (finished: bool, ghost m: Ledger, ghost kept: seq<Event>)
    requires Inv(r, w, replies, l) && w.Base(start) && |start.events| <= MAX_RECOVERY_EVENTS && (start.limit == Images ==> l.images)
    modifies r, w
    ensures Inv(r, w, replies, m) && (finished ==> !r.present) && OnlyHanded(l, m, r.handed) && old(r.handed) <= r.handed
    ensures Leaves(old(w.drafts), w.drafts, start.id, kept) && (finished ==> start.id in w.drafts && Keeps(w.View(), kept, m))
  {
    finished, m, kept := false, l, [];
    PageGoesOn(r, w, replies, l);
    var confirmed: bool := *;
    if confirmed {
      var over := Ask(r, w, replies, l);
      PageGoesOn(r, w, replies, l);
      if |AppendAll(start.events, over)| <= MAX_RECOVERY_EVENTS {
        kept := KeepPending(start, over).events;
        finished, m := FinishAsked(r, w, replies, l, start, over);
      }
    } else {
      FinishEarly(r, w, replies, l, start);
    }
  }

  method FinishCounted(r: Recorder.Recorder, w: CaptureWorker.Worker, replies: map<Recorder.Send, bool>, ghost l: Ledger,
                       base: Session, images: nat)
      returns (finished: bool, ghost m: Ledger, ghost kept: seq<Event>)
    requires Inv(r, w, replies, l) && w.Base(base) && Known(w.View()) == Ids(base.events) && |base.events| <= MAX_RECOVERY_EVENTS
    requires (base.limit == Images ==> l.images) && (CaptureWorker.Reached(Some(images)) ==> l.images)
    modifies r, w
    ensures Inv(r, w, replies, m) && (finished ==> !r.present) && OnlyHanded(l, m, r.handed) && old(r.handed) <= r.handed
    ensures Leaves(old(w.drafts), w.drafts, base.id, kept) && (finished ==> base.id in w.drafts && Keeps(w.View(), kept, m))
  {
    ghost var n;
    var start;
    start, n := FinishMarked(r, w, replies, l, base, images);
    ghost var handed := r.handed;
    if start.Some? {
      finished, m, kept := FinishRetained(r, w, replies, n, start.value);
      OnlyHandedTwice(l, n, m, handed, r.handed);
    } else {
      finished, m, kept := false, n, [];
    }
  }

  // Each of these actions is a step of the draft, once.
  ghost predicate Complete(d: Draft, ids: set<string>) { forall id | id in ids :: ExactlyOnce(Actions(d), id) }

  // A finish. When it ends the draft that was there is kept; otherwise every action is a step of the new one
  // exactly once, unless it was turned away at a limit or lost with its page.
  method Finish(r: Recorder.Recorder, w: CaptureWorker.Worker, replies: map<Recorder.Send, bool>, ghost l: Ledger, images: Option<nat>)
      returns (finished: bool, ghost m: Ledger)
    requires Inv(r, w, replies, l) && (CaptureWorker.Reached(images) ==> l.images)
    modifies r, w
    ensures (finished || Inv(r, w, replies, m)) && (!finished || (r.Valid() && w.Valid()))
    ensures OnlyHanded(l, m, r.handed) && old(r.handed) <= r.handed
    ensures finished ==> l.session in w.drafts
    ensures l.session in old(w.drafts) ==> l.session in w.drafts && w.drafts[l.session] == old(w.drafts)[l.session]
    ensures finished && l.session !in old(w.drafts) ==>
      && Complete(w.drafts[l.session], r.latest.Keys + m.past - m.turnedAway - m.lost)
      && (m.turnedAway != {} ==> m.images || |w.drafts[l.session].steps| >= MAX_CAPTURE_STEPS)
  {
    var id;
    ghost var kept;
    finished, id, m, kept := FinishBegun(r, w, replies, l, images);
    if finished {
      EverythingKept(r, w, replies, m, kept);
      w.Clear(id);
    }
  }

  method FinishBegun(r: Recorder.Recorder, w: CaptureWorker.Worker, replies: map<Recorder.Send, bool>, ghost l: Ledger, images: Option<nat>)
      returns (finished: bool, id: string, ghost m: Ledger, ghost kept: seq<Event>)
    requires Inv(r, w, replies, l) && (CaptureWorker.Reached(images) ==> l.images)
    modifies r, w
    ensures Inv(r, w, replies, m) && (finished ==> !r.present) && OnlyHanded(l, m, r.handed) && old(r.handed) <= r.handed
    ensures Leaves(old(w.drafts), w.drafts, l.session, kept) && (finished ==> l.session in w.drafts && Keeps(w.View(), kept, m))
  {
    var base := Look(r, w, replies, l);
    id := base.value.id;
    var ready: bool := *;
    if w.Finishable(base) && ready && images.Some? {
      finished, m, kept := FinishCounted(r, w, replies, l, base.value, images.value);
    } else {
      finished, m, kept := false, l, [];
      if w.Finishable(base) { FinishEarly(r, w, replies, l, base.value); }
    }
  }

  lemma EverythingKept(r: Recorder.Recorder, w: CaptureWorker.Worker, replies: map<Recorder.Send, bool>, m: Ledger, kept: seq<Event>)
    requires Inv(r, w, replies, m) && !r.present && Keeps(w.View(), kept, m)
    ensures forall id | id in r.latest.Keys + m.past - m.turnedAway - m.lost :: ExactlyOnce(kept, id)
  {
    forall id | id in r.latest.Keys + m.past - m.turnedAway - m.lost ensures ExactlyOnce(kept, id) {
      if id in r.latest { NothingLost(r, w, replies, m, id); }
      OnceIn(kept, id);
    }
  }

  // ---------- leaving the page ----------

  // What the page alone holds.
  ghost function Held(r: Recorder.Recorder): set<string>
    reads r
  {
    Ids(r.retained) + r.tracked.Keys + (if r.pendingNavigation.Some? then {r.pendingNavigation.value.id} else {})
  }

  // The page is left: what it alone held, and no store has, is lost. Another recorder may come in its place.
  method Leave(r: Recorder.Recorder, w: CaptureWorker.Worker, replies: map<Recorder.Send, bool>, ghost l: Ledger)
      returns (s: Recorder.Recorder, ghost m: Ledger)
    requires Inv(r, w, replies, l) && r.present
    modifies w`held, w`present
    ensures fresh(s) && Inv(s, w, map[], m)
    ensures m == l.(past := l.past + r.latest.Keys, lost := l.lost + (Held(r) - Durable(w.View())))
  {
    m := l.(past := l.past + r.latest.Keys, lost := l.lost + (Held(r) - Durable(w.View())));
    AllPast(r, w, replies, l, m.lost);
    ghost var before := Now(r, w, l);
    var injected: bool := *;
    s := NewRecorder(w, injected);
    RecorderReplaced(before, Now(s, w, m));
  }

  // Another recorder starts with nothing: what the old one recorded is past, and what it retained is excused.
  lemma RecorderReplaced(a: State, b: State)
    requires Sound(a) && b.stores == a.stores && b.retained == {} && b.owed <= a.owed && a.excused <= b.excused
    requires a.retained + b.past <= Durable(a.stores) + b.excused
    ensures Sound(b)
  {
  }

  lemma AllPast(r: Recorder.Recorder, w: CaptureWorker.Worker, replies: map<Recorder.Send, bool>, l: Ledger, lost: set<string>)
    requires Holds(r, w, replies, l) && l.lost <= lost && Held(r) <= Durable(w.View()) + lost
    ensures l.past + r.latest.Keys <= Durable(w.View()) + l.turnedAway + lost
  {
    forall id | id in r.latest ensures id in Durable(w.View()) + l.turnedAway + lost { NothingLost(r, w, replies, l, id); }
  }

  method NewRecorder(w: CaptureWorker.Worker, injected: bool) returns (s: Recorder.Recorder)
    requires w.Valid()
    modifies w`held, w`present
    ensures fresh(s) && s.Valid() && s.latest == map[] && s.accepted == {} && s.handed == {} && s.retained == []
    ensures w.Valid() && w.View() == old(w.View()) && w.present == s.present == s.listening == injected
  {
    var recorderId: string := *;
    if injected { s := new Recorder.Recorder(recorderId); } else { s := new Recorder.Recorder.Absent(recorderId); }
    w.held, w.present := [], injected;
  }

  // ---------- whole runs ----------

  // At every moment each action is secured, or the recorder still has it; and nothing was turned away but at a limit.
  lemma NothingLost(r: Recorder.Recorder, w: CaptureWorker.Worker, replies: map<Recorder.Send, bool>, l: Ledger, id: string)
    requires Holds(r, w, replies, l) && id in r.latest
    ensures id in Secured(Now(r, w, l)) || (r.listening && id in Held(r))
    ensures !r.present ==> id in Durable(w.View()) + l.turnedAway + l.lost
    ensures l.turnedAway == {} || l.images || |Durable(w.View())| >= MAX_CAPTURE_STEPS
  {
    assert r.latest[id].id == id;
    assert Recorder.Safe(id, r.latest, r.accepted, r.handed) || id in r.tracked
      || (r.pendingNavigation.Some? && r.pendingNavigation.value.id == id);
    if l.turnedAway != {} && !l.images { StepLimitIs(w.View()); }
  }

  ghost predicate EachOnce(st: Stores, ids: set<string>) {
    var r := Rebuild(Stores(st.session, st.journal, None, None));
    r.Some? && forall id | id in ids :: ExactlyOnce(r.value.events, id)
  }

  // What is stored is in the session rebuilt from the two stores exactly once.
  lemma StoredOnce(st: Stores, sessionId: string, ids: set<string>)
    requires Of(st, sessionId) && ids <= Durable(st)
    ensures EachOnce(st, ids)
  {
    var r := Rebuild(Stores(st.session, st.journal, None, None));
    RebuildIs(Stores(st.session, st.journal, None, None));
    forall id | id in ids ensures ExactlyOnce(r.value.events, id) { OnceIn(r.value.events, id); }
  }

  // A new recorder is in the page; what the old one recorded is past.
  method Renew(r: Recorder.Recorder, w: CaptureWorker.Worker, replies: map<Recorder.Send, bool>, ghost l: Ledger)
      returns (s: Recorder.Recorder, ghost m: Ledger)
    requires Holds(r, w, replies, l) && !r.present && w.present
    modifies w`held, w`present
    ensures fresh(s) && Inv(s, w, map[], m) && m == l.(past := l.past + r.latest.Keys)
  {
    forall id | id in r.latest ensures id in Durable(w.View()) + l.turnedAway + l.lost { NothingLost(r, w, replies, l, id); }
    ghost var before := Now(r, w, l);
    m := l.(past := l.past + r.latest.Keys);
    s := NewRecorder(w, true);
    RecorderReplaced(before, Now(s, w, m));
  }

  // What one step does to the ledger: only a recorder that goes adds to the past, only a page that is left loses
  // anything, and only a count that meets the limit sets its mark.
  ghost predicate StepsOn(l: Ledger, m: Ledger, gone: set<string>, handed: set<string>, images: Option<nat>, stays: bool) {
    && m.session == l.session && m.past == l.past + gone && m.images == (l.images || CaptureWorker.Reached(images))
    && m.turnedAway <= l.turnedAway + handed && (stays ==> m.lost == l.lost)
  }

  ghost predicate Ended(drafts: Drafts, m: Ledger, ids: set<string>) {
    && m.session in drafts && Complete(drafts[m.session], ids - m.turnedAway - m.lost)
    && (m.turnedAway != {} ==> m.images || |drafts[m.session].steps| >= MAX_CAPTURE_STEPS)
  }

  // One thing that happens: in the page, between page and worker, or in the worker.
  method Step(r: Recorder.Recorder, w: CaptureWorker.Worker, replies: map<Recorder.Send, bool>, ghost l: Ledger,
              images: Option<nat>, stays: bool)
      returns (s: Recorder.Recorder, after: map<Recorder.Send, bool>, finished: bool, ghost m: Ledger)
    requires Inv(r, w, replies, l)
    modifies r, w
    ensures (finished || Inv(s, w, after, m)) && (!finished || (s.Valid() && w.Valid())) && (s == r || (fresh(s) && !finished))
    ensures StepsOn(l, m, if s == r then {} else r.latest.Keys, r.handed, images, stays) && old(r.handed) <= r.handed
    ensures m.lost <= l.lost + (if s != r && r.present then Held(r) else {})
    ensures finished && l.session !in old(w.drafts) ==> Ended(w.drafts, m, r.latest.Keys + m.past)
  {
    var kind: nat, yes: bool := *, *;
    ghost var n := l.(images := l.images || CaptureWorker.Reached(images));
    s, after, finished, m := r, replies, false, n;
    if kind == 0 {
      after, m := MessageStep(r, w, replies, n, images);
    } else if kind == 1 {
      m := OtherRecorded(r, w, replies, n, images);
    } else if kind == 2 {
      var paused;
      paused, m := Pause(r, w, replies, n, images);
    } else if kind == 3 {
      s, after, m := ResumeStep(r, w, replies, n, yes);
    } else if kind == 4 {
      finished, m := Finish(r, w, replies, n, images);
    } else if kind == 5 {
      Restarted(r, w, replies, n);
    } else if kind == 6 && !stays && r.present {
      s, m := Leave(r, w, replies, n);
      after := map[];
    } else {
      PageGoesOn(r, w, replies, n);
    }
  }

  // A message of the page is handled; a second time, if it is delivered twice.
  method MessageStep(r: Recorder.Recorder, w: CaptureWorker.Worker, replies: map<Recorder.Send, bool>, ghost l: Ledger, images: Option<nat>)
      returns (after: map<Recorder.Send, bool>, ghost m: Ledger)
    requires Inv(r, w, replies, l) && (CaptureWorker.Reached(images) ==> l.images)
    modifies r, w
    ensures Inv(r, w, after, m) && OnlyHanded(l, m.(acknowledged := l.acknowledged), r.handed) && w.drafts == old(w.drafts)
    ensures old(r.handed) <= r.handed
  {
    after, m := replies, l;
    if r.sends != {} {
      var s :| s in r.sends;
      var accepted;
      accepted, m := Deliver(r, w, replies, l, s, images);
      after := replies[s := accepted];
    }
  }

  method OtherRecorded(r: Recorder.Recorder, w: CaptureWorker.Worker, replies: map<Recorder.Send, bool>, ghost l: Ledger, images: Option<nat>)
      returns (ghost m: Ledger)
    requires Inv(r, w, replies, l) && (CaptureWorker.Reached(images) ==> l.images)
    modifies r, w
    ensures Inv(r, w, replies, m) && OnlyHanded(l, m, r.handed) && w.drafts == old(w.drafts) && old(r.handed) <= r.handed
  {
    var e: Event := *;
    m := l;
    if e.id != "" {
      var accepted;
      accepted, m := Record(r, w, replies, l, e, images);
    }
  }

  method ResumeStep(r: Recorder.Recorder, w: CaptureWorker.Worker, replies: map<Recorder.Send, bool>, ghost l: Ledger, sameTab: bool)
      returns (s: Recorder.Recorder, after: map<Recorder.Send, bool>, ghost m: Ledger)
    requires Inv(r, w, replies, l)
    modifies r, w
    ensures Inv(s, w, after, m) && (s == r || fresh(s)) && w.drafts == old(w.drafts)
    ensures OnlyHanded(l, m.(past := l.past), r.handed) && old(r.handed) <= r.handed
    ensures m.past == if s == r then l.past else l.past + r.latest.Keys
  {
    var resumed;
    ghost var n;
    resumed, n := Resume(r, w, replies, l, sameTab);
    s, after, m := r, replies, n;
    if resumed {
      s, m := Renew(r, w, replies, n);
      after := map[];
    }
  }

  method Restarted(r: Recorder.Recorder, w: CaptureWorker.Worker, replies: map<Recorder.Send, bool>, ghost l: Ledger)
    requires Inv(r, w, replies, l)
    modifies w`fallback, w`marker
    ensures Inv(r, w, replies, l)
  {
    w.Restart();
    WorkerSettled(r, w, l, old(Now(r, w, l)));
  }

  // Every action of these recorders is in the session rebuilt from the two stores exactly once, unless excused.
  ghost predicate AllStored(gone: seq<Recorder.Recorder>, st: Stores, m: Ledger)
    reads gone
  {
    forall g | g in gone :: EachOnce(st, g.latest.Keys - m.turnedAway - m.lost)
  }

  // Whatever was turned away had been handed over by a recorder, and whatever is lost was held by one whose page
  // was left.
  ghost predicate Attributed(gone: seq<Recorder.Recorder>, r: Recorder.Recorder, m: Ledger)
    reads gone, r
  {
    && (forall id | id in m.turnedAway :: exists g | g in gone + [r] :: id in g.handed)
    && (forall id | id in m.lost :: exists g | g in gone :: g.present && id in Held(g))
  }

  // given: what the recorders that are gone have handed over; dropped: what their pages took with them.
  ghost predicate Sources(gone: seq<Recorder.Recorder>, given: set<string>, dropped: set<string>)
    reads gone
  {
    && (forall id | id in given :: exists g | g in gone :: id in g.handed)
    && (forall id | id in dropped :: exists g | g in gone :: g.present && id in Held(g))
  }

  ghost predicate Traced(gone: seq<Recorder.Recorder>, r: Recorder.Recorder, m: Ledger, given: set<string>, dropped: set<string>)
    reads gone, r
  {
    && (forall g | g in gone :: g != r && g.latest.Keys <= m.past)
    && Sources(gone, given, dropped) && m.turnedAway <= given + r.handed && m.lost <= dropped
  }

  lemma TracedIs(gone: seq<Recorder.Recorder>, r: Recorder.Recorder, m: Ledger, given: set<string>, dropped: set<string>)
    requires Traced(gone, r, m, given, dropped)
    ensures Attributed(gone, r, m)
  {
    assert r in gone + [r];
    forall id | id in m.turnedAway ensures exists g | g in gone + [r] :: id in g.handed {
      if id in given {
        var g :| g in gone && id in g.handed;
        assert g in gone + [r];
      }
    }
  }

  lemma SourcesGrow(gone: seq<Recorder.Recorder>, r: Recorder.Recorder, given: set<string>, dropped: set<string>, more: set<string>)
    requires Sources(gone, given, dropped) && more <= if r.present then Held(r) else {}
    ensures Sources(gone + [r], given + r.handed, dropped + more)
  {
    assert r in gone + [r] && forall g | g in gone :: g in gone + [r];
    forall id | id in given + r.handed ensures exists g | g in gone + [r] :: id in g.handed {
      if id in given { var g :| g in gone && id in g.handed; }
    }
    forall id | id in dropped + more ensures exists g | g in gone + [r] :: g.present && id in Held(g) {
      if id in dropped { var g :| g in gone && g.present && id in Held(g); }
    }
  }

  // A step, and the recorders that are gone after it.
  method Traces(r: Recorder.Recorder, w: CaptureWorker.Worker, replies: map<Recorder.Send, bool>, ghost l: Ledger,
                images: Option<nat>, stays: bool, ghost gone: seq<Recorder.Recorder>, ghost given: set<string>, ghost dropped: set<string>)
      returns (s: Recorder.Recorder, after: map<Recorder.Send, bool>, finished: bool, ghost m: Ledger,
               ghost past: seq<Recorder.Recorder>, ghost handed: set<string>, ghost lost: set<string>)
    requires Inv(r, w, replies, l) && Traced(gone, r, l, given, dropped)
    modifies r, w
    ensures (finished || Inv(s, w, after, m)) && (!finished || (s.Valid() && w.Valid())) && Traced(past, s, m, handed, lost)
    ensures if s == r then past == gone else fresh(s) && past == gone + [r]
    ensures m.session == l.session && m.images == (l.images || CaptureWorker.Reached(images)) && (stays ==> m.lost == l.lost)
    ensures finished && l.session !in old(w.drafts) ==> Ended(w.drafts, m, s.latest.Keys + m.past)
  {
    s, after, finished, m := Step(r, w, replies, l, images, stays);
    past, handed, lost := gone, given, dropped;
    if s != r { past, handed, lost := gone + [r], given + r.handed, dropped + (m.lost - dropped); }
    assert Sources(gone, given, dropped) == true;
    TracedOn(gone, r, s, m, given, dropped);
  }

  lemma TracedOn(gone: seq<Recorder.Recorder>, r: Recorder.Recorder, s: Recorder.Recorder, m: Ledger, given: set<string>, dropped: set<string>)
    requires Sources(gone, given, dropped) && forall g | g in gone :: g != s && g.latest.Keys <= m.past
    requires m.turnedAway <= given + r.handed && (s != r ==> r.latest.Keys <= m.past)
    requires m.lost <= dropped + (if s != r && r.present then Held(r) else {})
    ensures if s == r then Traced(gone, s, m, given, dropped)
            else Traced(gone + [r], s, m, given + r.handed, dropped + (m.lost - dropped))
  {
    if s != r { SourcesGrow(gone, r, given, dropped, m.lost - dropped); }
  }

  // A recording from the injection of its first recorder on, through any number of steps and recorders, the
  // last of `gone` being the one before `r`. counts: the image counts that are read; stays: no page is left;
  // single: no finish fails after it wrote a draft.
  method Recording(first: Recorder.Recorder, w: CaptureWorker.Worker, counts: nat -> Option<nat>, stays: bool, single: bool)
      returns (r: Recorder.Recorder, finished: bool, ghost gone: seq<Recorder.Recorder>, ghost m: Ledger)
    requires first.Valid() && first.listening && first.present && first.latest == map[] && first.sends == {}
    requires first.accepted == {} && first.handed == {}
    requires w.Valid() && Small(w.View()) && w.fallback.None? && w.present
    modifies first, w
    ensures r.Valid() && w.Valid() && (gone + [r])[0] == first
    ensures m.session == old(w.session.value.id) && Attributed(gone, r, m) && (stays ==> m.lost == {})
    ensures m.images ==> old(ImageLimit(w.View())) || exists k :: CaptureWorker.Reached(counts(k))
    ensures !finished ==> m.turnedAway == {} || m.images || |Durable(w.View())| >= MAX_CAPTURE_STEPS
    ensures !finished ==> AllStored(gone, w.View(), m) && (!r.present ==> EachOnce(w.View(), r.latest.Keys - m.turnedAway - m.lost))
    ensures !finished ==> forall id | id in r.latest :: id in Secured(Now(r, w, m)) || (r.listening && id in Held(r))
    ensures finished && single && m.session !in old(w.drafts) ==> forall g | g in gone + [r] :: Ended(w.drafts, m, g.latest.Keys)
  {
    ghost var l := Ledger(w.session.value.id, {}, {}, {}, {}, ImageLimit(w.View()));
    Begins(first, w, l);
    var replies;
    ghost var given, dropped;
    r, replies, finished, gone, m, given, dropped := Run(first, w, l, counts, stays, single);
    TracedIs(gone, r, m, given, dropped);
    if finished {
    } else {
      Stored(r, w, replies, m, gone);
    }
  }

  lemma Begins(first: Recorder.Recorder, w: CaptureWorker.Worker, l: Ledger)
    requires first.Valid() && first.listening && first.present && first.accepted == {} && first.handed == {}
    requires w.Valid() && Small(w.View()) && w.fallback.None? && w.present
    requires l == Ledger(w.session.value.id, {}, {}, {}, {}, ImageLimit(w.View()))
    ensures Inv(first, w, map[], l)
  {
  }

  // The run itself, and what each step keeps.
  method Run(first: Recorder.Recorder, w: CaptureWorker.Worker, ghost l: Ledger, counts: nat -> Option<nat>, stays: bool, single: bool)
      returns (r: Recorder.Recorder, replies: map<Recorder.Send, bool>, finished: bool, ghost gone: seq<Recorder.Recorder>, ghost m: Ledger,
               ghost given: set<string>, ghost dropped: set<string>)
    requires Inv(first, w, map[], l) && l.past == {} && l.turnedAway == {} && l.lost == {}
    modifies first, w
    ensures (finished || Inv(r, w, replies, m)) && (!finished || (r.Valid() && w.Valid()))
    ensures Traced(gone, r, m, given, dropped) && (gone + [r])[0] == first
    ensures m.session == l.session && (stays ==> m.lost == {})
    ensures m.images ==> l.images || exists k :: CaptureWorker.Reached(counts(k))
    ensures finished && single && m.session !in old(w.drafts) ==> Ended(w.drafts, m, r.latest.Keys + m.past)
  {
    r, replies, finished := first, map[], false;
    gone, m, given, dropped := [], l, {}, {};
    var steps: int, id := *, w.session.value.id;
    var k, drafted := 0, id in w.drafts;
    while k < steps && !finished && (!single || drafted || id !in w.drafts)
      invariant 0 <= k && (finished || Inv(r, w, replies, m)) && (!finished || (r.Valid() && w.Valid()))
      invariant (r == first || fresh(r)) && (gone + [r])[0] == first
      invariant Traced(gone, r, m, given, dropped)
      invariant m.session == id && (stays ==> m.lost == {})
      invariant m.images ==> l.images || exists i :: CaptureWorker.Reached(counts(i))
      invariant finished && single && !drafted ==> Ended(w.drafts, m, r.latest.Keys + m.past)
    {
      r, replies, finished, m, gone, given, dropped := Traces(r, w, replies, m, counts(k), stays, gone, given, dropped);
      k := k + 1;
    }
  }

  // What holds while the recording goes on.
  lemma Stored(r: Recorder.Recorder, w: CaptureWorker.Worker, replies: map<Recorder.Send, bool>, m: Ledger, gone: seq<Recorder.Recorder>)
    requires Inv(r, w, replies, m) && forall g | g in gone :: g.latest.Keys <= m.past
    ensures m.turnedAway == {} || m.images || |Durable(w.View())| >= MAX_CAPTURE_STEPS
    ensures AllStored(gone, w.View(), m) && (!r.present ==> EachOnce(w.View(), r.latest.Keys - m.turnedAway - m.lost))
    ensures forall id | id in r.latest :: id in Secured(Now(r, w, m)) || (r.listening && id in Held(r))
  {
    if m.turnedAway != {} && !m.images { StepLimitIs(w.View()); }
    forall g | g in gone ensures EachOnce(w.View(), g.latest.Keys - m.turnedAway - m.lost) {
      StoredOnce(w.View(), m.session, g.latest.Keys - m.turnedAway - m.lost);
    }
    forall id | id in r.latest
      ensures id in Secured(Now(r, w, m)) || (r.listening && id in Held(r))
      ensures !r.present ==> id in Durable(w.View()) + m.turnedAway + m.lost
    {
      NothingLost(r, w, replies, m, id);
    }
    if !r.present { StoredOnce(w.View(), m.session, r.latest.Keys - m.turnedAway - m.lost); }
  }
}
