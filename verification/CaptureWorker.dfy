/**
 Recording, pausing, resuming and failing to finish, with every pattern of storage and recorder failures
 (apps/extension/background/service-worker.js:135-145,169-208,364-440,483-508,522-653,866-876).
 */
module CaptureWorker {
  import opened Basics
  import opened CaptureEvents
  import opened CaptureStores
  import opened StoreWrites
  import opened CaptureDraft

  // The session a pause works on: an image count at the limit marks it.
  function PauseBase(s: Session, images: nat): Session {
    s.(phase := Paused, limit := if images >= MAX_CLAIM_ASSETS then Images else s.limit)
  }

  // The session a finish works on: likewise, unless it is marked already.
  function FinishBase(s: Session, images: nat): Session {
    if images >= MAX_CLAIM_ASSETS && s.limit != Images then LimitOf(s, Images) else s
  }

  // The image count that was read meets the limit; the next event meets it, or the one on steps.
  predicate Reached(images: Option<nat>) { images.Some? && images.value >= MAX_CLAIM_ASSETS }

  predicate LimitMet(s: Session, images: Option<nat>) { Reached(images) || |s.events| >= MAX_CAPTURE_STEPS }

  // At the limit on images a pause and a finish keep what is recorded and nothing more; before it they only change
  // the phase, or nothing.
  lemma AtTheImageLimit(s: Session, images: nat, over: seq<Event>)
    ensures var p := PauseBase(s, images); var f := FinishBase(s, images);
            && p.phase == Paused && p.id == f.id == s.id && p.events == f.events == s.events
            && (if images >= MAX_CLAIM_ASSETS then
                  && p.limit == f.limit == Images && KeepPending(p, over).events == KeepPending(f, over).events == s.events
                  && (s.limit != Images ==> f.phase == Paused)
                else p.limit == s.limit && f == s)
  {
  }

  // What the failure branch of a resume saves.
  function Recovered(s: Session, recovered: Option<seq<Event>>): Session {
    if recovered.Some? then KeepPending(s, recovered.value) else s
  }

  // The page may record an event: a known one, or a new one within both limits.
  predicate Accepts(base: Option<Session>, e: Event, images: Option<nat>, sameTab: bool) {
    && base.Some? && base.value.phase == Recording && base.value.limit == NoLimit && sameTab
    && ((exists d | d in base.value.events :: d.id == e.id)
        || (images.Some? && images.value < MAX_CLAIM_ASSETS && |base.value.events| < MAX_CAPTURE_STEPS))
  }

  class Worker {
    var session: Option<Session>    // chrome.storage.session
    var journal: Option<Journal>    // chrome.storage.local
    var fallback: Option<Fallback>  // this service worker's memory
    var marker: Option<string>      // the session whose recorder could not be injected again
    var drafts: Drafts              // the draft store
    var held: seq<Event>            // what the recorder in the page holds for a retain or a drain
    var present: bool               // the recorder is still in the page
    var faultless: bool             // no call fails
    ghost var told: bool            // it has been told to release

    constructor ()
      ensures Valid() && session.None? && journal.None? && !present
    {
      session, journal, fallback, marker := None, None, None, None;
      drafts, held, present, faultless, told := map[], [], false, false, false;
    }

    function View(): Stores reads this`session, this`journal, this`fallback, this`marker { Stores(session, journal, fallback, marker) }

    ghost predicate Valid() reads this { StoresWf(View()) && Identified(held) }

    function Offered(): seq<Event> reads this { if present then held else [] }

    // What an operation starts from: the session rebuilt from all stores.
    ghost predicate Base(s: Session) reads this {
      Valid() && Of(View(), s.id) && Wf(s.events) && Known(View()) <= Ids(s.events)
    }

    // What is read back.
    predicate At(id: string, phase: Phase, limit: Limit) reads this {
      var r := Rebuild(View());
      r.Some? && r.value.id == id && r.value.phase == phase && r.value.limit == limit
    }

    // The service worker was stopped and started again: its memory is gone.
    method Restart()
      requires Valid()
      modifies this`fallback, this`marker
      ensures Valid() && View() == old(View()).(fallback := None, marker := None)
    {
      fallback, marker := None, None;
    }

    // ---------- one store, one recorder command ----------

    // chrome.storage.session.set either takes effect or not, and either way may report a failure.
    method SetSession(s: Session) returns (ok: bool)
      requires Valid() && Wf(s.events)
      modifies this`session, this`fallback, this`marker
      ensures Valid() && SessionWritten(old(View()), View(), s, ok) && (faultless ==> ok)
      ensures marker == if ok && s.phase != ReinjectionFailed && old(marker) == Some(s.id) then None else old(marker)
    {
      var takesEffect: bool := *;
      ok := *;
      ok := ok || faultless;
      if ok || takesEffect { session := Some(s); }
      if ok {
        if fallback.Some? && fallback.value.id == s.id { fallback := None; }
        if s.phase != ReinjectionFailed && marker == Some(s.id) { marker := None; }
      }
    }

    method PersistJournal(id: string, events: seq<Event>, phase: Option<Phase>, limit: Limit) returns (ok: bool)
      requires Valid() && Identified(events)
      modifies this`journal, this`marker
      ensures Valid() && JournalWritten(old(View()), View(), NextJournal(old(journal), id, events, phase, limit), ok) && (faultless ==> ok)
      ensures marker == if ok && phase.Some? && phase.value != ReinjectionFailed && old(marker) == Some(id) then None else old(marker)
    {
      JournalHolds(journal, id, events, phase, limit, {});
      var takesEffect: bool := *;
      ok := *;
      ok := ok || faultless;
      if ok || takesEffect { journal := Some(NextJournal(journal, id, events, phase, limit)); }
      if ok && phase.Some? && phase.value != ReinjectionFailed && marker == Some(id) { marker := None; }
    }

    // Both stores are written with one session; it is saved when either write is confirmed.
    method SaveBoth(s: Session, phase: Phase, limit: Limit) returns (saved: bool)
      requires Valid() && Wf(s.events) && session.Some? && session.value.id == s.id
      modifies this`session, this`journal, this`fallback, this`marker
      ensures Valid() && Saved(old(View()), View(), s, phase, limit, saved)
      ensures session.Some? && session.value.id == s.id
      ensures saved && phase == s.phase && phase != ReinjectionFailed ==> marker != Some(s.id)
      ensures marker == old(marker) || (marker.None? && (s.phase != ReinjectionFailed || phase != ReinjectionFailed))
      ensures faultless ==> saved && session == Some(s) && journal == Some(NextJournal(old(journal), s.id, s.events, Some(phase), limit))
    {
      var journaled := PersistJournal(s.id, s.events, Some(phase), limit);
      var stored := SetSession(s);
      saved := journaled || stored;
    }

    // Retaining keeps the events in the page; an unconfirmed one throws.
    method Retain() returns (events: Option<seq<Event>>)
      ensures (events.Some? ==> events.value == Offered()) && (faultless ==> events.Some?)
    {
      var confirmed: bool := *;
      confirmed := confirmed || faultless;
      events := if confirmed then Some(if present then held else []) else None;
    }

    // Once told, the recorder may be gone whether or not it confirms.
    method Release() returns (ok: bool)
      requires Valid()
      modifies this`held, this`present, this`told
      ensures Valid() && told && View() == old(View())
      ensures (!present && held == []) || (!ok && present == old(present) && held == old(held))
      ensures faultless ==> ok
    {
      told := true;
      ok := *;
      ok := ok || faultless;
      var gone: bool := *;
      if ok || gone { held, present := [], false; }
    }

    // Draining takes the events out of the page, unless the command fails.
    method Drain() returns (events: seq<Event>)
      requires Valid()
      modifies this`held, this`present
      ensures Valid() && View() == old(View())
      ensures (!present && held == [] && events == old(Offered())) || (present == old(present) && held == old(held) && events == [])
      ensures faultless ==> !present
    {
      var fails: bool := *;
      fails := fails && !faultless;
      events := if fails || !present then [] else held;
      if !fails { held, present := [], false; }
    }

    method GetSession() returns (s: Option<Session>)
      requires Valid()
      modifies this`fallback
      ensures Valid() && s == old(Rebuild(View()))
      ensures Read(s) && (session.Some? ==> s.Some? && Base(s.value) && Known(View()) == Ids(s.value.events))
      ensures Durable(View()) == old(Durable(View())) && Volatile(View()) == old(Volatile(View()))
      ensures session.Some? && s.Some? && s.value.limit == Images ==> ImageLimit(View())
      ensures View() == old(View()).(fallback := fallback)
    {
      s := Rebuild(View());
      if session.None? {
        if s.None? { fallback := None; }
        return;
      }
      KnownIs(View(), session.value.id);
      if fallback.Some? && fallback.value.id != session.value.id { fallback := None; }
    }

    // ---------- recording ----------

    // On success a store holds the limited session, and the recorder is taken out of the page.
    method MarkCaptureLimit(s: Session, limit: Limit) returns (limited: Option<Session>)
      requires Valid() && Wf(s.events) && session.Some? && session.value.id == s.id
      modifies this`session, this`journal, this`fallback, this`marker, this`held, this`present
      ensures Valid() && Saved(old(View()), View(), LimitOf(s, limit), Paused, limit, limited.Some?)
      ensures session.Some? && session.value.id == s.id
      ensures limited.Some? ==> limited.value == LimitOf(s, limit)
      ensures limited.Some? ==> limited.value == Session(s.id, Paused, limit, s.events)
      ensures faultless ==> limited.Some? && !present && (limit != NoLimit ==> At(s.id, Paused, limit))
      ensures (held == old(held) && present == old(present)) || (limited.Some? && held == [] && !present)
    {
      var l := LimitOf(s, limit);
      var saved := SaveBoth(l, Paused, limit);
      if !saved { return None; }
      var lost := Drain();
      limited := Some(l);
    }

    method AppendCaptureEvent(s: Session, e: Event) returns (next: Option<Session>)
      requires Valid() && Wf(s.events) && session.Some? && session.value.id == s.id && e.id != ""
      modifies this`session, this`journal, this`fallback, this`marker, this`held, this`present
      ensures Valid() && Appended(old(View()), View(), s, e, next) && (faultless ==> next.Some?)
      ensures session.Some? && session.value.id == s.id
      ensures (held == old(held) && present == old(present)) ||
              (|s.events| >= MAX_CAPTURE_STEPS && e.id !in Ids(s.events) && next.Some? && held == [] && !present)
    {
      Take1Is(s.events, e);
      var merged := MergeEvents(s.events, [e]);
      if |merged| == |s.events| { return Some(s); }
      if |merged| > MAX_CAPTURE_STEPS {
        next := MarkCaptureLimit(s, Steps);
        return;
      }
      var more := s.(events := merged);
      var stored := SetSession(more);
      if stored { return Some(more); }
      Spill(more, e);
      next := None;
    }

    // The event the session store would not take goes to the journal, with whatever waited in memory.
    method Spill(more: Session, e: Event)
      requires Valid() && session.Some? && session.value.id == more.id && e.id != ""
      modifies this`journal, this`fallback, this`marker
      ensures Valid() && Spilled(old(View()), View(), more, e)
    {
      var waiting := if fallback.Some? && fallback.value.id == more.id then fallback.value.events else [];
      MergeWf(waiting, [e]);
      var journaled := PersistJournal(more.id, MergeEvents(waiting, [e]), None, NoLimit);
      if journaled && fallback.Some? && fallback.value.id == more.id { fallback := None; }
    }

    // The reference to the step's image is stored with the session, whatever becomes of the image.
    method RecordStepImage(s: Session) returns (recorded: Option<Session>)
      requires Valid() && Of(View(), s.id) && InSession(View(), Ids(s.events)) && Wf(s.events)
      requires Ids(session.value.events) <= Ids(s.events)
      modifies this`session, this`fallback, this`marker
      ensures Settled(old(View()), View(), old(Known(View())))
      ensures Valid() && (recorded.Some? ==> recorded.value == s) && Marks(old(View()), View(), s.limit == Images)
      ensures faultless ==> recorded.Some?
    {
      ghost var known := Known(View());
      var capturing := SetSession(s);  // a failure is ignored
      SessionKeeps(old(View()), View(), s, capturing, known);
      ghost var between := View();
      var stored := SetSession(s);
      SessionKeeps(between, View(), s, stored, known);
      recorded := if stored then Some(s) else None;
    }

    // An event of the page is accepted only once it is stored, or was known before; nothing stored is lost.
    method RecordEventWithImage(s: Session, e: Event, images: Option<nat>) returns (recorded: Option<Session>)
      requires Base(s) && Known(View()) == Ids(s.events) && e.id != ""
      modifies this`session, this`journal, this`fallback, this`marker, this`held, this`present
      ensures Valid() && session.Some? && session.value.id == s.id
      ensures recorded.Some? && recorded.value.limit == NoLimit ==> e.id in old(Known(View())) + Durable(View())
      ensures |s.events| <= MAX_RECOVERY_EVENTS ==> Settled(old(View()), View(), Ids(Take1(s.events, e)))
      ensures e.id in Ids(s.events) ==> recorded == Some(s) && session == old(session) && journal == old(journal)
      ensures (held == old(held) && present == old(present)) ||
              (held == [] && !present && LimitMet(s, images) && (|s.events| <= MAX_RECOVERY_EVENTS ==> Ids(s.events) <= Durable(View())))
      ensures Marks(old(View()), View(), s.limit == Images || Reached(images))
      ensures recorded.Some? && recorded.value.limit == NoLimit ==>
        s.limit == NoLimit && (e.id in Ids(s.events) || (images.Some? && !LimitMet(s, images)))
      ensures faultless && s.limit == NoLimit && (e.id in Ids(s.events) || (images.Some? && !LimitMet(s, images))) ==>
        recorded.Some? && recorded.value.limit == NoLimit
    {
      Take1Is(s.events, e);
      var merged := MergeEvents(s.events, [e]);
      if |merged| == |s.events| {
        recorded := Some(s);
      } else if images.None? {
        recorded := None;
      } else if images.value >= MAX_CLAIM_ASSETS {
        recorded := MarkCaptureLimit(s, Images);
        SavedMarks(old(View()), View(), LimitOf(s, Images), Paused, Images, recorded.Some?);
        if |s.events| <= MAX_RECOVERY_EVENTS { LimitKeeps(old(View()), View(), s, Images, recorded.Some?); }
      } else {
        recorded := RecordNewEvent(s, e);
      }
    }

    method RecordNewEvent(s: Session, e: Event) returns (recorded: Option<Session>)
      requires Base(s) && Known(View()) == Ids(s.events) && e.id != "" && e.id !in Ids(s.events)
      modifies this`session, this`journal, this`fallback, this`marker, this`held, this`present
      ensures Valid() && session.Some? && session.value.id == s.id
      ensures recorded.Some? && recorded.value.limit == NoLimit ==> e.id in Durable(View())
      ensures |s.events| <= MAX_RECOVERY_EVENTS ==> Settled(old(View()), View(), Ids(Take1(s.events, e)))
      ensures (held == old(held) && present == old(present)) ||
              (&& held == [] && !present && |s.events| >= MAX_CAPTURE_STEPS
               && (|s.events| <= MAX_RECOVERY_EVENTS ==> Ids(s.events) <= Durable(View())))
      ensures Marks(old(View()), View(), s.limit == Images)
      ensures recorded.Some? && recorded.value.limit == NoLimit ==> s.limit == NoLimit && |s.events| < MAX_CAPTURE_STEPS
      ensures faultless && s.limit == NoLimit && |s.events| < MAX_CAPTURE_STEPS ==> recorded.Some? && recorded.value.limit == NoLimit
    {
      recorded := AppendCaptureEvent(s, e);
      AppendedMarks(old(View()), View(), s, e, recorded);
      if |s.events| <= MAX_RECOVERY_EVENTS { AppendedKeeps(old(View()), View(), s, e, recorded); }
      if recorded.Some? && recorded.value.limit == NoLimit { recorded := RecordStepImage(recorded.value); }
    }

    // The page's message, and whether its reply says that the event was accepted: only once it is stored, or
    // was known before. A newer version of a known action is acknowledged and changes nothing.
    method HandleCaptureEvent(e: Event, images: Option<nat>, sameTab: bool) returns (accepted: bool, ghost base: Option<Session>)
      requires Valid() && e.id != ""
      modifies this`session, this`journal, this`fallback, this`marker, this`held, this`present
      ensures Valid() && base == old(Rebuild(View()))
      ensures accepted ==>
        base.Some? && base.value.phase == Recording && sameTab && e.id in old(Known(View())) + Durable(View())
      ensures old(session).Some? && |base.value.events| <= MAX_RECOVERY_EVENTS ==>
        Settled(old(View()), View(), Ids(Take1(base.value.events, e)))
      ensures old(session).Some? && e.id in old(Known(View())) && sameTab && base.value.phase == Recording ==>
        accepted == (base.value.limit == NoLimit) && session == old(session) && journal == old(journal)
      ensures (held == old(held) && present == old(present)) ||
              (&& held == [] && !present && base.Some? && LimitMet(base.value, images)
               && (|base.value.events| <= MAX_RECOVERY_EVENTS ==> Ids(base.value.events) <= Durable(View())))
      ensures Marks(old(View()), View(), Reached(images))
      ensures accepted ==> Accepts(base, e, images, sameTab)
      ensures faultless && old(session).Some? ==> (accepted <==> Accepts(base, e, images, sameTab))
    {
      var s := GetSession();
      base := s;
      ghost var between := View();
      accepted := false;
      if s.None? || session.None? { return; }
      Take1Is(s.value.events, e);
      if s.value.phase != Recording || !sameTab { return; }
      var recorded := RecordEventWithImage(s.value, e, images);
      accepted := recorded.Some? && recorded.value.limit == NoLimit;
      assert |s.value.events| <= MAX_RECOVERY_EVENTS ==> Settled(between, View(), Ids(Take1(s.value.events, e)));
    }

    // Both stores are written with everything that is known.
    method SaveAll(s: Session, phase: Phase, limit: Limit) returns (saved: bool)
      requires Base(s)
      modifies this`session, this`journal, this`fallback, this`marker
      ensures Base(s)
      ensures |s.events| <= MAX_RECOVERY_EVENTS ==> Settled(old(View()), View(), Ids(s.events))
      ensures saved && |s.events| <= MAX_RECOVERY_EVENTS ==> Ids(s.events) <= Durable(View())
      ensures Marks(old(View()), View(), s.limit == Images || limit == Images)
      ensures Saved(old(View()), View(), s, phase, limit, saved)
      ensures saved && phase == s.phase && phase != ReinjectionFailed ==> marker != Some(s.id)
      ensures marker == old(marker) || (marker.None? && (s.phase != ReinjectionFailed || phase != ReinjectionFailed))
      ensures faultless ==> saved && session == Some(s) && journal == Some(NextJournal(old(journal), s.id, s.events, Some(phase), limit))
    {
      saved := SaveBoth(s, phase, limit);
      SavedMarks(old(View()), View(), s, phase, limit, saved);
      DistinctIds(s.events);
      SavedKeeps(old(View()), View(), s, phase, limit, saved, Ids(s.events));
    }

    // ---------- pausing ----------

    // The session as it was read, and nothing else known since.
    ghost predicate Read(s: Option<Session>) reads this {
      Valid() && (s.Some? && s.value.phase != CancelFailed ==> Base(s.value) && Known(View()) == Ids(s.value.events))
    }

    // Up to the retain: the pause is stored before the recorder is asked.
    method PauseStart(s: Option<Session>, images: Option<nat>) returns (intent: Option<Session>)
      requires Read(s)
      modifies this`session, this`journal, this`fallback, this`marker
      ensures Valid()
      ensures intent.Some? ==>
        && images.Some? && s.Some? && s.value.phase == Recording
        && intent.value == PauseBase(s.value, images.value) && Base(intent.value)
      ensures s.Some? && old(Base(s.value)) && |s.value.events| <= MAX_RECOVERY_EVENTS ==>
        Settled(old(View()), View(), old(Known(View())))
      ensures intent.Some? && |intent.value.events| <= MAX_RECOVERY_EVENTS ==> Ids(intent.value.events) <= Durable(View())
      ensures Marks(old(View()), View(), s.Some? && (s.value.limit == Images || Reached(images)))
      ensures faultless && s.Some? && s.value.phase == Recording && images.Some? ==> intent.Some?
      ensures journal == old(journal) || (journal.Some? && s.Some? && journal.value.id == s.value.id && journal.value.phase == Some(Paused))
    {
      if s.None? || s.value.phase != Recording || images.None? { return None; }
      var i := PauseBase(s.value, images.value);
      DistinctIds(i.events);
      var saved := SaveAll(i, Paused, i.limit);
      intent := if saved then Some(i) else None;
    }

    // From the retained events on: the recorder is told to release only once every event within the limits
    // is in the stored union; otherwise a second failure of both stores leaves them in the fallback.
    method PauseRest(intent: Session, pending: Option<seq<Event>>) returns (paused: bool)
      requires Base(intent) && (pending.Some? ==> Identified(pending.value))
      modifies this`session, this`journal, this`fallback, this`marker, this`held, this`present, this`told
      ensures Valid() && session.Some? && (paused ==> told && !present)
      ensures pending.None? ==> !told && View() == old(View())
      ensures pending.Some? && |intent.events| <= MAX_RECOVERY_EVENTS ==>
        && (told ==> Within(intent, pending.value) <= Durable(View()))
        && Kept(old(View()), View(), Within(intent, pending.value))
      ensures pending.Some? && !told ==> fallback == Some(Fallback(intent.id, KeepPending(intent, pending.value).events))
      ensures (held == old(held) && present == old(present)) || (told && held == [] && !present)
      ensures Marks(old(View()), View(), intent.limit == Images)
      ensures paused && intent.phase == Paused ==> PausedOr(old(journal), intent.id)
      ensures faultless && pending.Some? ==> paused
      ensures faultless && pending.Some? && intent.phase == Paused ==> Rebuild(View()).value.phase == Paused
    {
      told := false;
      if pending.None? { return false; }
      KeptBound(intent, pending.value);
      var kept := MergePendingEventsWithoutImages(intent, pending.value);
      paused := PauseKept(kept);
    }

    // The recording is read back as paused, unless a journal from before says something else.
    predicate PausedOr(before: Option<Journal>, id: string) reads this {
      && session.Some? && session.value.id == id
      && (Rebuild(View()).value.phase == Paused || (journal == before && Contradicts(journal, id, Paused)))
    }

    method PauseKept(kept: Session) returns (paused: bool)
      requires Base(kept) && !told
      modifies this`session, this`journal, this`fallback, this`marker, this`held, this`present, this`told
      ensures Valid() && session.Some? && (paused ==> told && !present)
      ensures told && |kept.events| <= MAX_RECOVERY_EVENTS ==> Ids(kept.events) <= Durable(View())
      ensures |kept.events| <= MAX_RECOVERY_EVENTS ==> Kept(old(View()), View(), Ids(kept.events))
      ensures !told ==> fallback == Some(Fallback(kept.id, kept.events))
      ensures (held == old(held) && present == old(present)) || (told && held == [] && !present)
      ensures Marks(old(View()), View(), kept.limit == Images)
      ensures paused && kept.phase == Paused ==> PausedOr(old(journal), kept.id)
      ensures faultless ==> paused
      ensures faultless && kept.phase == Paused ==> Rebuild(View()).value.phase == Paused
    {
      var saved := SaveAll(kept, Paused, kept.limit);
      if saved && kept.phase == Paused { ReadBackIff(old(View()), View(), kept, kept.limit); }
      if !saved {
        FallbackKeeps(old(View()), View(), kept.id, kept.events);
        fallback := Some(Fallback(kept.id, kept.events));
        return false;
      }
      paused := Release();
    }

    // For every pattern of failures the recorder is told to release only once each of its events within the
    // limits is in the session rebuilt from the two stores; until then it still holds them all.
    method PauseCapture(images: Option<nat>) returns (paused: bool)
      requires Valid()
      modifies this`session, this`journal, this`fallback, this`marker, this`held, this`present, this`told
      ensures Valid() && (paused ==> told && !present)
      ensures told ==>
        var base := old(Rebuild(View()));
        && images.Some? && base.Some? && base.value.phase == Recording
        && (|base.value.events| <= MAX_RECOVERY_EVENTS ==>
              Stored(View(), Within(PauseBase(base.value, images.value), old(Offered()))))
      ensures !told ==> held == old(held) && present == old(present)
      ensures paused ==> PausedOr(old(journal), old(Rebuild(View())).value.id)
      ensures faultless ==>
        (paused <==> old(Rebuild(View())).Some? && old(Rebuild(View())).value.phase == Recording && images.Some?)
      ensures faultless && paused ==> Rebuild(View()).value.phase == Paused
    {
      told := false;
      var s := GetSession();
      var intent := PauseStart(s, images);
      if intent.None? { return false; }
      var pending := Retain();
      paused := PauseRest(intent.value, pending);
      StoredIs(View(), session.value.id, Within(intent.value, old(Offered())));
    }

    // ---------- resuming ----------

    predicate Resumable(s: Option<Session>, sameTab: bool) {
      s.Some? && s.value.limit == NoLimit && s.value.phase in {Paused, ReinjectionFailed} && sameTab
    }

    // Both stores take the session, then the recorder is told to release and a new one comes into the page.
    method TryResume(resumeBase: Session) returns (resumed: bool)
      requires Base(resumeBase)
      modifies this`session, this`journal, this`fallback, this`marker, this`held, this`present, this`told
      ensures Base(resumeBase) && (resumed ==> told && present)
      ensures told ==> Ids(resumeBase.events) <= Durable(View())
      ensures |resumeBase.events| <= MAX_RECOVERY_EVENTS ==> Settled(old(View()), View(), Ids(resumeBase.events))
      ensures (held == old(held) && present == old(present)) || (told && held == [] && present == resumed)
      ensures Marks(old(View()), View(), resumeBase.limit == Images)
      ensures resumed ==> Resumed(old(journal), resumeBase)
      ensures faultless ==> resumed
    {
      told := false;
      var again := resumeBase.(phase := Recording);
      var ready := StoreResumed(again);
      if !ready { return false; }
      var released := Release();
      if !released { return false; }
      var injected: bool := *;
      if !injected && !faultless { return false; }
      held, present := [], true;
      ForgetJournal(again);
      resumed := true;
    }

    // The recording is read back as going on, with the limit it was stored with, or one its journal kept.
    predicate Resumed(before: Option<Journal>, s: Session) reads this {
      && session.Some? && session.value.id == s.id && Rebuild(View()).Some?
      && Rebuild(View()).value.id == s.id && Rebuild(View()).value.phase == Recording
      && (JournalLimit(before, s.id) == NoLimit ==> Rebuild(View()).value.limit == s.limit)
    }

    method StoreResumed(again: Session) returns (ready: bool)
      requires Base(again)
      modifies this`session, this`journal, this`fallback, this`marker
      ensures Base(again)
      ensures ready ==> InSession(View(), Ids(again.events))
      ensures |again.events| <= MAX_RECOVERY_EVENTS ==> Settled(old(View()), View(), Ids(again.events))
      ensures Marks(old(View()), View(), again.limit == Images)
      ensures ready ==> session == Some(again) && journal == Some(NextJournal(old(journal), again.id, again.events, Some(Recording), NoLimit))
      ensures faultless ==> ready
    {
      DistinctIds(again.events);
      var journaled := PersistJournal(again.id, again.events, Some(Recording), NoLimit);
      ghost var between := View();
      JournalKeeps(old(View()), between, again.id, again.events, Some(Recording), NoLimit, journaled, Ids(again.events));
      if !journaled { return false; }
      ready := SetSession(again);
      SessionKeeps(between, View(), again, ready, Ids(again.events));
    }

    // The journal may go, as the stored session has everything.
    method ForgetJournal(s: Session)
      requires Base(s) && InSession(View(), Ids(s.events))
      modifies this`journal, this`marker
      ensures Base(s) && Settled(old(View()), View(), Ids(s.events)) && InSession(View(), Ids(s.events))
      ensures Marks(old(View()), View(), false)
      ensures session == old(session) && marker.None? && (journal == old(journal) || journal.None?)
    {
      var cleared: bool := *;
      if cleared { journal := None; }
      marker := None;
    }

    // The failure branch: what the recorder still hands over is added and saved before it is told to release.
    method ResumeFails(resumeBase: Session, recovered: Option<seq<Event>>)
      requires Base(resumeBase) && (recovered.Some? ==> Identified(recovered.value))
      modifies this`session, this`journal, this`fallback, this`marker, this`held, this`present, this`told
      ensures Valid() && session.Some? && (old(told) ==> told) && (recovered.None? ==> told == old(told))
      ensures told && !old(told) && |resumeBase.events| <= MAX_RECOVERY_EVENTS ==>
                Ids(Recovered(resumeBase, recovered).events) <= Durable(View())
      ensures |resumeBase.events| <= MAX_RECOVERY_EVENTS ==>
                Kept(old(View()), View(), Ids(Recovered(resumeBase, recovered).events))
      ensures (held == old(held) && present == old(present)) || (told && held == [] && !present)
      ensures present != old(present) ==> recovered.Some?
      ensures present != old(present) && |resumeBase.events| <= MAX_RECOVERY_EVENTS ==>
                Ids(Recovered(resumeBase, recovered).events) <= Durable(View())
      ensures Marks(old(View()), View(), resumeBase.limit == Images)
      ensures NotResumed()
    {
      var s := resumeBase;
      if recovered.Some? {
        KeptBound(resumeBase, recovered.value);
        s := MergePendingEventsWithoutImages(resumeBase, recovered.value);
      }
      var saved := SaveResumeFailed(s);
      if saved && recovered.Some? {
        var released := Release();
      }
    }

    // Either store is told that the recorder did not come back, or the worker's memory keeps what is known.
    method SaveResumeFailed(s: Session) returns (saved: bool)
      requires Base(s)
      modifies this`session, this`journal, this`fallback, this`marker
      ensures Valid() && session.Some? && NotResumed()
      ensures saved && |s.events| <= MAX_RECOVERY_EVENTS ==> Ids(s.events) <= Durable(View())
      ensures |s.events| <= MAX_RECOVERY_EVENTS ==> Kept(old(View()), View(), Ids(s.events))
      ensures Marks(old(View()), View(), s.limit == Images)
    {
      var failed := s.(phase := ReinjectionFailed);
      marker := Some(s.id);
      saved := SaveAll(failed, ReinjectionFailed, NoLimit);
      if !saved {
        FallbackKeeps(old(View()), View(), s.id, failed.events);
        fallback := Some(Fallback(s.id, failed.events));
      }
    }

    // The same for a resume, through its failure branch and a second retain.
    method ResumeCapture(sameTab: bool) returns (resumed: bool)
      requires Valid()
      modifies this`session, this`journal, this`fallback, this`marker, this`held, this`present, this`told
      ensures Valid() && (resumed ==> told)
      ensures var base := old(Rebuild(View()));
        var mayResume := base.Some? && base.value.limit == NoLimit && base.value.phase in {Paused, ReinjectionFailed} && sameTab;
        && (faultless ==> (resumed <==> mayResume)) && (resumed ==> mayResume && Resumed(old(journal), KeepPending(base.value, old(Offered()))))
        && (mayResume && !resumed ==> Rebuild(View()).Some? && Rebuild(View()).value.phase == ReinjectionFailed)
        && (!mayResume ==> session == old(session) && journal == old(journal))
      ensures told ==>
        var base := old(Rebuild(View()));
        && base.Some? && base.value.limit == NoLimit
        && (|base.value.events| <= MAX_RECOVERY_EVENTS ==> Stored(View(), Within(base.value, old(Offered()))))
      ensures !told ==> held == old(held) && present == old(present)
    {
      told := false;
      var base := GetSession();
      if !Resumable(base, sameTab) { return false; }
      resumed := ResumeFrom(base.value);
      StoredIs(View(), session.value.id, Within(base.value, old(Offered())));
    }

    method ResumeFrom(base: Session) returns (resumed: bool)
      requires Base(base) && !told
      modifies this`session, this`journal, this`fallback, this`marker, this`held, this`present, this`told
      ensures Valid() && session.Some? && (resumed ==> told)
      ensures told && |base.events| <= MAX_RECOVERY_EVENTS ==> Within(base, old(Offered())) <= Durable(View())
      ensures !told ==> held == old(held) && present == old(present)
      ensures !resumed || Resumed(old(journal), KeepPending(base, old(Offered())))
      ensures resumed || NotResumed()
      ensures faultless ==> resumed
    {
      var retained := Retain();
      if retained.None? {
        resumed := false;
        ResumeFails(base, None);
      } else {
        KeptBound(base, Offered());
        var resumeBase := MergePendingEventsWithoutImages(base, retained.value);
        resumed := ResumeWith(resumeBase);
      }
    }

    method ResumeWith(resumeBase: Session) returns (resumed: bool)
      requires Base(resumeBase) && !told
      modifies this`session, this`journal, this`fallback, this`marker, this`held, this`present, this`told
      ensures Valid() && session.Some? && (resumed ==> told)
      ensures told && |resumeBase.events| <= MAX_RECOVERY_EVENTS ==> Ids(resumeBase.events) <= Durable(View())
      ensures !told ==> held == old(held) && present == old(present)
      ensures !resumed || Resumed(old(journal), resumeBase)
      ensures resumed || NotResumed()
      ensures faultless ==> resumed
    {
      resumed := TryResume(resumeBase);
      if !resumed {
        var recovered := Retain();
        if recovered.Some? { KeptBound(resumeBase, recovered.value); }
        ResumeFails(resumeBase, recovered);
      }
    }

    // Nor is the recorder back.
    predicate NotResumed() reads this { Rebuild(View()).Some? && Rebuild(View()).value.phase == ReinjectionFailed }

    // ---------- finishing ----------

    predicate Finishable(s: Option<Session>) {
      s.Some? && s.value.phase in {Recording, Paused, FinishFailed, ReinjectionFailed}
    }

    method RecordEventWithoutImage(s: Session, e: Event, ghost base: Session, ghost kept: set<string>) returns (next: Option<Session>)
      requires Valid() && Working(View(), s, base, kept) && e.id != "" && Ids(Take1(s.events, e)) <= kept
      modifies this`session, this`journal, this`fallback, this`marker, this`held, this`present
      ensures Valid() && (next.Some? ==> next.value.events == Take1(s.events, e) && Working(View(), next.value, base, kept))
      ensures next.None? ==> Failing(View(), s, kept)
      ensures |s.events| >= MAX_CAPTURE_STEPS ==> InSession(View(), kept)
      ensures (held == old(held) && present == old(present)) || |s.events| >= MAX_CAPTURE_STEPS
      ensures present ==> old(present)
      ensures Going(old(View()), View(), kept) && (faultless ==> next.Some?)
    {
      next := AppendCaptureEvent(s, e);
      ghost var between := View();
      AppendedWorks(old(View()), between, s, e, next, base, kept);
      AppendedSettles(old(View()), between, s, e, next, base, kept);
      AppendedMarks(old(View()), between, s, e, next);
      if next.None? || next.value == s { return; }
      Take1Is(s.events, e);
      var stored := MarkUnavailable(next.value, e, base, kept);
      GoesOn(old(View()), between, View(), kept);
      if !stored { next := None; }
    }

    // The event is looked up by its id, else by its time.
    method MarkUnavailable(s: Session, e: Event, ghost base: Session, ghost kept: set<string>) returns (stored: bool)
      requires Valid() && Working(View(), s, base, kept)
      modifies this`session, this`fallback, this`marker
      ensures Valid() && Working(View(), s, base, kept)
      ensures old(InSession(View(), kept)) && |s.events| >= MAX_CAPTURE_STEPS ==> InSession(View(), kept)
      ensures Going(old(View()), View(), kept) && (faultless ==> stored)
    {
      if !exists i | 0 <= i < |s.events| :: s.events[i].id == e.id || s.events[i].at == e.at { return true; }
      stored := SetSession(s);
      RewriteWorks(old(View()), View(), s, base, kept, stored);
      SessionKeeps(old(View()), View(), s, stored, kept);
    }

    // The loop of the finish: every retained event within the limits is recorded, or the finish fails.
    method RecordAll(base: Session, es: seq<Event>, ghost kept: set<string>) returns (s: Session, ok: bool, done: nat)
      requires Valid() && Working(View(), base, base, kept) && Identified(es) && kept == Ids(Take(base.events, es))
      modifies this`session, this`journal, this`fallback, this`marker, this`held, this`present
      ensures Valid() && (!ok || done == |es|) && (ok || Stopped(View(), s, base, es, done, kept)) && (!ok || AllTaken(View(), s, base, es, kept))
      ensures (held == old(held) && present == old(present)) || InSession(View(), kept)
      ensures present ==> old(present)
      ensures Going(old(View()), View(), kept) && (faultless ==> ok)
    {
      s, done, ok := base, 0, true;
      ghost var held0, present0, before := held, present, View();
      LoopStarts(before, base, es, kept);
      while done < |es|
        invariant done <= |es| && ok && Valid() && (!ok || Halfway(before, View(), s, base, es, done, kept))
        invariant (held == held0 && present == present0) || |s.events| >= MAX_CAPTURE_STEPS
        invariant present ==> present0
      {
        var next := RecordNext(s, base, es, done, before, kept);
        if next.Some? { s, done := next.value, done + 1; } else { ok := false; return; }
      }
      AllRecorded(before, View(), s, base, es, kept);
    }

    method RecordNext(s: Session, ghost base: Session, es: seq<Event>, k: nat, ghost before: Stores, ghost kept: set<string>)
        returns (next: Option<Session>)
      requires Valid() && k < |es| && Halfway(before, View(), s, base, es, k, kept)
      modifies this`session, this`journal, this`fallback, this`marker, this`held, this`present
      ensures Valid()
      ensures next.None? || Halfway(before, View(), next.value, base, es, k + 1, kept)
      ensures next.Some? || Stopped(View(), s, base, es, k, kept)
      ensures |s.events| >= MAX_CAPTURE_STEPS ==> InSession(View(), kept) && (next.Some? ==> |next.value.events| >= MAX_CAPTURE_STEPS)
      ensures (held == old(held) && present == old(present)) || |s.events| >= MAX_CAPTURE_STEPS
      ensures present ==> old(present)
      ensures Going(before, View(), kept) && (faultless ==> next.Some?)
    {
      HalfwayIs(before, View(), s, base, es, k, kept);
      next := RecordEventWithoutImage(s, es[k], base, kept);
      HalfwayGoesOn(before, old(View()), View(), s, next, base, es, k, kept);
    }

    // The failure branch: the retained events are added without images and saved; only then is the recorder
    // told to release.
    method FinishFails(s: Session, pending: Option<seq<Event>>, ghost kept: set<string>, ghost bound: set<string>)
      requires Valid() && Failing(View(), s, kept) && (told ==> InSession(View(), kept)) && Known(View()) + kept <= bound
      requires (pending.Some? ==> Identified(pending.value)) && Ids(Recovered(s, pending).events) == kept
      modifies this`session, this`journal, this`fallback, this`marker, this`held, this`present, this`told
      ensures Valid() && session.Some? && (old(told) ==> told) && (pending.None? ==> told == old(told))
      ensures |kept| <= MAX_RECOVERY_EVENTS && (told || old(kept <= Durable(View()))) ==> kept <= Durable(View())
      ensures (held == old(held) && present == old(present)) || (told && pending.Some?)
      ensures present ==> old(present)
      ensures |bound| <= MAX_RECOVERY_EVENTS ==> Settled(old(View()), View(), bound)
      ensures Marks(old(View()), View(), s.limit == Images)
      ensures Saved(old(View()), View(), Recovered(s, pending).(phase := FinishFailed), FinishFailed, NoLimit, false)
    {
      var retry := s;
      if pending.Some? {
        KeptBound(s, pending.value);
        retry := MergePendingEventsWithoutImages(s, pending.value);
      }
      ghost var before := View();
      var saved := SaveBoth(retry.(phase := FinishFailed), FinishFailed, NoLimit);
      FinishSaved(before, View(), retry.(phase := FinishFailed), s, kept, saved, bound);
      if saved && pending.Some? {
        var released := Release();
      }
    }

    // The failure branch before anything was retained.
    method FinishEarly(s: Session)
      requires Base(s)
      modifies this`session, this`journal, this`fallback, this`marker, this`held, this`present, this`told
      ensures Valid() && session.Some? && !told && held == old(held) && present == old(present)
      ensures |s.events| <= MAX_RECOVERY_EVENTS ==> Settled(old(View()), View(), Ids(s.events))
      ensures |s.events| <= MAX_RECOVERY_EVENTS && old(Ids(s.events) <= Durable(View())) ==> Ids(s.events) <= Durable(View())
      ensures Marks(old(View()), View(), s.limit == Images)
    {
      told := false;
      DistinctIds(s.events);
      FinishFails(s, None, Ids(s.events), Ids(s.events));
    }

    // The session is stored, the draft written and the recorder released: true when all of it is confirmed.
    method StoreDraft(s: Session, ghost kept: set<string>, ghost bound: set<string>) returns (finished: bool)
      requires Valid() && Failing(View(), s, kept) && !told && kept == Ids(s.events) && Known(View()) + kept <= bound
      modifies this`session, this`journal, this`fallback, this`marker, this`held, this`present, this`told, this`drafts
      ensures Valid() && Failing(View(), s, kept) && (told ==> InSession(View(), kept)) && (finished ==> told && !present)
      ensures Settled(old(View()), View(), bound) && Marks(old(View()), View(), s.limit == Images)
      ensures old(kept <= Durable(View())) ==> kept <= Durable(View())
      ensures !told ==> held == old(held) && present == old(present)
      ensures present ==> old(present)
      ensures Drafted(old(drafts), drafts, s.id, s.events) && (finished ==> s.id in drafts) && (faultless ==> finished)
      ensures told ==> s.id in drafts
    {
      var stored := SetSession(s);
      SessionKeeps(old(View()), View(), s, stored, bound);
      if !stored { return false; }
      var images := ListImages();
      if images.None? { return false; }
      var drafted := PutDraft(s, images.value);
      var cleared: bool := *;  // clearing the images
      if !drafted || !(cleared || faultless) { return false; }
      finished := Release();
    }

    // The ready images of this recording; reading them may fail.
    method ListImages() returns (images: Option<seq<Image>>)
      ensures (images.Some? ==> DistinctImages(images.value)) && (faultless ==> images.Some?)
    {
      var listed: seq<Image>, read: bool := *, *;
      if !DistinctImages(listed) { listed := []; }
      images := if read || faultless then Some(listed) else None;
    }

    // A draft that is there is kept; looking for it, the image of an empty recording and the write may fail.
    method PutDraft(s: Session, images: seq<Image>) returns (drafted: bool)
      requires DistinctImages(images)
      modifies this`drafts
      ensures Drafted(old(drafts), drafts, s.id, s.events) && (drafted ==> s.id in drafts) && (faultless ==> drafted)
    {
      var read: bool, imaged: bool, takesEffect: bool, spare: string := *, *, *, *;
      if !read && !faultless { return false; }
      if s.id in drafts { return true; }
      if s.events == [] && !imaged && !faultless { return false; }
      drafted := *;
      drafted := drafted || faultless;
      if drafted || takesEffect { drafts := drafts[s.id := NewDraft(s.id, s.events, images, spare)]; }
    }

    // What the retained events within the limits leave in the stores before the session is written.
    method RecordRetained(start: Session, pending: seq<Event>, ghost kept: set<string>, ghost bound: set<string>)
        returns (s: Session, ok: bool)
      requires Base(start) && Identified(pending) && kept == Within(start, pending) && kept + Ids(pending) <= bound
      modifies this`session, this`journal, this`fallback, this`marker, this`held, this`present
      ensures Valid() && Failing(View(), s, kept) && Ids(KeepPending(s, pending).events) == kept && s.id == start.id
      ensures (ok ==> s.events == KeepPending(start, pending).events) && (faultless ==> ok)
      ensures !HasRoom(start) ==> View() == old(View())
      ensures (held == old(held) && present == old(present)) || InSession(View(), kept)
      ensures present ==> old(present)
      ensures |bound| <= MAX_RECOVERY_EVENTS ==> Settled(old(View()), View(), bound)
      ensures Marks(old(View()), View(), false) && (s.limit == Images ==> start.limit == Images) && Known(View()) <= bound
    {
      s, ok := start, true;
      KeptBound(start, pending);
      if !HasRoom(start) { return; }
      WorkingStarts(View(), start, pending);
      var done;
      s, ok, done := RecordAll(start, pending, kept);
      Recorded(s, start, pending, done);
      if ok && pending != [] { JournalRetained(s, pending, kept, bound); }
    }

    method JournalRetained(s: Session, pending: seq<Event>, ghost kept: set<string>, ghost bound: set<string>)
      requires Valid() && Failing(View(), s, kept) && Identified(pending) && Known(View()) + Ids(pending) <= bound
      requires InSession(View(), kept) || (Ids(pending) <= kept && |kept| <= MAX_CAPTURE_STEPS)
      modifies this`journal, this`marker
      ensures Valid() && Failing(View(), s, kept) && (old(InSession(View(), kept)) ==> InSession(View(), kept))
      ensures |bound| <= MAX_RECOVERY_EVENTS ==> Settled(old(View()), View(), bound)
      ensures Marks(old(View()), View(), false) && Known(View()) <= bound
    {
      JournalHolds(journal, s.id, pending, None, NoLimit, kept);
      var journaled := PersistJournal(s.id, pending, None, NoLimit);
      JournalKeeps(old(View()), View(), s.id, pending, None, NoLimit, journaled, bound);
    }

    // From the retained events on; `start` is the session after the image count was looked at.
    method FinishFrom(start: Session) returns (finished: bool)
      requires Base(start) && !told
      modifies this`session, this`journal, this`fallback, this`marker, this`held, this`present, this`told, this`drafts
      ensures Valid() && session.Some? && (finished ==> told && !present)
      ensures Handed(old(View()), View(), start, old(Offered()), told || held != old(held) || present != old(present))
      ensures var kept := KeepPending(start, old(Offered())).events;
        Drafted(old(drafts), drafts, start.id, kept) && (finished ==> start.id in drafts)
      ensures faultless ==> finished
    {
      var pending := Retain();
      if pending.None? {
        finished := false;
        FinishEarly(start);
        NothingHanded(old(View()), View(), start, old(Offered()));
      } else {
        ghost var bound := Within(start, pending.value) + Ids(pending.value);
        finished := FinishWith(start, pending.value, bound);
      }
    }

    method FinishWith(start: Session, pending: seq<Event>, ghost bound: set<string>) returns (finished: bool)
      requires Base(start) && Identified(pending) && Within(start, pending) + Ids(pending) <= bound
      modifies this`session, this`journal, this`fallback, this`marker, this`held, this`present, this`told, this`drafts
      ensures Valid() && session.Some? && (finished ==> told && !present)
      ensures Handed(old(View()), View(), start, pending, told || held != old(held) || present != old(present))
      ensures present ==> old(present)
      ensures |bound| <= MAX_RECOVERY_EVENTS ==> Settled(old(View()), View(), bound)
      ensures Marks(old(View()), View(), start.limit == Images)
      ensures Drafted(old(drafts), drafts, start.id, KeepPending(start, pending).events) && (finished ==> start.id in drafts)
      ensures faultless ==> finished
    {
      told, finished := false, false;
      ghost var kept := Within(start, pending);
      KeptBound(start, pending);
      var s, ok := RecordRetained(start, pending, kept, bound);
      assert drafts == old(drafts);
      finished := FinishRecorded(s, ok, pending, start.id, KeepPending(start, pending).events, kept, bound);
    }

    // Once the retained events are recorded, or recording them has failed.
    method FinishRecorded(s: Session, ok: bool, pending: seq<Event>, ghost id: string, ghost events: seq<Event>,
                          ghost kept: set<string>, ghost bound: set<string>)
        returns (finished: bool)
      requires Valid() && Failing(View(), s, kept) && !told && Identified(pending) && Known(View()) + kept <= bound
      requires Ids(Recovered(s, Some(pending)).events) == kept && (ok ==> kept == Ids(s.events) && s.id == id && s.events == events)
      modifies this`session, this`journal, this`fallback, this`marker, this`held, this`present, this`told, this`drafts
      ensures Valid() && session.Some? && (finished ==> told && !present) && (ok && faultless ==> finished)
      ensures |kept| <= MAX_RECOVERY_EVENTS && (told || old(kept <= Durable(View()))) ==> kept <= Durable(View())
      ensures (held == old(held) && present == old(present)) || told
      ensures present ==> old(present)
      ensures |bound| <= MAX_RECOVERY_EVENTS ==> Settled(old(View()), View(), bound)
      ensures Marks(old(View()), View(), s.limit == Images)
      ensures Drafted(old(drafts), drafts, id, events) && (finished ==> id in drafts)
    {
      finished := false;
      if ok { finished := StoreDraft(s, kept, bound); }
      if !finished { FinishFails(s, Some(pending), kept, bound); }
    }

    // For a finish that does not end: the recorder is told to release, or taken out of the page, only once each
    // of its events within the limits is in the session rebuilt from the two stores. One that ends leaves the
    // draft that was there, or a new one of exactly the recorded events and those retained within the limits.
    method FinishCapture(images: Option<nat>) returns (finished: bool)
      requires Valid()
      modifies this`session, this`journal, this`fallback, this`marker, this`held, this`present, this`told, this`drafts
      ensures Valid() && (finished ==> told)
      ensures !finished && (told || held != old(held) || present != old(present)) ==>
        var base := old(Rebuild(View()));
        && images.Some? && base.Some?
        && (|base.value.events| <= MAX_RECOVERY_EVENTS ==>
              Stored(View(), Within(FinishBase(base.value, images.value), old(Offered()))))
      ensures drafts != old(drafts) || finished ==>
        var base := old(Rebuild(View()));
        && images.Some? && base.Some? && base.value.id in drafts
        && Drafted(old(drafts), drafts, base.value.id, KeepPending(FinishBase(base.value, images.value), old(Offered())).events)
      ensures var base := old(Rebuild(View()));
        var mayFinish := base.Some? && base.value.phase in {Recording, Paused, FinishFailed, ReinjectionFailed};
        && (finished ==> mayFinish) && (faultless ==> (finished <==> mayFinish && images.Some?))
        && (!mayFinish ==> session == old(session) && journal == old(journal) && drafts == old(drafts))
    {
      told, finished := false, false;
      var base := GetSession();
      if !Finishable(base) { return; }
      var ready: bool := *;  // the viewport of a retry
      if !(ready || faultless) || images.None? {
        FinishEarly(base.value);
        return;
      }
      finished := FinishCounted(base.value, images.value);
      if !finished { StoredIs(View(), session.value.id, Within(FinishBase(base.value, images.value), old(Offered()))); }
    }

    method FinishCounted(base: Session, images: nat) returns (finished: bool)
      requires Base(base) && Known(View()) == Ids(base.events) && !told
      modifies this`session, this`journal, this`fallback, this`marker, this`held, this`present, this`told, this`drafts
      ensures Valid() && (finished ==> told) && (!finished ==> session.Some?)
      ensures !finished && (told || held != old(held) || present != old(present)) && |base.events| <= MAX_RECOVERY_EVENTS ==>
        Within(FinishBase(base, images), old(Offered())) <= Durable(View())
      ensures Drafted(old(drafts), drafts, base.id, KeepPending(FinishBase(base, images), old(Offered())).events)
      ensures (finished ==> base.id in drafts) && (faultless ==> finished)
    {
      var start := FinishBase(base, images);
      if start != base {
        var marked := MarkImages(base);
        if !marked {
          FinishEarly(base);
          return false;
        }
      }
      finished := FinishFrom(start);
      if finished { Clear(base.id); }
    }

    // The recording is over: the session goes once the window is restored, and the journal goes.
    method Clear(id: string)
      requires Valid()
      modifies this`session, this`journal
      ensures Valid() && (faultless ==> session.None? && (journal.Some? ==> journal.value.id != id))
    {
      var restored: bool := *;
      if restored || faultless { session := None; }
      var cleared: bool := *;
      if (cleared || faultless) && journal.Some? && journal.value.id == id { journal := None; }
    }

    method MarkImages(base: Session) returns (marked: bool)
      requires Base(base) && Known(View()) == Ids(base.events)
      modifies this`session, this`journal, this`fallback, this`marker, this`held, this`present
      ensures Base(base) && (marked || (held == old(held) && present == old(present))) && (faultless ==> marked)
      ensures marked && |base.events| <= MAX_RECOVERY_EVENTS ==> Ids(base.events) <= Durable(View())
      ensures |base.events| <= MAX_RECOVERY_EVENTS ==> Settled(old(View()), View(), Ids(base.events))
      ensures (held == old(held) && present == old(present)) || (held == [] && !present)
    {
      var limited := MarkCaptureLimit(base, Images);
      SavedKeeps(old(View()), View(), LimitOf(base, Images), Paused, Images, limited.Some?, Ids(base.events));
      DistinctIds(base.events);
      marked := limited.Some?;
    }
  }
}
