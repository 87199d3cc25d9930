/**
 What one or two writes to the stores of a recording leave, by id
 (apps/extension/background/service-worker.js:48-56,135-145,194-208,522-530). A write takes effect or does not,
 and either way may report a failure.
 */
module StoreWrites {
  import opened Basics
  import opened CaptureEvents
  import opened CaptureStores

  // What outlives the worker: the session store and the journal of that session.
  ghost function Durable(st: Stores): set<string> {
    if st.session.None? then {} else Ids(st.session.value.events) + JournalIds(st.journal, st.session.value.id)
  }

  ghost function Volatile(st: Stores): set<string> {
    if st.session.None? then {} else FallbackIds(st.fallback, st.session.value.id)
  }

  ghost function Known(st: Stores): set<string> { Durable(st) + Volatile(st) }

  predicate Of(st: Stores, id: string) { StoresWf(st) && st.session.Some? && st.session.value.id == id }

  // The stored session itself has them.
  ghost predicate InSession(st: Stores, ids: set<string>) {
    st.session.Some? && ids <= Ids(st.session.value.events)
  }

  // The ids are in the session rebuilt from the two stores alone.
  ghost predicate Stored(st: Stores, ids: set<string>) {
    var r := Rebuild(Stores(st.session, st.journal, None, None));
    st.session.Some? && r.Some? && ids <= Ids(r.value.events)
  }

  lemma StoredIs(st: Stores, id: string, ids: set<string>)
    requires Of(st, id)
    ensures Stored(st, ids) <==> ids <= Durable(st)
  {
    RebuildIs(Stores(st.session, st.journal, None, None));
  }

  // The rebuilt session holds exactly what the stores and the fallback know.
  lemma KnownIs(st: Stores, id: string)
    requires Of(st, id)
    ensures var r := Rebuild(st);
            r.Some? && r.value.id == id && Wf(r.value.events) && Ids(r.value.events) == Known(st) && |Known(st)| == |r.value.events|
  {
    RebuildIs(st);
    DistinctIds(Rebuild(st).value.events);
  }

  // ---------- the writes ----------

  ghost predicate SessionWritten(a: Stores, b: Stores, s: Session, ok: bool) {
    && b.journal == a.journal
    && (b.session == Some(s) || (!ok && b.session == a.session))
    && b.fallback == if ok && a.fallback.Some? && a.fallback.value.id == s.id then None else a.fallback
  }

  ghost predicate JournalWritten(a: Stores, b: Stores, n: Journal, ok: bool) {
    b.session == a.session && b.fallback == a.fallback && (b.journal == Some(n) || (!ok && b.journal == a.journal))
  }

  // Both stores are written with one session; it is saved when either of them has it for certain.
  ghost predicate Saved(a: Stores, b: Stores, s: Session, phase: Phase, limit: Limit, ok: bool) {
    var n := NextJournal(a.journal, s.id, s.events, Some(phase), limit);
    && (b.session == Some(s) || b.session == a.session)
    && (b.journal == Some(n) || b.journal == a.journal)
    && (b.fallback == a.fallback || (b.fallback.None? && b.session == Some(s)))
    && (ok ==> b.session == Some(s) || b.journal == Some(n))
  }

  // The worker's memory takes what no store would.
  lemma FallbackKeeps(a: Stores, b: Stores, id: string, events: seq<Event>)
    requires Of(b, id) && Wf(events) && Known(b) <= Ids(events)
    ensures var c := b.(fallback := Some(Fallback(id, events)));
            StoresWf(c) && Durable(c) == Durable(b) && (Kept(a, b, Ids(events)) ==> Kept(a, c, Ids(events)))
  {
  }

  function Waiting(st: Stores, id: string): seq<Event> {
    if st.fallback.Some? && st.fallback.value.id == id then st.fallback.value.events else []
  }

  function SpillJournal(a: Stores, id: string, e: Event): Journal {
    NextJournal(a.journal, id, MergeEvents(Waiting(a, id), [e]), None, NoLimit)
  }

  // The session store would not confirm the event, which went to the journal with what waited in memory, or nowhere.
  ghost predicate Spilled(a: Stores, b: Stores, more: Session, e: Event) {
    && (b.session == a.session || b.session == Some(more))
    && (|| (b.journal == a.journal && b.fallback == a.fallback)
        || (&& b.journal == Some(SpillJournal(a, more.id, e))
            && (b.fallback == a.fallback || (b.fallback.None? && a.fallback.Some? && a.fallback.value.id == more.id))))
  }

  function LimitOf(s: Session, limit: Limit): Session { s.(phase := Paused, limit := limit) }

  function More(s: Session, e: Event): Session { s.(events := Take1(s.events, e)) }

  // appendCaptureEvent: a known event changes nothing; the 201st marks the limit; any other is stored.
  ghost predicate Appended(a: Stores, b: Stores, s: Session, e: Event, next: Option<Session>) {
    if e.id in Ids(s.events) then next == Some(s) && b == a
    else if |s.events| >= MAX_CAPTURE_STEPS then
      Saved(a, b, LimitOf(s, Steps), Paused, Steps, next.Some?) && (next.Some? ==> next.value == LimitOf(s, Steps))
    else if next.Some? then next.value == More(s, e) && SessionWritten(a, b, More(s, e), true)
    else Spilled(a, b, More(s, e), e)
  }

  // ---------- what they keep ----------

  // The same session goes on: nothing stored is lost, and nothing beyond the bound is known.
  ghost predicate Kept(a: Stores, b: Stores, bound: set<string>) {
    && a.session.Some? && Of(b, a.session.value.id)
    && Durable(a) <= Durable(b) && Known(b) <= bound
  }

  // And nothing more waits in the worker's memory.
  ghost predicate Settled(a: Stores, b: Stores, bound: set<string>) { Kept(a, b, bound) && Volatile(b) <= Volatile(a) }

  lemma SessionKeeps(a: Stores, b: Stores, s: Session, ok: bool, bound: set<string>)
    requires Of(a, s.id) && Wf(s.events) && SessionWritten(a, b, s, ok) && Ids(a.session.value.events) <= Ids(s.events)
    requires Known(a) + Ids(s.events) <= bound
    ensures Settled(a, b, bound) && (ok ==> Ids(s.events) <= Durable(b))
  {
  }

  lemma JournalKeeps(a: Stores, b: Stores, id: string, events: seq<Event>, phase: Option<Phase>, limit: Limit, ok: bool, bound: set<string>)
    requires Of(a, id) && Identified(events) && JournalWritten(a, b, NextJournal(a.journal, id, events, phase, limit), ok)
    requires Known(a) + Ids(events) <= bound
    ensures Of(b, id) && Known(b) <= bound && Volatile(b) == Volatile(a)
    ensures |bound| <= MAX_RECOVERY_EVENTS ==> Settled(a, b, bound) && (ok ==> Ids(events) <= Durable(b))
  {
    JournalHolds(a.journal, id, events, phase, limit, bound);
  }

  lemma SavedKeeps(a: Stores, b: Stores, s: Session, phase: Phase, limit: Limit, ok: bool, bound: set<string>)
    requires Of(a, s.id) && Wf(s.events) && Saved(a, b, s, phase, limit, ok) && Ids(a.session.value.events) <= Ids(s.events)
    requires Known(a) + Ids(s.events) <= bound
    ensures Of(b, s.id) && Known(b) <= bound
    ensures |bound| <= MAX_RECOVERY_EVENTS ==> Settled(a, b, bound) && (ok ==> Ids(s.events) <= Durable(b))
  {
    JournalHolds(a.journal, s.id, s.events, Some(phase), limit, bound);
  }

  lemma SpillJournalIs(a: Stores, id: string, e: Event, bound: set<string>)
    requires Of(a, id) && e.id != ""
    ensures var n := SpillJournal(a, id, e); Wf(n.events) && Ids(n.events) <= JournalIds(a.journal, id) + Volatile(a) + {e.id}
    ensures Known(a) + {e.id} <= bound && |bound| <= MAX_RECOVERY_EVENTS ==>
              Ids(SpillJournal(a, id, e).events) == JournalIds(a.journal, id) + Volatile(a) + {e.id}
  {
    var waiting := Waiting(a, id);
    MergeWf(waiting, [e]);
    assert Ids([e]) == {e.id};
    JournalHolds(a.journal, id, MergeEvents(waiting, [e]), None, NoLimit, bound);
  }

  lemma SpilledKeeps(a: Stores, b: Stores, more: Session, e: Event, bound: set<string>)
    requires Of(a, more.id) && Wf(more.events) && e.id != "" && Spilled(a, b, more, e)
    requires Ids(a.session.value.events) <= Ids(more.events)
    requires Known(a) + Ids(more.events) + {e.id} <= bound && |bound| <= MAX_RECOVERY_EVENTS
    ensures Settled(a, b, bound)
  {
    var c := a.(session := b.session);
    SessionKeeps(a, c, more, false, bound);
    if b.journal != a.journal || b.fallback != a.fallback { JournalSpilled(c, b, more.id, e, bound); }
  }

  lemma JournalSpilled(a: Stores, b: Stores, id: string, e: Event, bound: set<string>)
    requires Of(a, id) && e.id != "" && b.session == a.session && b.journal == Some(SpillJournal(a, id, e))
    requires b.fallback == a.fallback || b.fallback.None?
    requires Known(a) + {e.id} <= bound && |bound| <= MAX_RECOVERY_EVENTS
    ensures Settled(a, b, bound)
  {
    SpillJournalIs(a, id, e, bound);
  }

  // What an event leaves when it is added to the session rebuilt from all stores.
  lemma AppendedKeeps(a: Stores, b: Stores, s: Session, e: Event, next: Option<Session>)
    requires Of(a, s.id) && Wf(s.events) && Ids(s.events) == Known(a) && |s.events| <= MAX_RECOVERY_EVENTS && e.id != ""
    requires Appended(a, b, s, e, next)
    ensures Settled(a, b, Ids(Take1(s.events, e)))
    ensures next.Some? ==> Wf(next.value.events) && next.value.id == s.id && Ids(s.events) <= Ids(next.value.events) <= Ids(Take1(s.events, e))
    ensures next.Some? && next.value.limit == NoLimit ==> e.id in Known(a) + Durable(b)
    ensures next.Some? && next.value != s ==> InSession(b, Ids(next.value.events)) || next.value.limit != NoLimit
    ensures next.Some? && e.id !in Ids(s.events) && |s.events| >= MAX_CAPTURE_STEPS ==> Ids(s.events) <= Durable(b)
  {
    Take1Is(s.events, e);
    DistinctIds(s.events);
    DistinctIds(Take1(s.events, e));
    if e.id in Ids(s.events) {
    } else if |s.events| >= MAX_CAPTURE_STEPS {
      LimitKeeps(a, b, s, Steps, next.Some?);
    } else if next.Some? {
      SessionKeeps(a, b, More(s, e), true, Ids(Take1(s.events, e)));
    } else {
      SpilledKeeps(a, b, More(s, e), e, Ids(Take1(s.events, e)));
    }
  }

  lemma LimitKeeps(a: Stores, b: Stores, s: Session, limit: Limit, ok: bool)
    requires Of(a, s.id) && Wf(s.events) && Ids(s.events) == Known(a) && |s.events| <= MAX_RECOVERY_EVENTS
    requires Saved(a, b, LimitOf(s, limit), Paused, limit, ok)
    ensures Settled(a, b, Ids(s.events)) && (ok ==> Ids(s.events) <= Durable(b))
  {
    DistinctIds(s.events);
    SavedKeeps(a, b, LimitOf(s, limit), Paused, limit, ok, Ids(s.events));
  }

  // ---------- the limit on images ----------

  function JournalLimit(j: Option<Journal>, id: string): Limit { if j.Some? && j.value.id == id then j.value.limit else NoLimit }

  // One of the two stores says that the limit on images was reached.
  predicate ImageLimit(st: Stores) {
    st.session.Some? && (st.session.value.limit == Images || JournalLimit(st.journal, st.session.value.id) == Images)
  }

  // It says so only if it did before, or for a reason.
  ghost predicate Marks(a: Stores, b: Stores, reason: bool) { ImageLimit(b) ==> ImageLimit(a) || reason }

  lemma SavedMarks(a: Stores, b: Stores, s: Session, phase: Phase, limit: Limit, ok: bool)
    requires Of(a, s.id) && Saved(a, b, s, phase, limit, ok)
    ensures Marks(a, b, s.limit == Images || limit == Images)
  {
  }

  lemma AppendedMarks(a: Stores, b: Stores, s: Session, e: Event, next: Option<Session>)
    requires Of(a, s.id) && Appended(a, b, s, e, next)
    ensures Marks(a, b, s.limit == Images) && (next.Some? ==> next.value.limit == Images ==> s.limit == Images)
  {
  }

  // ---------- what phase is read back ----------

  // A journal of this recording says something else.
  predicate Contradicts(j: Option<Journal>, id: string, phase: Phase) {
    j.Some? && j.value.id == id && j.value.phase.Some? && j.value.phase.value != phase
  }

  // A session written with a phase is read back with it exactly when no journal left from before contradicts it:
  // one write that is confirmed is not enough.
  lemma ReadBackIff(a: Stores, b: Stores, s: Session, limit: Limit)
    requires Of(a, s.id) && Saved(a, b, s, s.phase, limit, true) && b.marker != Some(s.id)
    ensures Rebuild(b).value.phase == s.phase <==> !Contradicts(b.journal, s.id, s.phase)
    ensures Contradicts(b.journal, s.id, s.phase) ==> b.journal == a.journal && b.session == Some(s)
  {
  }

  // So a pause of which only the session store knows is read back as recording, when a journal says that.
  lemma PauseOverlooked(a: Stores, s: Session, limit: Limit)
    requires Of(a, s.id) && s.phase == Paused && a.marker != Some(s.id)
    requires a.journal.Some? && a.journal.value.id == s.id && a.journal.value.phase == Some(Recording)
    ensures var b := a.(session := Some(s)); Saved(a, b, s, Paused, limit, true) && Rebuild(b).value.phase == Recording
  {
  }

  // ---------- the limit on steps ----------

  // Two hundred actions are stored.
  ghost predicate AtStepLimit(st: Stores) { exists es: seq<Event> :: Wf(es) && |es| >= MAX_CAPTURE_STEPS && Ids(es) <= Durable(st) }

  lemma StepLimitIs(st: Stores)
    requires AtStepLimit(st)
    ensures |Durable(st)| >= MAX_CAPTURE_STEPS
  {
    var es :| Wf(es) && |es| >= MAX_CAPTURE_STEPS && Ids(es) <= Durable(st);
    DistinctIds(es);
    Smaller(Ids(es), Durable(st));
  }

  // ---------- while a finish adds the retained events ----------

  // Everything known stays within what will be kept, and once anything was added the stored session is the
  // working one.
  ghost predicate Working(st: Stores, s: Session, base: Session, kept: set<string>) {
    && Of(st, s.id) && s.id == base.id && Wf(s.events) && s.limit != Images
    && Ids(st.session.value.events) <= Ids(s.events)
    && |base.events| < MAX_CAPTURE_STEPS && |s.events| <= MAX_CAPTURE_STEPS && |kept| <= MAX_CAPTURE_STEPS
    && Ids(base.events) <= Ids(s.events) && Known(st) + Ids(s.events) <= kept
    && (s.events == base.events || InSession(st, Ids(s.events)))
  }

  // What the failure branch starts from.
  ghost predicate Failing(st: Stores, s: Session, kept: set<string>) {
    && Of(st, s.id) && Wf(s.events) && Ids(st.session.value.events) + Ids(s.events) <= kept
    && (JournalIds(st.journal, s.id) <= kept || InSession(st, kept))
  }

  lemma Full(a: set<string>, b: set<string>)
    requires a <= b && |b| <= |a|
    ensures a == b
  {
    if x :| x in b && x !in a { Smaller(a, b - {x}); }
  }

  // The loop of the finish after k events.
  ghost predicate Halfway(before: Stores, st: Stores, s: Session, base: Session, es: seq<Event>, k: nat, kept: set<string>) {
    && k <= |es| && Wf(base.events) && Identified(es) && kept == Ids(Take(base.events, es))
    && Working(st, s, base, kept) && s.events == TakeTo(base.events, es, k) && Settled(before, st, kept) && Marks(before, st, false)
  }

  // Once two hundred events are there, nothing more is kept.
  lemma FullIs(st: Stores, s: Session, base: Session, kept: set<string>)
    requires Working(st, s, base, kept) && |s.events| >= MAX_CAPTURE_STEPS
    ensures kept == Ids(s.events) && InSession(st, kept)
  {
    DistinctIds(s.events);
    Full(Ids(s.events), kept);
  }

  lemma AppendedWorks(a: Stores, b: Stores, s: Session, e: Event, next: Option<Session>, base: Session, kept: set<string>)
    requires Working(a, s, base, kept) && e.id != "" && Ids(Take1(s.events, e)) <= kept
    requires Appended(a, b, s, e, next)
    ensures next.Some? ==> next.value.events == Take1(s.events, e) && Working(b, next.value, base, kept)
    ensures next.None? ==> Failing(b, s, kept)
    ensures |s.events| >= MAX_CAPTURE_STEPS ==> InSession(b, kept)
  {
    Take1Is(s.events, e);
    if e.id in Ids(s.events) {
      if |s.events| >= MAX_CAPTURE_STEPS { FullIs(a, s, base, kept); }
    } else if |s.events| >= MAX_CAPTURE_STEPS {
      LimitWorks(a, b, s, next.Some?, base, kept);
    } else if next.Some? {
      MoreWorks(a, b, s, e, base, kept);
    } else {
      SpilledFails(a, b, s, e, kept);
    }
  }

  // And what was stored before stays, whatever fails.
  lemma AppendedSettles(a: Stores, b: Stores, s: Session, e: Event, next: Option<Session>, base: Session, kept: set<string>)
    requires Working(a, s, base, kept) && e.id != "" && Ids(Take1(s.events, e)) <= kept
    requires Appended(a, b, s, e, next)
    ensures Settled(a, b, kept)
  {
    Take1Is(s.events, e);
    if e.id in Ids(s.events) {
    } else if |s.events| >= MAX_CAPTURE_STEPS {
      SavedKeeps(a, b, LimitOf(s, Steps), Paused, Steps, next.Some?, kept);
    } else if next.Some? {
      SessionKeeps(a, b, More(s, e), true, kept);
    } else {
      SpilledKeeps(a, b, More(s, e), e, kept);
    }
  }

  ghost predicate Going(a: Stores, b: Stores, bound: set<string>) { Settled(a, b, bound) && Marks(a, b, false) }

  lemma GoesOn(a: Stores, b: Stores, c: Stores, bound: set<string>)
    requires Going(a, b, bound) && Going(b, c, bound)
    ensures Going(a, c, bound)
  {
  }

  // The page loses what it holds only once all of it within the limits is stored; and a session without room
  // stays stored.
  ghost predicate Handed(a: Stores, b: Stores, start: Session, pending: seq<Event>, moved: bool) {
    |start.events| <= MAX_RECOVERY_EVENTS ==>
      && (moved ==> Within(start, pending) <= Durable(b))
      && (!HasRoom(start) && Ids(start.events) <= Durable(a) ==> Within(start, pending) <= Durable(b))
  }

  lemma NothingHanded(a: Stores, b: Stores, start: Session, pending: seq<Event>)
    requires |start.events| <= MAX_RECOVERY_EVENTS && Ids(start.events) <= Durable(a) ==> Ids(start.events) <= Durable(b)
    ensures Handed(a, b, start, pending, false)
  {
  }

  lemma LimitWorks(a: Stores, b: Stores, s: Session, ok: bool, base: Session, kept: set<string>)
    requires Working(a, s, base, kept) && |s.events| >= MAX_CAPTURE_STEPS && Saved(a, b, LimitOf(s, Steps), Paused, Steps, ok)
    ensures Working(b, LimitOf(s, Steps), base, kept) && Failing(b, s, kept) && InSession(b, kept)
  {
    FullIs(a, s, base, kept);
    SavedKeeps(a, b, LimitOf(s, Steps), Paused, Steps, ok, kept);
  }

  lemma MoreWorks(a: Stores, b: Stores, s: Session, e: Event, base: Session, kept: set<string>)
    requires Working(a, s, base, kept) && e.id != "" && e.id !in Ids(s.events) && |s.events| < MAX_CAPTURE_STEPS
    requires Ids(Take1(s.events, e)) <= kept && SessionWritten(a, b, More(s, e), true)
    ensures Working(b, More(s, e), base, kept)
  {
    Take1Is(s.events, e);
  }

  lemma SpilledFails(a: Stores, b: Stores, s: Session, e: Event, kept: set<string>)
    requires Of(a, s.id) && Wf(s.events) && Known(a) <= kept && e.id in kept && e.id != "" && Wf(More(s, e).events)
    requires Ids(s.events) + Ids(More(s, e).events) <= kept
    requires Spilled(a, b, More(s, e), e)
    ensures Failing(b, s, kept)
  {
    SpillJournalIs(a, s.id, e, kept);
  }

  lemma RewriteWorks(a: Stores, b: Stores, s: Session, base: Session, kept: set<string>, ok: bool)
    requires Working(a, s, base, kept) && SessionWritten(a, b, s, ok)
    ensures Working(b, s, base, kept) && (InSession(a, kept) && |s.events| >= MAX_CAPTURE_STEPS ==> InSession(b, kept))
  {
    if |s.events| >= MAX_CAPTURE_STEPS { FullIs(a, s, base, kept); }
  }

  // The failure branch saves exactly the kept events.
  lemma FailureSaved(a: Stores, b: Stores, s: Session, kept: set<string>, ok: bool)
    requires Failing(a, s, kept) && Saved(a, b, s, FinishFailed, NoLimit, ok) && Ids(s.events) == kept && |kept| <= MAX_RECOVERY_EVENTS
    ensures StoresWf(b) && (ok || kept <= Durable(a) ==> kept <= Durable(b))
  {
    JournalHolds(a.journal, s.id, s.events, Some(FinishFailed), NoLimit, kept);
  }

  lemma FailureSettles(a: Stores, b: Stores, s: Session, kept: set<string>, ok: bool, bound: set<string>)
    requires Failing(a, s, kept) && Saved(a, b, s, FinishFailed, NoLimit, ok) && Ids(s.events) == kept
    requires Known(a) + kept <= bound && |bound| <= MAX_RECOVERY_EVENTS
    ensures Settled(a, b, bound)
  {
    SavedKeeps(a, b, s, FinishFailed, NoLimit, ok, bound);
  }

  // What the failure branch leaves in both stores.
  lemma FinishSaved(a: Stores, b: Stores, retry: Session, s: Session, kept: set<string>, ok: bool, bound: set<string>)
    requires Failing(a, s, kept) && Saved(a, b, retry, FinishFailed, NoLimit, ok) && Wf(retry.events) && retry.id == s.id
    requires Ids(retry.events) == kept && Known(a) + kept <= bound
    ensures |kept| <= MAX_RECOVERY_EVENTS ==> StoresWf(b) && (ok || kept <= Durable(a) ==> kept <= Durable(b))
    ensures |bound| <= MAX_RECOVERY_EVENTS ==> Settled(a, b, bound)
    ensures Marks(a, b, retry.limit == Images)
  {
    SavedMarks(a, b, retry, FinishFailed, NoLimit, ok);
    if |kept| <= MAX_RECOVERY_EVENTS { FailureSaved(a, b, retry, kept, ok); }
    if |bound| <= MAX_RECOVERY_EVENTS { FailureSettles(a, b, retry, kept, ok, bound); }
  }

  lemma {:induction false} WorkingStarts(st: Stores, base: Session, es: seq<Event>)
    requires Of(st, base.id) && Wf(base.events) && Known(st) <= Ids(base.events) && HasRoom(base) && Identified(es)
    ensures Working(st, base, base, Ids(Take(base.events, es)))
  {
    TakeWf(base.events, es);
    DistinctIds(Take(base.events, es));
  }

  lemma {:induction false} StepWithin(s: seq<Event>, es: seq<Event>, k: nat)
    requires Wf(s) && Identified(es) && k < |es|
    ensures Ids(Take1(TakeTo(s, es, k), es[k])) <= Ids(Take(s, es))
  {
    TakeToIs(s, es, k + 1);
    SplitAt(es, k + 1);
    TakeTwice(s, es[..k + 1], es[k + 1..]);
    TakeWf(s, es[..k + 1]);
    TakeWf(Take(s, es[..k + 1]), es[k + 1..]);
  }

  lemma {:induction false} LoopStarts(st: Stores, base: Session, es: seq<Event>, kept: set<string>)
    requires Working(st, base, base, kept) && Identified(es) && kept == Ids(Take(base.events, es))
    ensures Halfway(st, st, base, base, es, 0, kept) && Going(st, st, kept)
  {
  }

  lemma HalfwayIs(before: Stores, st: Stores, s: Session, base: Session, es: seq<Event>, k: nat, kept: set<string>)
    requires Halfway(before, st, s, base, es, k, kept) && k < |es|
    ensures Working(st, s, base, kept) && es[k].id != "" && Ids(Take1(s.events, es[k])) <= kept
    ensures |s.events| >= MAX_CAPTURE_STEPS ==> Take1(s.events, es[k]) == s.events
  {
    StepWithin(base.events, es, k);
    Take1Is(s.events, es[k]);
  }

  lemma HalfwayGoesOn(before: Stores, a: Stores, b: Stores, s: Session, next: Option<Session>, base: Session, es: seq<Event>, k: nat,
                      kept: set<string>)
    requires Halfway(before, a, s, base, es, k, kept) && k < |es| && Going(a, b, kept)
    requires if next.Some? then Working(b, next.value, base, kept) && next.value.events == Take1(s.events, es[k]) else Failing(b, s, kept)
    ensures Going(before, b, kept)
    ensures if next.Some? then Halfway(before, b, next.value, base, es, k + 1, kept) else Stopped(b, s, base, es, k, kept)
  {
    GoesOn(before, a, b, kept);
  }

  // The loop has ended early, or has recorded every event within the limits.
  ghost predicate Stopped(st: Stores, s: Session, base: Session, es: seq<Event>, done: nat, kept: set<string>) {
    done <= |es| && s.limit != Images && s.id == base.id && s.events == TakeTo(base.events, es, done) && Failing(st, s, kept)
  }

  ghost predicate AllTaken(st: Stores, s: Session, base: Session, es: seq<Event>, kept: set<string>) {
    Stopped(st, s, base, es, |es|, kept) && (s.events == base.events || InSession(st, kept))
  }

  lemma {:induction false} AllRecorded(before: Stores, st: Stores, s: Session, base: Session, es: seq<Event>, kept: set<string>)
    requires Halfway(before, st, s, base, es, |es|, kept)
    ensures AllTaken(st, s, base, es, kept) && Going(before, st, kept)
    ensures |s.events| >= MAX_CAPTURE_STEPS ==> InSession(st, kept)
  {
    TakeToIs(base.events, es, |es|);
    if |s.events| >= MAX_CAPTURE_STEPS { FullIs(st, s, base, kept); }
  }

  // Adding the retained events again to where the loop stopped gives what the whole loop would have kept.
  lemma {:induction false} Recorded(s: Session, base: Session, es: seq<Event>, done: nat)
    requires Wf(base.events) && HasRoom(base) && Identified(es) && done <= |es|
    requires s.limit != Images && s.events == TakeTo(base.events, es, done)
    ensures KeepPending(s, es).events == Take(base.events, es)
    ensures done == |es| ==> s.events == Take(base.events, es)
    ensures done == |es| && |s.events| < MAX_CAPTURE_STEPS ==> Ids(es) <= Ids(s.events)
  {
    TakeToIs(base.events, es, done);
    TakenOrFull(base.events, es);
    TakeResumes(base.events, es, done);
    TakeWf(base.events, es[..done]);
    if |s.events| >= MAX_CAPTURE_STEPS { TakeOld(s.events, es); }
  }
}
