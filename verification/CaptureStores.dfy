/**
 What the service worker keeps of a recording: the session store, the recovery journal, the volatile
 fallback, and the session it rebuilds from them
 (apps/extension/background/service-worker.js:48-56,98-133,534-564).
 */
module CaptureStores {
  import opened Basics
  import opened CaptureEvents

  const MAX_CAPTURE_STEPS: nat := 200
  const MAX_CLAIM_ASSETS: nat := 100

  datatype Phase = Recording | Paused | FinishFailed | ReinjectionFailed | CancelFailed | Starting

  datatype Limit = NoLimit | Images | Steps

  datatype Session = Session(id: string, phase: Phase, limit: Limit, events: seq<Event>)

  datatype Journal = Journal(id: string, events: seq<Event>, phase: Option<Phase>, limit: Limit)

  datatype Fallback = Fallback(id: string, events: seq<Event>)

  datatype Stores = Stores(session: Option<Session>, journal: Option<Journal>,
                           fallback: Option<Fallback>, marker: Option<string>)

  // Each event has an id of its own.
  predicate Wf(s: seq<Event>) { Identified(s) && UniqueIds(s) }

  predicate StoresWf(st: Stores) {
    && (st.session.Some? ==> Wf(st.session.value.events))
    && (st.journal.Some? ==> Wf(st.journal.value.events))
    && (st.fallback.Some? ==> Wf(st.fallback.value.events))
  }

  // persistRecoveryJournal's record.
  function NextJournal(j: Option<Journal>, id: string, events: seq<Event>, phase: Option<Phase>, limit: Limit): Journal {
    var same := j.Some? && j.value.id == id;
    Journal(id, MergeRecovery(if same then j.value.events else [], events),
            if phase.Some? then phase else if same then j.value.phase else None,
            if limit != NoLimit then limit else if same then j.value.limit else NoLimit)
  }

  function WithJournal(s: seq<Event>, id: string, j: Option<Journal>): seq<Event> {
    if j.Some? && j.value.id == id then MergeEvents(s, j.value.events) else s
  }

  function WithFallback(s: seq<Event>, id: string, f: Option<Fallback>): seq<Event> {
    if f.Some? && f.value.id == id then MergeEvents(s, f.value.events) else s
  }

  // getSession.
  function Rebuild(st: Stores): Option<Session> {
    if st.session.None? then
      if st.journal.Some? && st.journal.value.phase == Some(CancelFailed) && st.journal.value.id != ""
      then Some(Session(st.journal.value.id, CancelFailed, NoLimit, st.journal.value.events)) else None
    else
      var s, j := st.session.value, st.journal;
      var marked := st.marker == Some(s.id);
      var events := WithFallback(WithJournal(s.events, s.id, j), s.id, st.fallback);
      if j.Some? && j.value.id == s.id && j.value.phase.Some? && !marked then
        Some(Session(s.id, j.value.phase.value, if j.value.limit != NoLimit then j.value.limit else s.limit, events))
      else Some(Session(s.id, if marked then ReinjectionFailed else s.phase, s.limit, events))
  }

  // The phase of the rebuilt session is the journal's, if it has one of this session and the recorder did not fail to
  // come back; its limit is the journal's too, or else the session's.
  lemma RebuildSays(st: Stores)
    requires st.session.Some?
    ensures var s := st.session.value; var j := st.journal; var r := Rebuild(st).value;
            var written := j.Some? && j.value.id == s.id && j.value.phase.Some?;
            && (st.marker == Some(s.id) ==> r.phase == ReinjectionFailed && r.limit == s.limit)
            && (st.marker != Some(s.id) && written ==> Some(r.phase) == j.value.phase)
            && (st.marker != Some(s.id) && !written ==> r.phase == s.phase && r.limit == s.limit)
            && (st.marker != Some(s.id) && written && j.value.limit.NoLimit? ==> r.limit == s.limit)
            && (st.marker != Some(s.id) && written && !j.value.limit.NoLimit? ==> r.limit == j.value.limit)
  {
  }

  // Without a session only a recording whose cancellation failed is rebuilt, from its journal.
  lemma RebuildWithoutSession(st: Stores)
    requires st.session.None?
    ensures var r := Rebuild(st); var j := st.journal;
            && (r.Some? <==> j.Some? && j.value.phase == Some(CancelFailed) && j.value.id != "")
            && (r.Some? ==> r.value.id == j.value.id && r.value.phase == CancelFailed && r.value.limit == NoLimit && r.value.events == j.value.events)
  {
  }

  // A write to the journal changes phase and limit only to what it is given; another recording's are forgotten.
  lemma JournalSays(j: Option<Journal>, id: string, events: seq<Event>, phase: Option<Phase>, limit: Limit)
    ensures var n := NextJournal(j, id, events, phase, limit); var same := j.Some? && j.value.id == id;
            && n.id == id
            && (phase.Some? ==> n.phase == phase) && (phase.None? && same ==> n.phase == j.value.phase)
            && (phase.None? && !same ==> n.phase.None?)
            && (!limit.NoLimit? ==> n.limit == limit) && (limit.NoLimit? && same ==> n.limit == j.value.limit)
            && (limit.NoLimit? && !same ==> n.limit == NoLimit)
  {
  }

  ghost function JournalIds(j: Option<Journal>, id: string): set<string> {
    if j.Some? && j.value.id == id then Ids(j.value.events) else {}
  }

  ghost function FallbackIds(f: Option<Fallback>, id: string): set<string> {
    if f.Some? && f.value.id == id then Ids(f.value.events) else {}
  }

  // The rebuilt session holds, by id, exactly what the stores of that session hold, each event once.
  lemma RebuildIs(st: Stores)
    requires StoresWf(st)
    ensures var r := Rebuild(st);
            && (r.Some? ==> Wf(r.value.events))
            && (st.session.Some? ==>
                  && r.Some? && r.value.id == st.session.value.id
                  && Ids(r.value.events) == Ids(st.session.value.events) + JournalIds(st.journal, r.value.id)
                                            + FallbackIds(st.fallback, r.value.id))
  {
    if st.session.Some? {
      var s := st.session.value;
      var events := WithJournal(s.events, s.id, st.journal);
      if st.journal.Some? && st.journal.value.id == s.id { MergeWf(s.events, st.journal.value.events); }
      if st.fallback.Some? && st.fallback.value.id == s.id { MergeWf(events, st.fallback.value.events); }
    }
  }

  lemma MergeWf(s: seq<Event>, es: seq<Event>)
    requires Wf(s) && Identified(es)
    ensures Wf(MergeEvents(s, es)) && Ids(MergeEvents(s, es)) == Ids(s) + Ids(es)
  {
    MergeIs(s, es, 0);
  }

  // While the ids it may hold are at most a thousand, the journal loses none that it is given.
  lemma JournalHolds(j: Option<Journal>, id: string, events: seq<Event>, phase: Option<Phase>, limit: Limit, bound: set<string>)
    requires Identified(events) && (j.Some? ==> Wf(j.value.events))
    ensures var n := NextJournal(j, id, events, phase, limit);
            && Wf(n.events) && Ids(n.events) <= JournalIds(j, id) + Ids(events)
            && (JournalIds(j, id) + Ids(events) <= bound && |bound| <= MAX_RECOVERY_EVENTS ==>
                  Ids(n.events) == JournalIds(j, id) + Ids(events))
  {
    var existing := if j.Some? && j.value.id == id then j.value.events else [];
    RecoveryIs(existing, events);
    if JournalIds(j, id) + Ids(events) <= bound { Smaller(Ids(existing) + Ids(events), bound); }
  }

  lemma {:induction false} Smaller(a: set<string>, b: set<string>)
    requires a <= b
    ensures |a| <= |b|
  {
    if a == {} {
    } else {
      var x :| x in a;
      Smaller(a - {x}, b - {x});
    }
  }

  // ---------- taking the recorder's events without images ----------

  // mergePendingEventsWithoutImages: the step limit turns away what would be the 201st event.
  function Take1(s: seq<Event>, e: Event): seq<Event> {
    var merged := MergeEvents(s, [e]);
    if |merged| == |s| || |merged| > MAX_CAPTURE_STEPS then s else merged
  }

  function Take(s: seq<Event>, es: seq<Event>): seq<Event> {
    if es == [] then s else Take1(Take(s, es[..|es| - 1]), es[|es| - 1])
  }

  predicate HasRoom(s: Session) { s.limit != Images && |s.events| < MAX_CAPTURE_STEPS }

  function KeepPending(s: Session, es: seq<Event>): Session {
    if !HasRoom(s) then s
    else
      var taken := s.(events := Take(s.events, es));
      if |AppendAll(s.events, es)| > MAX_CAPTURE_STEPS then taken.(phase := Paused, limit := Steps) else taken
  }

  // The ids already recorded and those of the recorder's events within the step and image limits.
  ghost function Within(s: Session, es: seq<Event>): set<string> { Ids(KeepPending(s, es).events) }

  lemma {:induction false} Take1Is(s: seq<Event>, e: Event)
    requires Wf(s) && e.id != ""
    ensures Take1(s, e) == (if e.id in Ids(s) || |s| >= MAX_CAPTURE_STEPS then s else StableSort(s + [e]))
    ensures |MergeEvents(s, [e])| == if e.id in Ids(s) then |s| else |s| + 1
    ensures Wf(Take1(s, e)) && |Take1(s, e)| <= Max(|s|, MAX_CAPTURE_STEPS)
    ensures Ids(Take1(s, e)) == Ids(s) + (if |s| >= MAX_CAPTURE_STEPS then {} else {e.id})
  {
    assert [e][..0] == [];
    AppendIs(s, e);
    IdsPush(s, e);
    assert AppendAll(s, [e]) == Append(s, e);
    MergeWf(s, [e]);
    assert Ids([e]) == {e.id};
  }

  function First(s: seq<Event>): seq<Event> { if |s| <= MAX_CAPTURE_STEPS then s else s[..MAX_CAPTURE_STEPS] }

  lemma TakeStep(p: seq<Event>, a: seq<Event>, e: Event)
    requires Wf(p) && e.id != "" && multiset(p) == multiset(First(a))
    ensures multiset(Take1(p, e)) == multiset(First(Append(a, e)))
  {
    assert |p| == |multiset(p)| && |First(a)| == |multiset(First(a))|;
    Take1Is(p, e);
    AppendIs(a, e);
    if |a| < MAX_CAPTURE_STEPS {
      SameIds(p, a);
      StableSortIs(p + [e], 0);
    } else if |a| == MAX_CAPTURE_STEPS {
      assert (a + [e])[..MAX_CAPTURE_STEPS] == a;
    } else {
      assert (a + [e])[..MAX_CAPTURE_STEPS] == a[..MAX_CAPTURE_STEPS];
    }
  }

  // What is taken is exactly the first two hundred of the recorded and the new events, each once.
  lemma {:induction false} TakeIs(s: seq<Event>, es: seq<Event>)
    requires Wf(s) && Identified(es) && |s| <= MAX_CAPTURE_STEPS
    ensures multiset(Take(s, es)) == multiset(First(AppendAll(s, es)))
  {
    if es == [] {
    } else {
      var front, last := es[..|es| - 1], es[|es| - 1];
      TakeIs(s, front);
      TakeWf(s, front);
      TakeStep(Take(s, front), AppendAll(s, front), last);
    }
  }

  lemma SameIds(a: seq<Event>, b: seq<Event>)
    requires multiset(a) == multiset(b)
    ensures Ids(a) == Ids(b)
  {
    assert forall e :: e in a <==> e in multiset(a);
    assert forall e :: e in b <==> e in multiset(b);
  }

  lemma {:induction false} TakeKeeps(s: seq<Event>, es: seq<Event>)
    requires Wf(s) && Identified(es)
    ensures Wf(Take(s, es)) && |s| <= |Take(s, es)| <= Max(|s|, MAX_CAPTURE_STEPS)
  {
    if es == [] {
    } else {
      TakeKeeps(s, es[..|es| - 1]);
      Take1Is(Take(s, es[..|es| - 1]), es[|es| - 1]);
    }
  }

  lemma {:induction false} TakeIds(s: seq<Event>, es: seq<Event>)
    requires Wf(s) && Identified(es)
    ensures Ids(s) <= Ids(Take(s, es)) <= Ids(s) + Ids(es)
  {
    if es == [] {
    } else {
      var front, last := es[..|es| - 1], es[|es| - 1];
      TakeKeeps(s, front);
      TakeIds(s, front);
      Take1Is(Take(s, front), last);
      SplitLast(es);
      IdsPush(front, last);
    }
  }

  lemma {:induction false} TakeWf(s: seq<Event>, es: seq<Event>)
    requires Wf(s) && Identified(es)
    ensures Wf(Take(s, es)) && Ids(s) <= Ids(Take(s, es)) <= Ids(s) + Ids(es) && |s| <= |Take(s, es)| <= Max(|s|, MAX_CAPTURE_STEPS)
  {
    TakeKeeps(s, es);
    TakeIds(s, es);
  }

  lemma {:induction false} TakeTwice(s: seq<Event>, a: seq<Event>, b: seq<Event>)
    ensures Take(Take(s, a), b) == Take(s, a + b)
  {
    if b == [] {
      assert a + b == a;
    } else {
      TakeTwice(s, a, b[..|b| - 1]);
      assert (a + b)[..|a + b| - 1] == a + b[..|b| - 1];
    }
  }

  // What the first k events leave.
  function TakeTo(s: seq<Event>, es: seq<Event>, k: nat): seq<Event>
    requires k <= |es|
  {
    if k == 0 then s else Take1(TakeTo(s, es, k - 1), es[k - 1])
  }

  lemma {:induction false} TakeToIs(s: seq<Event>, es: seq<Event>, k: nat)
    requires k <= |es|
    ensures TakeTo(s, es, k) == Take(s, es[..k]) && (k == |es| ==> TakeTo(s, es, k) == Take(s, es))
  {
    if k == 0 {
    } else {
      TakeToIs(s, es, k - 1);
      assert es[..k][..k - 1] == es[..k - 1];
    }
    SplitAt(es, k);
  }

  lemma {:induction false} TakeOld(s: seq<Event>, es: seq<Event>)
    requires Wf(s) && Identified(es)
    requires |s| >= MAX_CAPTURE_STEPS || Ids(es) <= Ids(s)
    ensures Take(s, es) == s
  {
    if es == [] {
    } else {
      var front, last := es[..|es| - 1], es[|es| - 1];
      SplitLast(es);
      IdsPush(front, last);
      TakeOld(s, front);
      Take1Is(s, last);
    }
  }

  lemma {:induction false} TakenOrFull(s: seq<Event>, es: seq<Event>)
    requires Wf(s) && Identified(es)
    ensures |Take(s, es)| >= MAX_CAPTURE_STEPS || Ids(es) <= Ids(Take(s, es))
  {
    if es == [] {
    } else {
      var front, last := es[..|es| - 1], es[|es| - 1];
      TakenOrFull(s, front);
      TakeWf(s, front);
      Take1Is(Take(s, front), last);
      SplitLast(es);
      IdsPush(front, last);
    }
  }

  // A batch taken again from part of the way on ends where it would have ended.
  lemma {:induction false} TakeResumes(s: seq<Event>, es: seq<Event>, k: nat)
    requires Wf(s) && Identified(es) && k <= |es|
    ensures Take(Take(s, es[..k]), es) == Take(s, es)
  {
    var t := Take(s, es[..k]);
    SplitAt(es, k);
    assert Identified(es[..k]) && Identified(es[k..]);
    TakenOrFull(s, es[..k]);
    TakeWf(s, es[..k]);
    TakeOld(t, es[..k]);
    TakeTwice(t, es[..k], es[k..]);
    TakeTwice(s, es[..k], es[k..]);
  }

  // The ids that are taken cover every event offered when all of them fit.
  lemma {:induction false} AllWithin(s: Session, es: seq<Event>)
    requires Wf(s.events) && Identified(es) && HasRoom(s) && |AppendAll(s.events, es)| <= MAX_CAPTURE_STEPS
    ensures Within(s, es) == Ids(s.events) + Ids(es)
  {
    TakeIs(s.events, es);
    AppendAllIs(s.events, es);
    SameIds(Take(s.events, es), AppendAll(s.events, es));
  }

  // What is kept covers what was recorded, adds only what was offered, and stays within the larger of
  // the two counts.
  lemma KeptBound(s: Session, es: seq<Event>)
    requires Wf(s.events) && Identified(es)
    ensures var k := KeepPending(s, es);
            && Wf(k.events) && k.id == s.id && Ids(s.events) <= Ids(k.events) <= Ids(s.events) + Ids(es)
            && |Ids(k.events)| == |k.events| <= Max(|s.events|, MAX_CAPTURE_STEPS)
  {
    TakeWf(s.events, es);
    DistinctIds(KeepPending(s, es).events);
  }

  // A session at a limit takes nothing; otherwise the first two hundred actions are kept, and the limit on steps is
  // marked, with a pause, exactly when there are more.
  lemma {:induction false} KeepPendingIs(s: Session, es: seq<Event>)
    requires Wf(s.events) && Identified(es)
    ensures var k := KeepPending(s, es); var all := AppendAll(s.events, es);
            && k.id == s.id
            && (s.limit == Images || |s.events| >= MAX_CAPTURE_STEPS ==> k == s)
            && (s.limit != Images && |s.events| < MAX_CAPTURE_STEPS ==>
                  && multiset(k.events) == multiset(First(all))
                  && (if |all| > MAX_CAPTURE_STEPS then k.phase == Paused && k.limit == Steps else k.phase == s.phase && k.limit == s.limit))
  {
    if HasRoom(s) { TakeIs(s.events, es); }
  }

  method MergePendingEventsWithoutImages(s: Session, es: seq<Event>) returns (r: Session)
    requires Wf(s.events) && Identified(es)
    ensures r == KeepPending(s, es)
  {
    if !HasRoom(s) { return s; }
    var next, reached := s, false;
    for k := 0 to |es|
      invariant next == s.(events := Take(s.events, es[..k]))
      invariant reached == (|AppendAll(s.events, es[..k])| > MAX_CAPTURE_STEPS)
    {
      ReachedStep(s.events, es, k);
      var merged := MergeEvents(next.events, [es[k]]);
      if |merged| != |next.events| {
        if |merged| > MAX_CAPTURE_STEPS { reached := true; } else { next := next.(events := merged); }
      }
    }
    SplitAt(es, |es|);
    r := if reached then next.(phase := Paused, limit := Steps) else next;
  }

  lemma ReachedStep(s: seq<Event>, es: seq<Event>, k: nat)
    requires Wf(s) && Identified(es) && |s| <= MAX_CAPTURE_STEPS && k < |es|
    ensures var p, a := Take(s, es[..k]), AppendAll(s, es[..k]);
            && Take(s, es[..k + 1]) == Take1(p, es[k])
            && (|AppendAll(s, es[..k + 1])| > MAX_CAPTURE_STEPS
                <==> |a| > MAX_CAPTURE_STEPS || (|MergeEvents(p, [es[k]])| != |p| && |MergeEvents(p, [es[k]])| > MAX_CAPTURE_STEPS))
  {
    var p, a := Take(s, es[..k]), AppendAll(s, es[..k]);
    assert es[..k + 1][..k] == es[..k];
    TakeIs(s, es[..k]);
    AppendIs(a, es[k]);
    AppendIs(p, es[k]);
    assert [es[k]][..0] == [];
    assert AppendAll(p, [es[k]]) == Append(p, es[k]);
    assert |p| == |multiset(p)| && |First(a)| == |multiset(First(a))|;
    if |a| <= MAX_CAPTURE_STEPS { SameIds(p, a); }
  }
}
